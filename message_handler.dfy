/**
 * Reacting to incoming messages: the handler reacts to a message that is not
 * its own and that is robot-themed or mentions the bot directly; a failed
 * reaction is logged once and goes no further.
 */
module MessageHandling {
  import opened Platform

  /** The text of the error log written when a reaction fails. */
  const UnableToAddReaction := "Unable to add reaction to message."

  /** The options of the mention query: role mentions and @everyone do not count. */
  const IgnoreRolesAndEveryone := MentionOptions(ignoreRoles := true, ignoreEveryone := true)

  /** The message was written by the bot itself. */
  predicate IsFromBot(m: Message) {
    m.authorId == m.clientUserId
  }

  /** The message mentions the bot's own guild member, as a direct member mention. */
  predicate MentionsBot(m: Message) {
    m.mentions.Has(m.guildMe, IgnoreRolesAndEveryone)
  }

  /**
   * Whether `handleEvent` reacts to `m`. `isRobotThemed` is the handler's
   * theme test on the content.
   */
  predicate ShouldReact(isRobotThemed: string -> bool, m: Message): (r: bool)
    ensures IsFromBot(m) ==> !r
    ensures !IsFromBot(m) && isRobotThemed(m.content) ==> r
    ensures !IsFromBot(m) && MentionsBot(m) ==> r
    ensures r ==> isRobotThemed(m.content) || MentionsBot(m)
  {
    !IsFromBot(m) && (isRobotThemed(m.content) || MentionsBot(m))
  }

  /** The calls `handleEvent(m)` makes against a platform answering as `b`. */
  function ReactionEffects(isRobotThemed: string -> bool, m: Message, b: Behaviour): (r: seq<Effect>)
    ensures r == [] <==> !ShouldReact(isRobotThemed, m)
    ensures r != [] ==> r[0] == ReactionRequested(m)
    ensures |r| == 2 <==> ShouldReact(isRobotThemed, m) && b.reactionError.Some?
    ensures |r| <= 2
  {
    if !ShouldReact(isRobotThemed, m) then []
    else
      match Answer(b.reactionError)
      case Pass => [ReactionRequested(m)]
      case Fail(e) => [ReactionRequested(m), ErrorLogged(UnableToAddReaction, e, LogFields(m.id, m.authorId))]
  }

  /** A reaction is requested exactly once, with the message, iff the handler should react. */
  lemma ReactsOnceIffShouldReact(isRobotThemed: string -> bool, m: Message, b: Behaviour)
    ensures Calls(ReactionEffects(isRobotThemed, m, b), Reaction) ==
            if ShouldReact(isRobotThemed, m) then [ReactionRequested(m)] else []
  {
    var es := ReactionEffects(isRobotThemed, m, b);
    if |es| == 2 {
      assert es == [es[0]] + [es[1]];
      CallsAppend([es[0]], [es[1]], Reaction);
    }
  }

  /**
   * An error log is written exactly once, with the fixed text, the error
   * and the message's id and author id, iff a wanted reaction failed.
   */
  lemma LogsOnceIffReactionFails(isRobotThemed: string -> bool, m: Message, b: Behaviour)
    ensures Calls(ReactionEffects(isRobotThemed, m, b), ErrorLog) ==
            if ShouldReact(isRobotThemed, m) && b.reactionError.Some?
            then [ErrorLogged(UnableToAddReaction, b.reactionError.value, LogFields(m.id, m.authorId))]
            else []
  {
    var es := ReactionEffects(isRobotThemed, m, b);
    if |es| == 2 {
      assert es == [es[0]] + [es[1]];
      CallsAppend([es[0]], [es[1]], ErrorLog);
    }
  }

  /** Handling a message neither logs information, nor looks up a channel, nor sends anything. */
  lemma ReactionTouchesNothingElse(isRobotThemed: string -> bool, m: Message, b: Behaviour)
    ensures var es := ReactionEffects(isRobotThemed, m, b);
      Calls(es, InfoLog) == [] && Calls(es, ChannelLookup) == [] && Calls(es, Delivery) == []
  {
    var es := ReactionEffects(isRobotThemed, m, b);
    if |es| == 2 {
      assert es == [es[0]] + [es[1]];
      CallsAppend([es[0]], [es[1]], InfoLog);
      CallsAppend([es[0]], [es[1]], ChannelLookup);
      CallsAppend([es[0]], [es[1]], Delivery);
    }
  }

  /** The bot never reacts to its own messages, whatever their content or mentions. */
  lemma NeverReactsToOwnMessage(isRobotThemed: string -> bool, m: Message, b: Behaviour)
    requires IsFromBot(m)
    ensures ReactionEffects(isRobotThemed, m, b) == []
  {
  }

  /**
   * A mention counts only as the query with the bot's own member and both
   * ignore options: for a message that is neither the bot's nor themed, any
   * other positive query leaves the handler silent.
   */
  lemma OnlyTheDirectMentionQueryCounts(isRobotThemed: string -> bool, m: Message)
    requires !IsFromBot(m) && !isRobotThemed(m.content)
    ensures ShouldReact(isRobotThemed, m) <==> (m.guildMe, MentionOptions(true, true)) in m.mentions.matches
  {
  }

  /** The calls made while handling `ms` one after another. */
  function Session(isRobotThemed: string -> bool, ms: seq<Message>, b: Behaviour): (r: seq<Effect>)
    ensures |r| <= 2 * |ms|
    ensures forall e :: e in r ==> e.ReactionRequested? || e.ErrorLogged?
  {
    if ms == [] then [] else ReactionEffects(isRobotThemed, ms[0], b) + Session(isRobotThemed, ms[1..], b)
  }

  /** Handling two runs of events one after the other makes the calls of each, in order. */
  lemma {:induction false} SessionAppend(isRobotThemed: string -> bool, a: seq<Message>, c: seq<Message>, b: Behaviour)
    ensures Session(isRobotThemed, a + c, b) == Session(isRobotThemed, a, b) + Session(isRobotThemed, c, b)
  {
    if a == [] {
      assert a + c == c;
    } else {
      assert (a + c)[1..] == a[1..] + c;
      SessionAppend(isRobotThemed, a[1..], c, b);
    }
  }

  /** The messages of `ms` the handler should react to, in order. */
  function Matching(isRobotThemed: string -> bool, ms: seq<Message>): (r: seq<Message>)
    ensures forall m :: m in r ==> m in ms && ShouldReact(isRobotThemed, m)
  {
    if ms == [] then []
    else (if ShouldReact(isRobotThemed, ms[0]) then [ms[0]] else []) + Matching(isRobotThemed, ms[1..])
  }

  /**
   * The handler keeps no state between events: over a session, reactions
   * are requested for exactly the messages that warrant one, in order.
   */
  lemma {:induction false} SessionReactsToMatchingMessages(isRobotThemed: string -> bool, ms: seq<Message>, b: Behaviour)
    ensures var rs := Calls(Session(isRobotThemed, ms, b), Reaction);
      var want := Matching(isRobotThemed, ms);
      |rs| == |want| && forall i :: 0 <= i < |rs| ==> rs[i] == ReactionRequested(want[i])
  {
    if ms != [] {
      SessionReactsToMatchingMessages(isRobotThemed, ms[1..], b);
      CallsAppend(ReactionEffects(isRobotThemed, ms[0], b), Session(isRobotThemed, ms[1..], b), Reaction);
      ReactsOnceIffShouldReact(isRobotThemed, ms[0], b);
    }
  }

  /** Handling the same message that warrants no reaction twice requests no reaction at all. */
  lemma SameOrdinaryMessageTwice(isRobotThemed: string -> bool, m: Message, b: Behaviour)
    requires !ShouldReact(isRobotThemed, m)
    ensures Calls(Session(isRobotThemed, [m, m], b), Reaction) == []
  {
    SessionReactsToMatchingMessages(isRobotThemed, [m, m], b);
    assert [m, m][1..] == [m] && [m][1..] == [];
    assert Matching(isRobotThemed, [m]) == [];
    assert Matching(isRobotThemed, [m, m]) == [];
  }

  /** `MessageHandler`: reacts to messages through the platform. */
  class MessageHandler {
    const platform: ChatPlatform
    const isRobotThemed: string -> bool

    constructor (platform: ChatPlatform, isRobotThemed: string -> bool)
      ensures this.platform == platform && this.isRobotThemed == isRobotThemed
    {
      this.platform := platform;
      this.isRobotThemed := isRobotThemed;
    }

    /**
     * `handleEvent(message)`: a failed reaction is logged and handling ends
     * normally, so the method has no error result.
     */
    method HandleEvent(message: Message)
      modifies platform
      ensures platform.trace == old(platform.trace) + ReactionEffects(isRobotThemed, message, platform.behaviour)
    {
      if message.authorId == message.clientUserId {
        return;
      }
      var themed := isRobotThemed(message.content);
      var mentioned := message.mentions.Has(message.guildMe, IgnoreRolesAndEveryone);
      if themed || mentioned {
        var reaction := platform.AddReaction(message);
        if reaction.Fail? {
          platform.LogError(UnableToAddReaction, reaction.error, LogFields(message.id, message.authorId));
        }
      }
    }

    /** Handles the messages of `ms` one after another with the same handler. */
    method HandleEvents(ms: seq<Message>)
      modifies platform
      ensures platform.trace == old(platform.trace) + Session(isRobotThemed, ms, platform.behaviour)
    {
      var i := 0;
      while i < |ms|
        invariant 0 <= i <= |ms|
        invariant platform.trace == old(platform.trace) + Session(isRobotThemed, ms[..i], platform.behaviour)
      {
        HandleEvent(ms[i]);
        SessionAppend(isRobotThemed, ms[..i], [ms[i]], platform.behaviour);
        assert ms[..i + 1] == ms[..i] + [ms[i]];
        assert Session(isRobotThemed, [ms[i]], platform.behaviour) == ReactionEffects(isRobotThemed, ms[i], platform.behaviour) by {
          assert [ms[i]][1..] == [];
        }
        i := i + 1;
      }
      assert ms[..|ms|] == ms;
    }
  }
}
