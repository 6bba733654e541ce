/**
 * The scenarios of the message handler's test suite, stated as verified methods over the model:
 * each builds a fresh platform and handler, handles one message and states
 * what the platform was asked to do.
 */
module MessageHandlerTests {
  import opened Platform
  import opened MessageHandling

  const BotUserId := "cybertUserId"
  const OtherUserId := "notCybertUserId"
  const BotMember := MemberRef(BotUserId)

  const RobotContent := "This message mentions a robot."
  const OrdinaryContent := "This is just an ordinary message."

  /** `mentions.has` answering false to every query. */
  const NoMentions := MessageMentions({})

  /** `mentions.has` answering true only for the bot's member with both ignore options. */
  const DirectMentionOfBot := MessageMentions({(BotMember, IgnoreRolesAndEveryone)})

  /** A platform whose `addReaction` succeeds. */
  const Succeeding := Behaviour(map[], None, None)

  /** A platform whose `addReaction` raises `Error('errorMessage')`. */
  const FailingReactions := Behaviour(map[], None, Some(PlatformError("errorMessage")))

  /** A message in the bot's guild, seen by the bot's client. */
  function TestMessage(id: string, authorId: string, content: string, mentions: MessageMentions): (m: Message)
    ensures m.guildMe == BotMember && m.clientUserId == BotUserId
  {
    Message(id, authorId, content, mentions, BotMember, BotUserId)
  }

  /** The theme test agrees with the two contents the suite classifies. */
  ghost predicate AgreesWithTestExamples(isRobotThemed: string -> bool) {
    isRobotThemed(RobotContent) && !isRobotThemed(OrdinaryContent)
  }

  /** A fresh platform and handler handle `m` once; the result is the platform's trace. */
  method HandleOnFreshPlatform(isRobotThemed: string -> bool, b: Behaviour, m: Message) returns (trace: seq<Effect>)
    ensures trace == ReactionEffects(isRobotThemed, m, b)
  {
    var platform := new ChatPlatform(b);
    var handler := new MessageHandler(platform, isRobotThemed);
    handler.HandleEvent(m);
    trace := platform.trace;
  }

  /** A robot-themed message from someone else gets exactly one reaction. */
  method ReactsToRobotThemedMessage(isRobotThemed: string -> bool, id: string) returns (trace: seq<Effect>)
    requires AgreesWithTestExamples(isRobotThemed)
    ensures Calls(trace, Reaction) == [ReactionRequested(TestMessage(id, OtherUserId, RobotContent, NoMentions))]
  {
    var m := TestMessage(id, OtherUserId, RobotContent, NoMentions);
    trace := HandleOnFreshPlatform(isRobotThemed, Succeeding, m);
    ReactsOnceIffShouldReact(isRobotThemed, m, Succeeding);
  }

  /** A message from someone else that mentions the bot directly gets exactly one reaction. */
  method ReactsToDirectMention(isRobotThemed: string -> bool, id: string) returns (trace: seq<Effect>)
    ensures Calls(trace, Reaction) == [ReactionRequested(TestMessage(id, OtherUserId, "Message.", DirectMentionOfBot))]
  {
    var m := TestMessage(id, OtherUserId, "Message.", DirectMentionOfBot);
    trace := HandleOnFreshPlatform(isRobotThemed, Succeeding, m);
    ReactsOnceIffShouldReact(isRobotThemed, m, Succeeding);
  }

  /** The bot's own robot-themed message, even one mentioning the bot, gets no reaction. */
  method IgnoresOwnMessage(isRobotThemed: string -> bool, id: string, mentions: MessageMentions)
    returns (trace: seq<Effect>)
    ensures Calls(trace, Reaction) == []
  {
    var m := TestMessage(id, BotUserId, RobotContent, mentions);
    trace := HandleOnFreshPlatform(isRobotThemed, Succeeding, m);
    ReactsOnceIffShouldReact(isRobotThemed, m, Succeeding);
  }

  /** An ordinary message that does not mention the bot gets no reaction. */
  method IgnoresOrdinaryMessage(isRobotThemed: string -> bool, id: string) returns (trace: seq<Effect>)
    requires AgreesWithTestExamples(isRobotThemed)
    ensures Calls(trace, Reaction) == []
  {
    var m := TestMessage(id, OtherUserId, OrdinaryContent, NoMentions);
    trace := HandleOnFreshPlatform(isRobotThemed, Succeeding, m);
    ReactsOnceIffShouldReact(isRobotThemed, m, Succeeding);
  }

  /**
   * Mentions of the bot queried with other options, and mentions of other
   * members, do not count.
   */
  method IgnoresOtherMentionQueries(isRobotThemed: string -> bool, id: string) returns (trace: seq<Effect>)
    requires AgreesWithTestExamples(isRobotThemed)
    ensures Calls(trace, Reaction) == []
  {
    var mentions := MessageMentions({
      (BotMember, MentionOptions(false, true)),
      (BotMember, MentionOptions(true, false)),
      (BotMember, MentionOptions(false, false)),
      (MemberRef(OtherUserId), IgnoreRolesAndEveryone)});
    var m := TestMessage(id, OtherUserId, OrdinaryContent, mentions);
    trace := HandleOnFreshPlatform(isRobotThemed, Succeeding, m);
    ReactsOnceIffShouldReact(isRobotThemed, m, Succeeding);
  }

  /**
   * When `addReaction` raises an error, exactly one error log is written,
   * with the fixed text, the error and the message's id and author id, and
   * handling ends normally.
   */
  method LogsFailedReaction(isRobotThemed: string -> bool) returns (trace: seq<Effect>)
    requires AgreesWithTestExamples(isRobotThemed)
    ensures Calls(trace, ErrorLog) ==
      [ErrorLogged(UnableToAddReaction, PlatformError("errorMessage"), LogFields("messageId", OtherUserId))]
  {
    var m := TestMessage("messageId", OtherUserId, RobotContent, NoMentions);
    trace := HandleOnFreshPlatform(isRobotThemed, FailingReactions, m);
    LogsOnceIffReactionFails(isRobotThemed, m, FailingReactions);
  }

  /** One handler, the same ordinary message twice: no reaction on either call. */
  method IgnoresOrdinaryMessageTwice(isRobotThemed: string -> bool, id: string) returns (trace: seq<Effect>)
    requires AgreesWithTestExamples(isRobotThemed)
    ensures Calls(trace, Reaction) == []
  {
    var m := TestMessage(id, OtherUserId, OrdinaryContent, NoMentions);
    var platform := new ChatPlatform(Succeeding);
    var handler := new MessageHandler(platform, isRobotThemed);
    handler.HandleEvent(m);
    handler.HandleEvent(m);
    trace := platform.trace;
    assert trace == Session(isRobotThemed, [m, m], Succeeding) by {
      assert [m, m][1..] == [m] && [m][1..] == [];
      assert Session(isRobotThemed, [m], Succeeding) == ReactionEffects(isRobotThemed, m, Succeeding);
    }
    SameOrdinaryMessageTwice(isRobotThemed, m, Succeeding);
  }
}
