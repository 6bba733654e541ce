/**
 * Welcoming a new member: the four phrase lists, the three-message welcome
 * composed from them, and the handler that logs the join, looks up the
 * general channel and sends the welcome there.
 */
module Welcome {
  import opened Strings
  import opened Platform
  import Dialog

  /** The greetings; each one addresses the member by `mention`. */
  function Greetings(mention: string): (r: seq<string>)
    ensures |r| == 4
  {
    [ "Hello " + mention + ".",
      "Oh! It is " + mention + "!",
      mention + ", how are you?",
      "Greetings, " + mention + "!" ]
  }

  const WelcomeStatements: seq<string> := [
    "Welcome to the group.",
    "We are glad you are here.",
    "It is marvelous that you have joined us.",
    "It is a pleasure to meet you."
  ]

  const AwkwardComments: seq<string> := [
    "Please familiarize yourself with your surroundings.",
    "You really should meet these other humans. They are great.",
    "I must say, I am very intrigued to meet yet another human.",
    "I hope you enjoy this virtual environment. It is quite suitable for prolonged habitation."
  ]

  const IntroductionRequests: seq<string> := [
    "When you are ready, we would love to hear a little bit about you.",
    "Also, please feel free to introduce yourself.",
    "We would like to get to know you. Could you tell us about yourself?",
    "If you do not mind, would you introduce yourself to us?"
  ]

  /** Every phrase list has four entries, so none is empty. */
  lemma PhraseListsHaveFourEntries(mention: string)
    ensures |Greetings(mention)| == 4 && |WelcomeStatements| == 4
    ensures |AwkwardComments| == 4 && |IntroductionRequests| == 4
  {
  }

  /** Every greeting contains the member's mention. */
  lemma EveryGreetingMentionsMember(mention: string)
    ensures forall g :: g in Greetings(mention) ==> Contains(g, mention)
  {
    ContainsInfix("Hello ", mention, ".");
    ContainsInfix("Oh! It is ", mention, "!");
    ContainsInfix("", mention, ", how are you?");
    assert "" + mention + ", how are you?" == mention + ", how are you?";
    ContainsInfix("Greetings, ", mention, "!");
  }

  /**
   * What the random selection utility and `makeRobotNoise` return during one
   * composition, in call order: an index into each list and the two noises.
   */
  datatype Draws = Draws(
    greeting: nat,
    noise1: string,
    welcome: nat,
    awkward: nat,
    introduction: nat,
    noise2: string)

  /** Each drawn index lies in its list. */
  predicate ValidDraws(member: GuildMember, d: Draws) {
    d.greeting < |Greetings(member.mention)| &&
    d.welcome < |WelcomeStatements| &&
    d.awkward < |AwkwardComments| &&
    d.introduction < |IntroductionRequests|
  }

  /** The phrase lists being non-empty, some draw is always possible. */
  lemma DrawsAreAlwaysPossible(member: GuildMember, noise1: string, noise2: string)
    ensures exists d :: ValidDraws(member, d) && d.noise1 == noise1 && d.noise2 == noise2
  {
    assert ValidDraws(member, Draws(0, noise1, 0, 0, 0, noise2));
  }

  /** The first welcome message: the four parts joined by single spaces. */
  function WelcomeLine(greeting: string, noise: string, welcome: string, awkward: string): string {
    greeting + " " + noise + " " + welcome + " " + awkward
  }

  /** Each of the four parts occurs in the joined line. */
  lemma WelcomeLineHasParts(greeting: string, noise: string, welcome: string, awkward: string)
    ensures var line := WelcomeLine(greeting, noise, welcome, awkward);
      Contains(line, greeting) && Contains(line, noise) && Contains(line, welcome) && Contains(line, awkward)
  {
    var line := WelcomeLine(greeting, noise, welcome, awkward);
    var tail := " " + noise + " " + welcome + " " + awkward;
    assert line == "" + greeting + tail;
    ContainsInfix("", greeting, tail);
    assert line == (greeting + " ") + noise + (" " + welcome + " " + awkward);
    ContainsInfix(greeting + " ", noise, " " + welcome + " " + awkward);
    assert line == (greeting + " " + noise + " ") + welcome + (" " + awkward);
    ContainsInfix(greeting + " " + noise + " ", welcome, " " + awkward);
    assert line == (greeting + " " + noise + " " + welcome + " ") + awkward + "";
    ContainsInfix(greeting + " " + noise + " " + welcome + " ", awkward, "");
  }

  /** `generateWelcomeMessages(member)` for the given draws. */
  function GenerateWelcomeMessages(member: GuildMember, d: Draws): (r: seq<string>)
    requires ValidDraws(member, d)
    ensures |r| == 3
  {
    [ WelcomeLine(
        Dialog.ChooseRandomMessage(Greetings(member.mention), d.greeting),
        d.noise1,
        Dialog.ChooseRandomMessage(WelcomeStatements, d.welcome),
        Dialog.ChooseRandomMessage(AwkwardComments, d.awkward)),
      Dialog.ChooseRandomMessage(IntroductionRequests, d.introduction),
      d.noise2 ]
  }

  /**
   * A welcome built with the noises `noise1` and `noise2`: three messages,
   * the first a greeting, the noise, a welcome statement and an awkward
   * comment in that order, the second an introduction request, the third
   * the second noise.
   */
  ghost predicate IsWelcomeFor(member: GuildMember, noise1: string, noise2: string, r: seq<string>) {
    |r| == 3 &&
    (exists i, j, k ::
      0 <= i < |Greetings(member.mention)| && 0 <= j < |WelcomeStatements| && 0 <= k < |AwkwardComments| &&
      r[0] == WelcomeLine(Greetings(member.mention)[i], noise1, WelcomeStatements[j], AwkwardComments[k])) &&
    r[1] in IntroductionRequests &&
    r[2] == noise2
  }

  /** Whatever is drawn, the composition is a welcome of that shape. */
  lemma GeneratedIsWelcome(member: GuildMember, d: Draws)
    requires ValidDraws(member, d)
    ensures IsWelcomeFor(member, d.noise1, d.noise2, GenerateWelcomeMessages(member, d))
  {
    var r := GenerateWelcomeMessages(member, d);
    assert r[0] == WelcomeLine(Greetings(member.mention)[d.greeting], d.noise1,
                               WelcomeStatements[d.welcome], AwkwardComments[d.awkward]);
  }

  /** Every welcome of that shape is what some draw composes. */
  lemma EveryWelcomeIsGenerated(member: GuildMember, noise1: string, noise2: string, r: seq<string>)
    requires IsWelcomeFor(member, noise1, noise2, r)
    ensures exists d :: ValidDraws(member, d) && d.noise1 == noise1 && d.noise2 == noise2 &&
                        GenerateWelcomeMessages(member, d) == r
  {
    var i, j, k :|
      0 <= i < |Greetings(member.mention)| && 0 <= j < |WelcomeStatements| && 0 <= k < |AwkwardComments| &&
      r[0] == WelcomeLine(Greetings(member.mention)[i], noise1, WelcomeStatements[j], AwkwardComments[k]);
    var l :| 0 <= l < |IntroductionRequests| && IntroductionRequests[l] == r[1];
    var d := Draws(i, noise1, j, k, l, noise2);
    var g := GenerateWelcomeMessages(member, d);
    assert g[0] == r[0] && g[1] == r[1] && g[2] == r[2];
    assert g == r;
  }

  /** The first welcome message addresses the new member. */
  lemma FirstMessageMentionsMember(member: GuildMember, d: Draws)
    requires ValidDraws(member, d)
    ensures Contains(GenerateWelcomeMessages(member, d)[0], member.mention)
  {
    var g := Greetings(member.mention)[d.greeting];
    EveryGreetingMentionsMember(member.mention);
    assert Contains(g, member.mention);
    WelcomeLineHasParts(g, d.noise1, WelcomeStatements[d.welcome], AwkwardComments[d.awkward]);
    ContainsTransitive(GenerateWelcomeMessages(member, d)[0], g, member.mention);
  }

  /** The fixed message field that opens the join log line. */
  const JoinMessage := "message=\"New member joined server. Sending welcome message.\""

  /** The informational log line written when a member joins. */
  function JoinLogLine(member: GuildMember): (r: string)
    ensures |r| > |JoinMessage| && r[..|JoinMessage|] == JoinMessage
  {
    JoinMessage + ", memberName=\"" +
    member.displayName + "\", memberId=\"" + member.id + "\""
  }

  /** The join log line carries the member's display name and id. */
  lemma JoinLogLineNamesMember(member: GuildMember)
    ensures Contains(JoinLogLine(member), member.displayName)
    ensures Contains(JoinLogLine(member), member.id)
  {
    var head := JoinMessage + ", memberName=\"";
    ContainsInfix(head, member.displayName, "\", memberId=\"" + member.id + "\"");
    assert JoinLogLine(member) == head + member.displayName + ("\", memberId=\"" + member.id + "\"");
    ContainsInfix(head + member.displayName + "\", memberId=\"", member.id, "\"");
  }

  /** The configured constants the handler reads. */
  datatype Constants = Constants(generalChannelName: string)

  /** The calls `welcomeNewMember` makes and how it ends. */
  datatype Run = Run(effects: seq<Effect>, outcome: Outcome)

  /**
   * `welcomeNewMember(member)` against a platform answering as `b`: log, look
   * up the general channel in the member's guild, send the welcome there. A
   * failed lookup or delivery is not caught: it ends the run with that error.
   */
  function WelcomeRun(c: Constants, b: Behaviour, member: GuildMember, d: Draws): (r: Run)
    requires ValidDraws(member, d)
    ensures 2 <= |r.effects| <= 3
    ensures r.effects[0] == InfoLogged(JoinLogLine(member))
    ensures r.effects[1] == ChannelRequested(c.generalChannelName, member.guild)
    ensures |r.effects| == 3 ==> r.effects[2].MessagesSent?
    ensures r.outcome.Pass? ==> |r.effects| == 3
  {
    var prefix := [InfoLogged(JoinLogLine(member)), ChannelRequested(c.generalChannelName, member.guild)];
    match LookupChannel(b, c.generalChannelName, member.guild)
    case Failure(e) => Run(prefix, Fail(e))
    case Success(channel) =>
      Run(prefix + [MessagesSent(channel, GenerateWelcomeMessages(member, d))], Answer(b.sendError))
  }

  /** The handler logs first, and the log names the member by display name and id. */
  lemma WelcomeLogsJoinFirst(c: Constants, b: Behaviour, member: GuildMember, d: Draws)
    requires ValidDraws(member, d)
    ensures var es := WelcomeRun(c, b, member, d).effects;
      |es| >= 2 && es[0].InfoLogged? &&
      Contains(es[0].line, member.displayName) && Contains(es[0].line, member.id) &&
      Calls(es, InfoLog) == [es[0]]
  {
    JoinLogLineNamesMember(member);
    var es := WelcomeRun(c, b, member, d).effects;
    CallsOfPrefixAndTail(c, b, member, d, InfoLog);
    CallsSingle(es[0], InfoLog);
  }

  /** Second, it looks up the configured general channel in the member's guild, and only that. */
  lemma WelcomeLooksUpGeneralChannel(c: Constants, b: Behaviour, member: GuildMember, d: Draws)
    requires ValidDraws(member, d)
    ensures var es := WelcomeRun(c, b, member, d).effects;
      |es| >= 2 && es[1] == ChannelRequested(c.generalChannelName, member.guild) &&
      Calls(es, ChannelLookup) == [es[1]]
  {
    var es := WelcomeRun(c, b, member, d).effects;
    CallsOfPrefixAndTail(c, b, member, d, ChannelLookup);
    CallsSingle(es[1], ChannelLookup);
  }

  /** A run's calls of a kind other than delivery are those among its first two calls. */
  lemma CallsOfPrefixAndTail(c: Constants, b: Behaviour, member: GuildMember, d: Draws, kind: Kind)
    requires ValidDraws(member, d) && kind != Delivery
    ensures var es := WelcomeRun(c, b, member, d).effects;
      Calls(es, kind) == Calls([es[0]], kind) + Calls([es[1]], kind)
  {
    var es := WelcomeRun(c, b, member, d).effects;
    assert es == [es[0]] + [es[1]] + es[2..];
    CallsAppend([es[0]] + [es[1]], es[2..], kind);
    CallsAppend([es[0]], [es[1]], kind);
    if |es| == 3 {
      assert es[2..] == [es[2]];
      CallsSingle(es[2], kind);
    } else {
      assert es[2..] == [];
    }
  }

  /**
   * Last, it sends exactly the composed welcome to the channel found, in one
   * call; nothing else is sent or reacted to. When the lookup fails nothing
   * is sent and the run ends with the lookup's error.
   */
  lemma WelcomeSendsComposedMessages(c: Constants, b: Behaviour, member: GuildMember, d: Draws)
    requires ValidDraws(member, d)
    ensures var run := WelcomeRun(c, b, member, d);
      var found := (c.generalChannelName, member.guild) in b.channels;
      |run.effects| == (if found then 3 else 2) &&
      Calls(run.effects, Delivery) ==
        (if found then [MessagesSent(b.channels[(c.generalChannelName, member.guild)],
                                     GenerateWelcomeMessages(member, d))]
         else []) &&
      Calls(run.effects, Reaction) == [] && Calls(run.effects, ErrorLog) == [] &&
      (run.outcome.Fail? <==> !found || b.sendError.Some?)
  {
    var es := WelcomeRun(c, b, member, d).effects;
    var prefix := [InfoLogged(JoinLogLine(member)), ChannelRequested(c.generalChannelName, member.guild)];
    assert prefix == [prefix[0]] + [prefix[1]];
    CallsAppend([prefix[0]], [prefix[1]], Delivery);
    CallsAppend([prefix[0]], [prefix[1]], Reaction);
    CallsAppend([prefix[0]], [prefix[1]], ErrorLog);
    if (c.generalChannelName, member.guild) in b.channels {
      assert es == prefix + [es[2]];
      CallsAppend(prefix, [es[2]], Delivery);
      CallsAppend(prefix, [es[2]], Reaction);
      CallsAppend(prefix, [es[2]], ErrorLog);
    }
  }

  /** `NewMemberWelcome`: welcomes members through the platform. */
  class NewMemberWelcome {
    const constants: Constants
    const platform: ChatPlatform

    constructor (constants: Constants, platform: ChatPlatform)
      ensures this.constants == constants && this.platform == platform
    {
      this.constants := constants;
      this.platform := platform;
    }

    /**
     * `welcomeNewMember(member)`, with `d` the values the random utility
     * returns. Its calls are appended to the trace in the order `WelcomeRun`
     * gives, and an error the platform raises is returned, not handled.
     */
    method WelcomeNewMember(member: GuildMember, d: Draws) returns (outcome: Outcome)
      requires ValidDraws(member, d)
      modifies platform
      ensures platform.trace == old(platform.trace) + WelcomeRun(constants, platform.behaviour, member, d).effects
      ensures outcome == WelcomeRun(constants, platform.behaviour, member, d).outcome
    {
      platform.LogInfo(JoinLogLine(member));
      var channel := platform.GetChannel(constants.generalChannelName, member.guild);
      if channel.Failure? {
        return Fail(channel.error);
      }
      outcome := platform.SendMessages(channel.value, GenerateWelcomeMessages(member, d));
    }
  }
}
