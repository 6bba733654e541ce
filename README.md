# Welcome bot core, modelled in Dafny

This model covers the two pieces of logic in a Discord community bot (CyBert).

- **Welcoming a new member** (`NewMemberWelcome`). Four fixed phrase lists give a
  three-message welcome:
  1. a greeting that mentions the member, a robot noise, a welcome statement and an
     awkward comment, joined by single spaces;
  2. an introduction request;
  3. a second robot noise.

  `welcomeNewMember` logs the join, looks up the general channel in the member's guild and
  sends the three messages there.
- **Reacting to a message** (`MessageHandler.handleEvent`). The handler reacts when two things hold:
  - the message is not the bot's own;
  - the message is robot-themed, or it mentions the bot's own guild member directly (roles and
    @everyone ignored).

  If adding the reaction fails, the handler writes one error log with the message's id and
  author id, and the error goes no further. The handler's own source is not part of this
  model. Its behaviour follows what its test suite asserts.

Files:

- `strings.dfy` (`Strings`): substring containment.
- `platform.dfy` (`Platform`): the platform objects, reduced to the fields the core reads. It
  also has the effect trace and the `ChatPlatform` class, which stands for the logger and the
  message utilities. Each call made to it is appended to `trace`. How the platform answers
  is a `Behaviour` value:
  - the channel each name/guild lookup finds;
  - whether sending messages raises an error;
  - whether adding a reaction raises an error.
- `dialog.dfy` (`Dialog`): `chooseRandomMessage`, with its random draw passed in as an index.
- `welcome.dfy` (`Welcome`): the phrase lists, the composition, the logged line, the handler
  as a specification function (`WelcomeRun`) and as an imperative method
  (`NewMemberWelcome.WelcomeNewMember`), and the lemmas about them.
- `message_handler.dfy` (`MessageHandling`): the decision `ShouldReact`, the calls one event
  makes (`ReactionEffects`) and over a run of events (`Session`), the lemmas, and the
  imperative `MessageHandler.HandleEvent` and `MessageHandler.HandleEvents` (one event after another).
- `message_handler_tests.dfy` (`MessageHandlerTests`): the suite's scenarios. Each one builds
  a fresh platform and handler, runs `HandleEvent`, and states what the platform was asked to do.

How the unseen parts are modelled:

- Randomness is a parameter. A `Draws` value holds the index `chooseRandomMessage` picks in
  each list and the values the two `makeRobotNoise` calls return. These are arbitrary strings,
  and the two need not be equal.
- The member's `${member}` rendering is an abstract `mention` string.
- The robot-theme test is a parameter `isRobotThemed: string -> bool`. The scenarios
  constrain it only by the suite's two examples: "This message mentions a robot." is themed
  and "This is just an ordinary message." is not.
- `mentions.has(target, options)` is given as the set of queries it answers with true.
- A thrown error becomes a `Result` or `Outcome` value:
  - In the welcome path, the error is returned to the caller unhandled, which stands for
    propagation.
  - In the reaction path, it is matched on and logged.

## Model

| member | source | states |
|---|---|---|
| `Welcome.Greetings` | src/actions/new-member-welcome.ts:33-38 | the four greetings, in order, each built around the member's mention ("Hello m.", "Oh! It is m!", "m, how are you?", "Greetings, m!"). There are exactly four of them |
| `Welcome.WelcomeLine` | src/actions/new-member-welcome.ts:59-61 | the first welcome message is the greeting, the noise, the welcome statement and the awkward comment joined by single spaces; each of the four parts occurs in it |
| `Welcome.JoinLogLine` | src/actions/new-member-welcome.ts:20-21 | the join log line, `message="New member joined server. Sending welcome message.", memberName="<displayName>", memberId="<id>"`. It opens with the fixed message field |
| `Welcome.WelcomeRun` | src/actions/new-member-welcome.ts:19-24 | the calls `welcomeNewMember` makes and its outcome: the info log, then the general-channel lookup, then the delivery only when the lookup succeeded. It makes two or three calls, the first is the join log, and a run that passes ends with a delivery |
| `MessageHandling.ShouldReact` | test/handlers/message-handler.test.ts:43-113 | the reaction decision: the message is not the bot's own, and it is themed or mentions the bot's member directly with both ignore options. A bot message never gets a reaction. A themed or directly mentioning message from anyone else always does |
| `MessageHandling.ReactionEffects` | test/handlers/message-handler.test.ts:43-136 | the calls `handleEvent` makes for one message. There are none exactly when the decision says no. Otherwise the first is the reaction request with that message. There is a second call, the error log, exactly when the reaction fails. There are never more than two |
| `MessageHandling.Session` | test/handlers/message-handler.test.ts:99-113 | one event's calls after another's, for a sequence of messages. Only reaction requests and error logs occur, at most two per message |
| `Platform.LookupChannel` | src/actions/new-member-welcome.ts:22 | the channel lookup succeeds exactly when the platform knows a channel of that name in that guild, and returns that channel; otherwise it fails with a not-found error |
| `Platform.ChatPlatform.constructor` | test/handlers/message-handler.test.ts:13-17 | a fresh platform has an empty trace and answers as the given behaviour |
| `Platform.ChatPlatform.LogInfo` | src/actions/new-member-welcome.ts:20-21 | `logger.info` appends exactly one info entry with the line to the trace |
| `Platform.ChatPlatform.LogError` | test/handlers/message-handler.test.ts:132-135 | `logger.error` appends exactly one error entry with the text, the error and the fields |
| `Platform.ChatPlatform.GetChannel` | src/actions/new-member-welcome.ts:22 | `getChannel` records one lookup of that name in that guild and returns the lookup's result |
| `Platform.ChatPlatform.SendMessages` | src/actions/new-member-welcome.ts:23 | `sendMessages` records one delivery of exactly those texts to that channel, in order, and returns the platform's delivery outcome |
| `Platform.ChatPlatform.AddReaction` | test/handlers/message-handler.test.ts:56 | `addReaction` records one request with the message, whether or not it then fails, and returns the platform's reaction outcome |
| `Dialog.ChooseRandomMessage` | src/actions/new-member-welcome.ts:59-62 | the chosen message is an element of the list it was chosen from |
| `Dialog.EveryOptionCanBeChosen` | src/actions/new-member-welcome.ts:59-62 | every element of the list is the result of some draw |
| `Welcome.PhraseListsHaveFourEntries` | src/actions/new-member-welcome.ts:33-56 | each of the four phrase lists has four entries, so none is empty |
| `Welcome.EveryGreetingMentionsMember` | src/actions/new-member-welcome.ts:33-38 | every greeting contains the member's mention |
| `Welcome.DrawsAreAlwaysPossible` | src/actions/new-member-welcome.ts:58-64 | for any two noises there is a draw within every list's bounds, so every `chooseRandomMessage` call can meet its precondition |
| `Welcome.GenerateWelcomeMessages` | src/actions/new-member-welcome.ts:58-64 | the welcome is exactly three messages |
| `Welcome.GeneratedIsWelcome` | src/actions/new-member-welcome.ts:58-64 | every composition has the welcome shape. The first message is greeting + " " + first noise + " " + welcome statement + " " + awkward comment, each phrase from its own list. The second is an introduction request. The third is the second noise |
| `Welcome.EveryWelcomeIsGenerated` | src/actions/new-member-welcome.ts:58-64 | conversely, every three messages of that shape are what some draw composes |
| `Welcome.FirstMessageMentionsMember` | src/actions/new-member-welcome.ts:33-61 | the first welcome message contains the member's mention |
| `Welcome.JoinLogLineNamesMember` | src/actions/new-member-welcome.ts:20-21 | the join log line contains the member's display name and the member's id |
| `Welcome.WelcomeLogsJoinFirst` | src/actions/new-member-welcome.ts:20-21 | the handler's first call is the one informational log, and its line contains the member's display name and id |
| `Welcome.WelcomeLooksUpGeneralChannel` | src/actions/new-member-welcome.ts:22 | the second call looks up the configured general channel name in the member's guild, and the handler makes no other lookup |
| `Welcome.WelcomeSendsComposedMessages` | src/actions/new-member-welcome.ts:22-23 | the handler sends only when the lookup found a channel. Then it makes exactly one delivery, of the composed three messages, to that channel, as its third and last call. It never reacts and never logs an error. The run fails exactly when the lookup or the delivery failed |
| `Welcome.NewMemberWelcome.constructor` | src/actions/new-member-welcome.ts:11-12 | the welcomer keeps the constants and the platform it is given |
| `Welcome.NewMemberWelcome.WelcomeNewMember` | src/actions/new-member-welcome.ts:19-24 | `welcomeNewMember` appends exactly `WelcomeRun`'s calls to the trace, in that order, and returns the run's outcome. A failed lookup or delivery is returned to the caller, not handled |
| `MessageHandling.ReactsOnceIffShouldReact` | test/handlers/message-handler.test.ts:43-113 | one event requests exactly one reaction, with that message, when the author is not the bot and the content is themed or the bot is directly mentioned. Otherwise it requests none |
| `MessageHandling.LogsOnceIffReactionFails` | test/handlers/message-handler.test.ts:115-136 | exactly one error log is written when a wanted reaction fails, with "Unable to add reaction to message.", the error and `{messageId, authorId}` from the message. Otherwise none is written |
| `MessageHandling.ReactionTouchesNothingElse` | test/handlers/message-handler.test.ts:15 | handling a message never looks up a channel and never sends messages, since the suite's message utilities offer only `addReaction`. It also never writes an info log, which is a modelling choice |
| `MessageHandling.NeverReactsToOwnMessage` | test/handlers/message-handler.test.ts:83-97 | a message whose author id is the client user's id causes no call at all, whatever its content and mentions |
| `MessageHandling.OnlyTheDirectMentionQueryCounts` | test/handlers/message-handler.test.ts:59-81 | for a message that is not the bot's and not themed, the handler reacts exactly when the mention query with the bot's own member and both ignore options answers true |
| `MessageHandling.SessionReactsToMatchingMessages` | test/handlers/message-handler.test.ts:99-113 | the handler keeps no state between events. Over a sequence of events it requests reactions for exactly the messages that warrant one, in order |
| `MessageHandling.MessageHandler.HandleEvents` | test/handlers/message-handler.test.ts:99-113 | the source has no such loop. The member calls `HandleEvent` on each message in turn, with the same handler, and appends exactly the `Session` of those messages to the trace. So `SessionReactsToMatchingMessages` holds of the handler itself. The suite checks each call on a fresh handler, and this member states the statelessness that implies |
| `MessageHandling.SameOrdinaryMessageTwice` | test/handlers/message-handler.test.ts:99-113 | handling the same non-matching message twice requests no reaction |
| `MessageHandling.MessageHandler.constructor` | test/handlers/message-handler.test.ts:16 | the handler keeps the platform and theme test it is given |
| `MessageHandling.MessageHandler.HandleEvent` | test/handlers/message-handler.test.ts:43-136 | `handleEvent` appends exactly `ReactionEffects`'s calls to the trace. It has no error result, because a failed reaction is logged and handling completes normally |
| `MessageHandlerTests.HandleOnFreshPlatform` | test/handlers/message-handler.test.ts:13-17 | running the handler once on a fresh platform yields exactly the event's calls |
| `MessageHandlerTests.ReactsToRobotThemedMessage` | test/handlers/message-handler.test.ts:43-57 | a robot-themed message from another user gets exactly one reaction, with that message |
| `MessageHandlerTests.ReactsToDirectMention` | test/handlers/message-handler.test.ts:59-81 | a message from another user with content "Message." that mentions the bot directly gets exactly one reaction, with that message |
| `MessageHandlerTests.IgnoresOwnMessage` | test/handlers/message-handler.test.ts:83-97 | the bot's own robot-themed message gets no reaction, whatever it mentions |
| `MessageHandlerTests.IgnoresOrdinaryMessage` | test/handlers/message-handler.test.ts:99-113 | an ordinary message with no mention of the bot gets no reaction |
| `MessageHandlerTests.IgnoresOtherMentionQueries` | test/handlers/message-handler.test.ts:60-66 | mentions of the bot under other options, and mentions of other members, get no reaction |
| `MessageHandlerTests.LogsFailedReaction` | test/handlers/message-handler.test.ts:115-136 | when `addReaction` raises `Error('errorMessage')`, exactly one error log is written, with the fixed text, that error and `{messageId: "messageId", authorId: "notCybertUserId"}` |
| `MessageHandlerTests.IgnoresOrdinaryMessageTwice` | test/handlers/message-handler.test.ts:99-113 | one handler handling the same ordinary message twice requests no reaction on either call |

## Left out

- The discord.js objects (Client, Guild, GuildMember, Message, MessageMentions) are reduced to
  the fields the core reads. Their other behaviour is not modelled.
- The bodies of `MessageUtils.getChannel`, `sendMessages` and `addReaction` are network I/O
  and are not part of this model. Their calls are recorded in the trace. Their answers come
  from the `Behaviour` value: a channel directory, and an optional error for delivery and
  for reactions.
- A platform's `Behaviour` is fixed for its lifetime. On one platform, either every
  `addReaction` fails or every one succeeds. So `HandleEvents` and `Session` cannot represent
  a platform that fails some reactions and not others.
- `Welcome.WelcomeSendsComposedMessages` relies on the modelling choice that `getChannel` raises
  an error when no channel has the name. The source calls `sendMessages` on whatever `getChannel`
  returns. A lookup that returns nothing, followed by a `sendMessages` call, is not modelled.
- The logger's formatting and transport are left out. Only the entry (line, or text, error
  and fields) is recorded.
- The bodies of `DialogUtils.chooseRandomMessage` and `makeRobotNoise` are not modelled.
  - Randomness is an explicit draw of indices, so no uniformity is claimed.
  - `makeRobotNoise` returns arbitrary strings, so no fixed noise is claimed.
- `src/handlers/message-handler.ts` is not part of this model, so the robot-theme test stays a
  parameter limited by the suite's two examples. The suite classifies only its two example
  contents, so no keyword or case rule is asserted.
- The handler is modelled as logging only when a reaction fails. Any other logging the
  handler may do (the suite's logger also accepts `debug`, `info` and `warn` calls) is not
  modelled.
- `MessageHandling.MessageHandler.HandleEvent` assumes the message has a guild and a bot member
  in it (`guild.members.me`), as every test message does. A message without a guild (a direct
  message) is not modelled.
- Event subscription, process configuration (the `Constants` object beyond the general
  channel name), and the Jasmine spy machinery are left out.
