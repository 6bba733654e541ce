/**
 * The chat platform the core talks to: the logger and the message utilities
 * (channel lookup, message delivery, reactions). Platform objects are reduced
 * to the fields the core reads, and every call the core makes is recorded, in
 * order, in an effect trace.
 */
module Platform {

  datatype Option<T> = None | Some(value: T)

  /** An error raised by the platform. */
  datatype Error =
    | ChannelNotFound(name: string)
    | PlatformError(message: string)

  /** The result of a call that returns a value or raises an error. */
  datatype Result<T> = Success(value: T) | Failure(error: Error)

  /** The result of a call that returns nothing or raises an error. */
  datatype Outcome = Pass | Fail(error: Error)

  datatype GuildRef = GuildRef(id: string)

  /** A guild member as a mention target (the bot's own member is `guild.members.me`). */
  datatype MemberRef = MemberRef(id: string)

  datatype Channel = Channel(id: string)

  /** A member who joined a guild; `mention` is what `${member}` renders to. */
  datatype GuildMember = GuildMember(id: string, displayName: string, guild: GuildRef, mention: string)

  datatype MentionOptions = MentionOptions(ignoreRoles: bool, ignoreEveryone: bool)

  /** `mentions.has(target, options)`, given by the queries it answers with true. */
  datatype MessageMentions = MessageMentions(matches: set<(MemberRef, MentionOptions)>) {
    predicate Has(target: MemberRef, options: MentionOptions) {
      (target, options) in matches
    }
  }

  /**
   * An incoming message, reduced to `id`, `author.id`, `content`, `mentions`,
   * `guild.members.me` and `client.user.id`.
   */
  datatype Message = Message(
    id: string,
    authorId: string,
    content: string,
    mentions: MessageMentions,
    guildMe: MemberRef,
    clientUserId: string)

  /** The structured fields of the error log written when a reaction fails. */
  datatype LogFields = LogFields(messageId: string, authorId: string)

  /** One call the core made into the platform. */
  datatype Effect =
    | InfoLogged(line: string)
    | ErrorLogged(text: string, error: Error, fields: LogFields)
    | ChannelRequested(name: string, guild: GuildRef)
    | MessagesSent(channel: Channel, texts: seq<string>)
    | ReactionRequested(message: Message)
  {
    function KindOf(): Kind {
      match this
      case InfoLogged(_) => InfoLog
      case ErrorLogged(_, _, _) => ErrorLog
      case ChannelRequested(_, _) => ChannelLookup
      case MessagesSent(_, _) => Delivery
      case ReactionRequested(_) => Reaction
    }
  }

  datatype Kind = InfoLog | ErrorLog | ChannelLookup | Delivery | Reaction

  /** The calls of one kind in a trace, in order. */
  function Calls(es: seq<Effect>, kind: Kind): (r: seq<Effect>)
    ensures |r| <= |es|
    ensures forall e :: e in r ==> e in es && e.KindOf() == kind
  {
    if es == [] then []
    else (if es[0].KindOf() == kind then [es[0]] else []) + Calls(es[1..], kind)
  }

  lemma {:induction false} CallsAppend(a: seq<Effect>, b: seq<Effect>, kind: Kind)
    ensures Calls(a + b, kind) == Calls(a, kind) + Calls(b, kind)
  {
    if a == [] {
      assert a + b == b;
    } else {
      assert (a + b)[1..] == a[1..] + b;
      CallsAppend(a[1..], b, kind);
    }
  }

  lemma CallsSingle(e: Effect, kind: Kind)
    ensures Calls([e], kind) == if e.KindOf() == kind then [e] else []
  {
    assert [e][1..] == [];
  }

  /**
   * How the platform answers: which channel each (name, guild) lookup finds,
   * and whether delivery and reactions raise an error.
   */
  datatype Behaviour = Behaviour(
    channels: map<(string, GuildRef), Channel>,
    sendError: Option<Error>,
    reactionError: Option<Error>)

  function LookupChannel(b: Behaviour, name: string, guild: GuildRef): (r: Result<Channel>)
    ensures r.Success? <==> (name, guild) in b.channels
    ensures r.Success? ==> r.value == b.channels[(name, guild)]
    ensures r.Failure? ==> r.error == ChannelNotFound(name)
  {
    if (name, guild) in b.channels then Success(b.channels[(name, guild)])
    else Failure(ChannelNotFound(name))
  }

  function Answer(error: Option<Error>): (r: Outcome)
    ensures r.Pass? <==> error.None?
    ensures r.Fail? ==> error == Some(r.error)
  {
    match error
    case None => Pass
    case Some(e) => Fail(e)
  }

  /** The logger and the message utilities, with the trace of calls made to them. */
  class ChatPlatform {
    var trace: seq<Effect>
    const behaviour: Behaviour

    constructor (behaviour: Behaviour)
      ensures this.behaviour == behaviour && trace == []
    {
      this.behaviour := behaviour;
      trace := [];
    }

    /** `logger.info(line)` */
    method LogInfo(line: string)
      modifies this
      ensures trace == old(trace) + [InfoLogged(line)]
    {
      trace := trace + [InfoLogged(line)];
    }

    /** `logger.error(text, error, fields)` */
    method LogError(text: string, error: Error, fields: LogFields)
      modifies this
      ensures trace == old(trace) + [ErrorLogged(text, error, fields)]
    {
      trace := trace + [ErrorLogged(text, error, fields)];
    }

    /** `messageUtils.getChannel(name, guild)`: finds the channel or raises an error. */
    method GetChannel(name: string, guild: GuildRef) returns (r: Result<Channel>)
      modifies this
      ensures trace == old(trace) + [ChannelRequested(name, guild)]
      ensures r == LookupChannel(behaviour, name, guild)
    {
      trace := trace + [ChannelRequested(name, guild)];
      r := LookupChannel(behaviour, name, guild);
    }

    /** `messageUtils.sendMessages(channel, texts)`: sends the texts in order. */
    method SendMessages(channel: Channel, texts: seq<string>) returns (r: Outcome)
      modifies this
      ensures trace == old(trace) + [MessagesSent(channel, texts)]
      ensures r == Answer(behaviour.sendError)
    {
      trace := trace + [MessagesSent(channel, texts)];
      r := Answer(behaviour.sendError);
    }

    /** `messageUtils.addReaction(message)`: the call is made whether or not it then fails. */
    method AddReaction(message: Message) returns (r: Outcome)
      modifies this
      ensures trace == old(trace) + [ReactionRequested(message)]
      ensures r == Answer(behaviour.reactionError)
    {
      trace := trace + [ReactionRequested(message)];
      r := Answer(behaviour.reactionError);
    }
  }
}
