/**
 * Message bookkeeping for one bot command invocation: a manager tracks the
 * messages that belong to the invocation (the triggering message, the bot's
 * replies and the user's answers to prompts) and later deletes the ones that
 * are not in a private channel.
 *
 * The chat platform is the class `Bot`: its send and delete calls are foreign
 * I/O, so here they only append to ghost logs, and the handles the platform
 * would hand back (the sent message, the user's reply) are method parameters.
 */
module Messages {

  datatype Option<T> = None | Some(value: T)

  /** A chat channel; private channels are direct conversations. */
  datatype Channel = Channel(id: nat, isPrivate: bool)

  /** The user who triggered the invocation; `mention` is the text that pings them. */
  datatype User = User(id: nat, mention: string)

  /** A message handle as the platform returns it. */
  datatype Msg = Msg(id: nat, author: nat, content: string, channel: Channel)

  /** What the bot hands to the platform's send call: plain text or an embed. */
  datatype Payload = Text(text: string) | Embed(card: string)

  /** One send call: the destination channel and the payload. */
  datatype Outgoing = Outgoing(channel: Channel, payload: Payload)

  /** The outcome of a prompt: the `False` that `say_and_wait` returns is `Cancelled` here. */
  datatype Reply = Cancelled | Answered(msg: Msg)

  // ---------------------------------------------------------------------------
  // Text helpers
  // ---------------------------------------------------------------------------

  /** Python's `s.startswith(p)`. */
  predicate StartsWith(s: string, p: string)
  {
    |p| <= |s| && s[..|p|] == p
  }

  /** A reply that begins with the command prefix `!` is a new command. */
  predicate IsCommand(s: string)
    ensures IsCommand(s) <==> |s| > 0 && s[0] == '!'
  {
    StartsWith(s, "!")
  }

  /** The text `"{}: {}".format(mention, content)`. */
  function Prefixed(mention: string, content: string): (r: string)
    ensures |r| == |mention| + 2 + |content|
    ensures StartsWith(r, mention + ": ")
    ensures r[|mention| + 2..] == content
  {
    mention + ": " + content
  }

  /** Inverse of `Prefixed` for a fixed mention: the content, if `s` carries the mention prefix. */
  function StripPrefix(mention: string, s: string): (r: Option<string>)
    ensures r.Some? <==> StartsWith(s, mention + ": ")
    ensures r.Some? ==> Prefixed(mention, r.value) == s
  {
    var head := mention + ": ";
    if StartsWith(s, head) then Some(s[|head|..]) else None
  }

  /** Stripping the mention prefix recovers the content that was sent. */
  lemma PrefixedRoundTrip(mention: string, content: string)
    ensures StripPrefix(mention, Prefixed(mention, content)) == Some(content)
  {
  }

  /** Different contents give different sent texts for the same mention. */
  lemma PrefixedInjective(mention: string, c1: string, c2: string)
    requires Prefixed(mention, c1) == Prefixed(mention, c2)
    ensures c1 == c2
  {
  }

  /**
   * The payload `say` sends: an embed goes out bare, plain text carries the
   * user's mention. The `mention` flag of `say` plays no part.
   */
  function SayPayload(mention: string, content: string, embed: bool): (p: Payload)
    ensures p.Embed? <==> embed
    ensures p.Embed? ==> p.card == content
    ensures p.Text? ==> StripPrefix(mention, p.text) == Some(content)
  {
    if embed then Embed(content)
    else Text(Prefixed(mention, content))
  }

  // ---------------------------------------------------------------------------
  // Deletion
  // ---------------------------------------------------------------------------

  /** Helper used to delete messages: accepts every message. */
  function DeleteAll(message: Msg): (r: bool)
    ensures r
  {
    true
  }

  /** The tracked messages that a clear pass deletes, in list order: those outside private channels. */
  function Deletable(messages: seq<Msg>): (r: seq<Msg>)
    ensures |r| <= |messages|
    ensures forall m :: m in r <==> m in messages && !m.channel.isPrivate
  {
    if messages == [] then []
    else if messages[0].channel.isPrivate then Deletable(messages[1..])
    else [messages[0]] + Deletable(messages[1..])
  }

  /** Deletion keeps list order: the pass over `a + b` deletes `a`'s share, then `b`'s. */
  lemma {:induction false} DeletableAppend(a: seq<Msg>, b: seq<Msg>)
    ensures Deletable(a + b) == Deletable(a) + Deletable(b)
  {
    if a == [] {
      assert a + b == b;
    } else {
      assert (a + b)[1..] == a[1..] + b;
      DeletableAppend(a[1..], b);
    }
  }

  /** A pass deletes each non-private message as often as it is tracked, and no private one. */
  lemma {:induction false} DeletableCount(messages: seq<Msg>, m: Msg)
    ensures multiset(Deletable(messages))[m] == if m.channel.isPrivate then 0 else multiset(messages)[m]
  {
    if messages != [] {
      DeletableCount(messages[1..], m);
      assert messages == [messages[0]] + messages[1..];
    }
  }

  /** A pass deletes nothing exactly when every tracked message is in a private channel. */
  lemma {:induction false} DeletableEmpty(messages: seq<Msg>)
    ensures Deletable(messages) == [] <==> forall i :: 0 <= i < |messages| ==> messages[i].channel.isPrivate
  {
    if messages != [] {
      DeletableEmpty(messages[1..]);
      if !messages[0].channel.isPrivate {
        assert messages[0] in Deletable(messages);
      }
    }
  }

  /** The chat platform: what the bot sent and what it asked to delete. */
  class Bot {
    ghost var sent: seq<Outgoing>
    ghost var deleted: seq<Msg>

    constructor ()
      ensures sent == [] && deleted == []
    {
      sent, deleted := [], [];
    }

    /** Records one send call. */
    method SendMessage(channel: Channel, payload: Payload)
      modifies this
      ensures sent == old(sent) + [Outgoing(channel, payload)]
      ensures deleted == old(deleted)
    {
      sent := sent + [Outgoing(channel, payload)];
    }

    /** Records one delete call. */
    method DeleteMessage(message: Msg)
      modifies this
      ensures deleted == old(deleted) + [message]
      ensures sent == old(sent)
    {
      deleted := deleted + [message];
    }
  }

  /**
   * Deletes, in order, every message of `messages` outside a private channel.
   * `clear_messages` first awaits `asyncio.sleep` for a fixed spam delay, so the
   * delay happens before any delete; a failing delete would abort the pass.
   */
  method ClearMessages(bot: Bot, messages: seq<Msg>)
    modifies bot
    ensures bot.deleted == old(bot.deleted) + Deletable(messages)
    ensures bot.sent == old(bot.sent)
  {
    for i := 0 to |messages|
      invariant bot.deleted == old(bot.deleted) + Deletable(messages[..i])
      invariant bot.sent == old(bot.sent)
    {
      DeletableAppend(messages[..i], [messages[i]]);
      assert messages[..i + 1] == messages[..i] + [messages[i]];
      if !messages[i].channel.isPrivate {
        bot.DeleteMessage(messages[i]);
      }
    }
    assert messages[..|messages|] == messages;
  }

  /** Tracks the messages of one command invocation. */
  class MessageManager {
    const bot: Bot
    const user: User
    const channel: Channel
    var messages: seq<Msg>

    /** A fresh manager tracks exactly the triggering message. */
    constructor (bot: Bot, user: User, channel: Channel, message: Msg)
      ensures this.bot == bot && this.user == user && this.channel == channel
      ensures messages == [message]
    {
      this.bot := bot;
      this.user := user;
      this.channel := channel;
      messages := [message];
    }

    /**
     * Sends a prompt (always tracked) and takes the user's next message in
     * this channel, `reply`. A reply that is a new command runs the clear
     * pass, stays untracked and cancels; any other reply is tracked and
     * returned. `prompt` is the handle the send call returned, a message in
     * this channel; `mention` defaults to true and plays no part.
     */
    method SayAndWait(content: string, prompt: Msg, reply: Msg, mention: bool := true) returns (r: Reply)
      requires prompt.channel == channel
      requires reply.author == user.id && reply.channel == channel
      modifies this, bot
      ensures bot.sent == old(bot.sent) + [Outgoing(channel, Text(Prefixed(user.mention, content)))]
      ensures IsCommand(reply.content) ==>
                r == Cancelled &&
                messages == old(messages) + [prompt] &&
                bot.deleted == old(bot.deleted) + Deletable(old(messages) + [prompt])
      ensures IsCommand(reply.content) && !channel.isPrivate ==> prompt in bot.deleted[|old(bot.deleted)|..]
      ensures !IsCommand(reply.content) ==>
                r == Answered(reply) &&
                messages == old(messages) + [prompt, reply] &&
                bot.deleted == old(bot.deleted)
    {
      bot.SendMessage(channel, Text(Prefixed(user.mention, content)));
      messages := messages + [prompt];
      if IsCommand(reply.content) {
        Clear();
        r := Cancelled;
      } else {
        messages := messages + [reply];
        r := Answered(reply);
      }
    }

    /**
     * Sends one message: an embed bare, plain text after the user's mention.
     * `sent` is the handle the send call returned, a message in this channel;
     * it is tracked only when `delete` holds. The defaults are those of `say`:
     * plain text, tracked; `mention` plays no part.
     */
    method Say(content: string, sent: Msg, embed: bool := false, delete: bool := true, mention: bool := true)
      requires sent.channel == channel
      modifies this, bot
      ensures bot.sent == old(bot.sent) + [Outgoing(channel, SayPayload(user.mention, content, embed))]
      ensures bot.deleted == old(bot.deleted)
      ensures messages == if delete then old(messages) + [sent] else old(messages)
    {
      if embed {
        bot.SendMessage(channel, Embed(content));
      } else {
        bot.SendMessage(channel, Text(Prefixed(user.mention, content)));
      }
      if delete {
        messages := messages + [sent];
      }
    }

    /** Runs the clear pass over the tracked messages; the list itself is kept. */
    method Clear()
      modifies bot
      ensures messages == old(messages)
      ensures bot.deleted == old(bot.deleted) + Deletable(messages)
      ensures bot.sent == old(bot.sent)
    {
      ClearMessages(bot, messages);
    }
  }

  /** Because clearing keeps the list, a second clear issues the same deletions again. */
  method ClearTwice(manager: MessageManager)
    modifies manager.bot
    ensures manager.messages == old(manager.messages)
    ensures manager.bot.deleted ==
              old(manager.bot.deleted) + Deletable(manager.messages) + Deletable(manager.messages)
  {
    manager.Clear();
    manager.Clear();
  }

  /**
   * A plain `say` in a public channel followed by a clear deletes the message
   * just sent.
   */
  method SayThenClear(manager: MessageManager, content: string, sent: Msg)
    requires sent.channel == manager.channel && !manager.channel.isPrivate
    modifies manager, manager.bot
    ensures manager.messages == old(manager.messages) + [sent]
    ensures manager.bot.deleted == old(manager.bot.deleted) + Deletable(manager.messages)
    ensures sent in manager.bot.deleted[|old(manager.bot.deleted)|..]
  {
    manager.Say(content, sent);
    manager.Clear();
  }
}
