/**
 * The TDLib client as seen by server.py: an opaque collaborator whose every
 * call either returns a value or raises. The replies are fixed in advance by
 * a `Script` (one queue per kind of call, consumed front to back; a call on
 * an exhausted queue raises), and every call is recorded in a log, so that
 * retry counts, skipped chats and call order can be stated about the log.
 */
module Adapter {
  import opened Wrappers

  /** What one adapter call did: returned a value, or raised an exception. */
  datatype Reply<+T> = Returned(value: T) | Raised

  /** The account as `get_me` reports it. */
  datatype User = User(id: int, firstName: string, lastName: string, phoneNumber: string)

  /**
   * A chat as `get_chat` reports it. `title` is the `title` attribute
   * (`None` when missing or null); `firstName` is the `first_name`
   * attribute (`None` when the object has no such attribute).
   */
  datatype ChatInfo = ChatInfo(id: int, title: Option<string>, firstName: Option<string>)

  /** A message body: a formatted text, or any other kind of content. */
  datatype Content = TextContent(text: string) | OtherContent

  datatype Message = Message(content: Content)

  /** One call made on the client, with the arguments that matter. */
  datatype Call =
    | Connect
    | Close
    | GetMe
    | CreatePrivateChat(userId: Option<int>)
    | GetChats(limit: int)
    | GetChat(chatId: int)
    | OpenChat(chatId: int)
    | GetChatHistory(chatId: int, limit: int)
    | SendMessage(chatId: int, text: string)

  /** The replies the client will give, one queue per kind of call. */
  datatype Script = Script(
    connect: seq<bool>,
    close: seq<bool>,
    me: seq<Reply<User>>,
    create: seq<Reply<int>>,
    chats: seq<Reply<seq<int>>>,
    chat: seq<Reply<ChatInfo>>,
    open: seq<bool>,
    history: seq<Reply<seq<Message>>>,
    send: seq<bool>)

  /** The next reply of a queue; an exhausted queue raises. */
  function Next<T>(q: seq<Reply<T>>): Reply<T> {
    if q == [] then Raised else q[0]
  }

  /** Whether the next call of a success/failure queue succeeds. */
  function Succeeds(q: seq<bool>): bool {
    q != [] && q[0]
  }

  /** A queue after one reply has been consumed. */
  function Rest<T>(q: seq<T>): seq<T> {
    if q == [] then [] else q[1..]
  }

  /** The reply to the `i`-th call (from 0) on a queue. */
  function Nth<T>(q: seq<Reply<T>>, i: nat): Reply<T> {
    if i < |q| then q[i] else Raised
  }

  /** A queue after `n` replies have been consumed. */
  function Drop<T>(q: seq<T>, n: nat): seq<T> {
    if n < |q| then q[n..] else []
  }

  /** The replies to the next `n` calls on a queue. */
  function Take<T>(q: seq<Reply<T>>, n: nat): (r: seq<Reply<T>>)
    ensures |r| == n
  {
    seq(n, i requires 0 <= i < n => Nth(q, i))
  }

  /** Consuming the `n`-th reply: what `Next` and `Rest` see after `Drop`. */
  lemma DropStep<T>(q: seq<Reply<T>>, n: nat)
    ensures Next(Drop(q, n)) == Nth(q, n)
    ensures Rest(Drop(q, n)) == Drop(q, n + 1)
    ensures Take(q, n + 1) == Take(q, n) + [Nth(q, n)]
  {
  }

  /** Kinds of call, for counting them in a log. */
  predicate IsGetMe(c: Call) { c.GetMe? }
  predicate IsCreate(c: Call) { c.CreatePrivateChat? }
  predicate IsSend(c: Call) { c.SendMessage? }

  /** How many calls of a log satisfy `p`. */
  function Tally(calls: seq<Call>, p: Call -> bool): nat {
    if calls == [] then 0 else Tally(calls[..|calls| - 1], p) + (if p(calls[|calls| - 1]) then 1 else 0)
  }

  lemma {:induction false} TallyAppend(a: seq<Call>, b: seq<Call>, p: Call -> bool)
    ensures Tally(a + b, p) == Tally(a, p) + Tally(b, p)
    decreases |b|
  {
    if b != [] {
      assert (a + b)[..|a + b| - 1] == a + b[..|b| - 1];
      TallyAppend(a, b[..|b| - 1], p);
    } else {
      assert a + b == a;
    }
  }

  /** The `get_chat` calls for a list of chat ids, in order. */
  function GetChatCalls(ids: seq<int>): (calls: seq<Call>)
    ensures |calls| == |ids|
    ensures forall j :: 0 <= j < |ids| ==> calls[j] == GetChat(ids[j])
  {
    if ids == [] then [] else GetChatCalls(ids[..|ids| - 1]) + [GetChat(ids[|ids| - 1])]
  }

  /** Logs grow by concatenation, whichever way the pieces are grouped. */
  lemma LogAssoc(a: seq<Call>, b: seq<Call>, c: seq<Call>)
    ensures (a + b) + c == a + (b + c)
  {
  }

  /** One more fetch appends its call. */
  lemma GetChatCallsStep(ids: seq<int>, i: nat)
    requires i < |ids|
    ensures GetChatCalls(ids[..i + 1]) == GetChatCalls(ids[..i]) + [GetChat(ids[i])]
  {
    assert ids[..i + 1][..i] == ids[..i];
  }

  /**
   * The client object. `script` holds the replies still to come and `log`
   * the calls made so far; each method consumes one reply of its own queue,
   * appends one call to the log and changes nothing else.
   */
  class TdClient {
    var script: Script
    var log: seq<Call>

    constructor (script: Script)
      ensures this.script == script && log == []
    {
      this.script := script;
      log := [];
    }

    /** `__aenter__`: connect and authenticate. */
    method Connect() returns (ok: bool)
      modifies this
      ensures ok == Succeeds(old(script.connect))
      ensures script == old(script).(connect := Rest(old(script.connect)))
      ensures log == old(log) + [Call.Connect]
    {
      ok := Succeeds(script.connect);
      script := script.(connect := Rest(script.connect));
      log := log + [Call.Connect];
    }

    /** `__aexit__`: release the connection. */
    method Close() returns (ok: bool)
      modifies this
      ensures ok == Succeeds(old(script.close))
      ensures script == old(script).(close := Rest(old(script.close)))
      ensures log == old(log) + [Call.Close]
    {
      ok := Succeeds(script.close);
      script := script.(close := Rest(script.close));
      log := log + [Call.Close];
    }

    method GetMe() returns (r: Reply<User>)
      modifies this
      ensures r == Next(old(script.me))
      ensures script == old(script).(me := Rest(old(script.me)))
      ensures log == old(log) + [Call.GetMe]
    {
      r := Next(script.me);
      script := script.(me := Rest(script.me));
      log := log + [Call.GetMe];
    }

    /** `create_private_chat(user_id, force=True)`: the id of the private chat. */
    method CreatePrivateChat(userId: Option<int>) returns (r: Reply<int>)
      modifies this
      ensures r == Next(old(script.create))
      ensures script == old(script).(create := Rest(old(script.create)))
      ensures log == old(log) + [Call.CreatePrivateChat(userId)]
    {
      r := Next(script.create);
      script := script.(create := Rest(script.create));
      log := log + [Call.CreatePrivateChat(userId)];
    }

    /** `get_chats(limit)`: the ids of the account's chats. */
    method GetChats(limit: int) returns (r: Reply<seq<int>>)
      modifies this
      ensures r == Next(old(script.chats))
      ensures script == old(script).(chats := Rest(old(script.chats)))
      ensures log == old(log) + [Call.GetChats(limit)]
    {
      r := Next(script.chats);
      script := script.(chats := Rest(script.chats));
      log := log + [Call.GetChats(limit)];
    }

    method GetChat(chatId: int) returns (r: Reply<ChatInfo>)
      modifies this
      ensures r == Next(old(script.chat))
      ensures script == old(script).(chat := Rest(old(script.chat)))
      ensures log == old(log) + [Call.GetChat(chatId)]
    {
      r := Next(script.chat);
      script := script.(chat := Rest(script.chat));
      log := log + [Call.GetChat(chatId)];
    }

    method OpenChat(chatId: int) returns (ok: bool)
      modifies this
      ensures ok == Succeeds(old(script.open))
      ensures script == old(script).(open := Rest(old(script.open)))
      ensures log == old(log) + [Call.OpenChat(chatId)]
    {
      ok := Succeeds(script.open);
      script := script.(open := Rest(script.open));
      log := log + [Call.OpenChat(chatId)];
    }

    /** `get_chat_history(chat_id, from_message_id=0, offset=0, limit)`: newest first. */
    method GetChatHistory(chatId: int, limit: int) returns (r: Reply<seq<Message>>)
      modifies this
      ensures r == Next(old(script.history))
      ensures script == old(script).(history := Rest(old(script.history)))
      ensures log == old(log) + [Call.GetChatHistory(chatId, limit)]
    {
      r := Next(script.history);
      script := script.(history := Rest(script.history));
      log := log + [Call.GetChatHistory(chatId, limit)];
    }

    method SendMessage(chatId: int, text: string) returns (ok: bool)
      modifies this
      ensures ok == Succeeds(old(script.send))
      ensures script == old(script).(send := Rest(old(script.send)))
      ensures log == old(log) + [Call.SendMessage(chatId, text)]
    {
      ok := Succeeds(script.send);
      script := script.(send := Rest(script.send));
      log := log + [Call.SendMessage(chatId, text)];
    }
  }
}
