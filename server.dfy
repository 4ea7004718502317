/**
 * server.py's globals and handlers, imperatively: an `App` object holds the
 * globals and the TDLib client; each handler updates them in place and is
 * proved to do exactly what the matching function of `Bootstrap` or
 * `Gateway` says.
 */
module Server {
  import opened Wrappers
  import opened Adapter
  import opened Classifier
  import opened Directory
  import opened Domain
  import Bootstrap
  import Gateway

  /** The loop of `get_messages` that keeps the text of each text-bearing message. */
  method CollectTexts(history: seq<Message>) returns (messages: seq<string>)
    ensures messages == Gateway.TextBodies(history)
  {
    messages := [];
    var i := 0;
    while i < |history|
      invariant 0 <= i <= |history|
      invariant messages == Gateway.TextBodies(history[..i])
    {
      assert history[..i + 1][..i] == history[..i];
      if history[i].content.TextContent? {
        messages := messages + [history[i].content.text];
      }
      i := i + 1;
    }
    assert history[..i] == history;
  }

  class App {
    const cfg: Config
    const td: TdClient
    var started: bool
    var selfUserId: Option<int>
    var selfChatId: Option<int>
    var allChats: seq<ChatEntry>
    var studyChats: seq<ChatEntry>

    /** The globals as one value. */
    function Globals(): State
      reads this
    {
      State(started, selfUserId, selfChatId, allChats, studyChats)
    }

    /** The module as first loaded: nothing started, nothing known. */
    constructor (cfg: Config, td: TdClient)
      ensures this.cfg == cfg && this.td == td && Globals() == Initial
    {
      this.cfg := cfg;
      this.td := td;
      started := false;
      selfUserId := None;
      selfChatId := None;
      allChats := [];
      studyChats := [];
    }

    /** The `get_me` retry loop of `startup`. */
    method FetchIdentity() returns (me: Option<User>, attempts: nat)
      modifies td
      ensures (me, attempts) == Bootstrap.FetchMe(old(td.script.me), Bootstrap.MeAttempts)
      ensures td.script == old(td.script).(me := Drop(old(td.script.me), attempts))
      ensures td.log == old(td.log) + seq(attempts, _ => Call.GetMe)
    {
      ghost var q := td.script.me;
      me := None;
      attempts := 0;
      while attempts < Bootstrap.MeAttempts && me.None?
        invariant attempts <= Bootstrap.MeAttempts
        invariant me.None? ==> forall i :: 0 <= i < attempts ==> Nth(q, i).Raised?
        invariant me.Some? ==>
          0 < attempts && Nth(q, attempts - 1) == Returned(me.value) &&
          forall i :: 0 <= i < attempts - 1 ==> Nth(q, i).Raised?
        invariant td.script == old(td.script).(me := Drop(q, attempts))
        invariant td.log == old(td.log) + seq(attempts, _ => Call.GetMe)
      {
        DropStep(q, attempts);
        var r := td.GetMe();
        assert seq(attempts + 1, _ => Call.GetMe) == seq(attempts, _ => Call.GetMe) + [Call.GetMe];
        attempts := attempts + 1;
        if r.Returned? {
          me := Some(r.value);
        }
      }
    }

    /** Steps 1 and 2 of `startup`: identity, then the private chat with itself. */
    method Identify()
      modifies this, td
      ensures var e := Bootstrap.Identify(old(Globals()), old(td.script));
        Globals() == e.state && td.script == e.script && td.log == old(td.log) + e.calls
    {
      var me, attempts := FetchIdentity();
      if me.Some? {
        selfUserId := Some(me.value.id);
        var chat := td.CreatePrivateChat(Some(me.value.id));
        if chat.Returned? {
          selfChatId := Some(chat.value);
        }
      }
    }

    /** The enumeration loop of `startup`: fetch each listed chat, skipping those that raise. */
    method LoadChats(ids: seq<int>) returns (all: seq<ChatEntry>, study: seq<ChatEntry>)
      modifies td
      ensures all == AllChats(Take(old(td.script.chat), |ids|)) && study == StudyFilter(all)
      ensures td.script == old(td.script).(chat := Drop(old(td.script.chat), |ids|))
      ensures td.log == old(td.log) + GetChatCalls(ids)
    {
      ghost var q := td.script.chat;
      ghost var fetched: seq<Reply<ChatInfo>> := [];
      all, study := [], [];
      var i := 0;
      while i < |ids|
        invariant 0 <= i <= |ids|
        invariant fetched == Take(q, i)
        invariant all == AllChats(fetched) && study == StudyFilter(all)
        invariant td.script == old(td.script).(chat := Drop(q, i))
        invariant td.log == old(td.log) + GetChatCalls(ids[..i])
      {
        DropStep(q, i);
        GetChatCallsStep(ids, i);
        var r := td.GetChat(ids[i]);
        LogAssoc(old(td.log), GetChatCalls(ids[..i]), [GetChat(ids[i])]);
        EnumerationStep(fetched, r, all, study);
        fetched := fetched + [r];
        if r.Returned? {
          var entry := Entry(r.value);
          all := all + [entry];
          if IsStudyChat(entry.title) {
            study := study + [entry];
          }
        }
        i := i + 1;
      }
      assert ids[..i] == ids;
    }

    /** Step 3 of `startup`: rebuild both directory lists, replacing them whole. */
    method Preload()
      modifies this, td
      ensures var e := Bootstrap.Preload(old(Globals()), old(td.script));
        Globals() == e.state && td.script == e.script && td.log == old(td.log) + e.calls
    {
      var listing := td.GetChats(Bootstrap.ChatPageSize);
      if listing.Returned? {
        var all, study := LoadChats(listing.value);
        allChats := all;
        studyChats := study;
      }
    }

    /** Steps 1 to 3 of `startup`, once connected. */
    method Load()
      modifies this, td
      ensures var e := Bootstrap.Load(old(Globals()), old(td.script));
        Globals() == e.state && td.script == e.script && td.log == old(td.log) + e.calls
    {
      Identify();
      Preload();
    }

    /** The rest of `startup` once connected: mark started, then load. */
    method Boot()
      modifies this, td
      ensures var e := Bootstrap.Load(old(Globals()).(started := true), old(td.script));
        Globals() == e.state && td.script == e.script && td.log == old(td.log) + e.calls
    {
      started := true;
      Load();
    }

    /** `startup`: `ok` is false when connecting raised. */
    method Startup() returns (ok: bool)
      modifies this, td
      ensures var e := Bootstrap.Startup(old(Globals()), old(td.script));
        ok == e.out && Globals() == e.state && td.script == e.script && td.log == old(td.log) + e.calls
    {
      ok := true;
      if !started {
        ok := td.Connect();
        if ok {
          ghost var e := Bootstrap.Load(Globals().(started := true), td.script);
          Boot();
          LogAssoc(old(td.log), [Call.Connect], e.calls);
        }
      }
    }

    /** `shutdown`. */
    method Shutdown()
      modifies this`started, td
      ensures var e := Bootstrap.Shutdown(old(Globals()), old(td.script));
        Globals() == e.state && td.script == e.script && td.log == old(td.log) + e.calls
    {
      if started {
        var closed := td.Close();
      }
      started := false;
    }

    /** `GET /telegram/me`. */
    method GetMeInfo(key: Option<string>) returns (r: Response<Gateway.MeInfo>)
      modifies td
      ensures var e := Gateway.GetMeInfo(cfg, key, old(Globals()), old(td.script));
        r == e.out && Globals() == e.state && td.script == e.script && td.log == old(td.log) + e.calls
    {
      if !Gateway.Authorized(key, cfg.apiKey) {
        return Err(Unauthorized);
      }
      if !started {
        return Err(NotReady);
      }
      var me := td.GetMe();
      if me.Raised? {
        return Err(InternalError);
      }
      var u := me.value;
      r := Ok(Gateway.MeInfo(u.id, u.firstName, u.lastName, Gateway.PhoneEndsWith(u.phoneNumber), selfChatId));
    }

    /** `GET /telegram/chats`. */
    method ListStudyChats(key: Option<string>) returns (r: Response<Gateway.ChatList>)
      ensures r == Gateway.ListStudyChats(cfg, key, Globals(), td.script).out
    {
      if !Gateway.Authorized(key, cfg.apiKey) {
        return Err(Unauthorized);
      }
      if !started {
        return Err(NotReady);
      }
      r := Ok(Gateway.ChatList(studyChats));
    }

    /** `GET /telegram/messages`. */
    method GetMessages(key: Option<string>, chatId: int, limit: int) returns (r: Response<Gateway.Messages>)
      modifies td
      ensures var e := Gateway.GetMessages(cfg, key, chatId, limit, old(Globals()), old(td.script));
        r == e.out && Globals() == e.state && td.script == e.script && td.log == old(td.log) + e.calls
    {
      if !Gateway.Authorized(key, cfg.apiKey) {
        return Err(Unauthorized);
      }
      if !started {
        return Err(NotReady);
      }
      if !Gateway.Allowed(studyChats, chatId) {
        return Err(Forbidden);
      }
      var openOk := td.OpenChat(chatId);
      var history := td.GetChatHistory(chatId, Gateway.Min(limit, Gateway.MaxHistory));
      if history.Raised? {
        return Ok(Gateway.Degraded(chatId, []));
      }
      var messages := CollectTexts(history.value);
      r := Ok(Gateway.Page(chatId, messages, |messages|));
    }

    /** The TDLib delivery of `/send`: send, and on failure re-create the handle once and resend. */
    method Deliver(text: string) returns (r: Response<Gateway.Sent>)
      requires selfChatId.Some?
      modifies td, this`selfChatId
      ensures var e := Gateway.Deliver(old(Globals()), old(td.script), text);
        r == e.out && Globals() == e.state && td.script == e.script && td.log == old(td.log) + e.calls
    {
      var sent := td.SendMessage(selfChatId.value, text);
      if !sent {
        var recreated := td.CreatePrivateChat(selfUserId);
        if recreated.Raised? {
          return Err(InternalError);
        }
        selfChatId := Some(recreated.value);
        var resent := td.SendMessage(selfChatId.value, text);
        if !resent {
          return Err(InternalError);
        }
      }
      r := Ok(Gateway.Sent(Gateway.Tdlib, selfChatId));
    }

    /** `POST /telegram/send`; `relayOk` is the outcome of the bot relay's post. */
    method SendToMaria(key: Option<string>, body: map<string, Gateway.Json>, relayOk: bool)
      returns (r: Response<Gateway.Sent>)
      modifies td, this`selfChatId
      ensures var e := Gateway.SendToMaria(cfg, key, body, relayOk, old(Globals()), old(td.script));
        r == e.out && Globals() == e.state && td.script == e.script && td.log == old(td.log) + e.calls
    {
      if !Gateway.Authorized(key, cfg.apiKey) {
        return Err(Unauthorized);
      }
      var checked := Gateway.CheckSendBody(body);
      if checked.Err? {
        return Err(checked.status);
      }
      var text := checked.body;
      if !started {
        return Err(NotReady);
      }
      if Gateway.BotConfigured(cfg) {
        return if relayOk then Ok(Gateway.Sent(Gateway.Bot, None)) else Err(InternalError);
      }
      if selfChatId.None? {
        if selfUserId.None? {
          return Err(InternalError);
        }
        var created := td.CreatePrivateChat(selfUserId);
        if created.Raised? {
          return Err(InternalError);
        }
        selfChatId := Some(created.value);
        ghost var d := Gateway.Deliver(Globals(), td.script, text);
        r := Deliver(text);
        LogAssoc(old(td.log), [CreatePrivateChat(old(selfUserId))], d.calls);
      } else {
        r := Deliver(text);
      }
    }
  }
}
