/**
 * The four endpoints of server.py as functions of the globals and the
 * client's replies: the API key check, the readiness gate, the study-chat
 * allow-list for reads, the strict body check for sends and the bounded
 * recovery of the send path.
 */
module Gateway {
  import opened Wrappers
  import opened Adapter
  import opened Classifier
  import opened Directory
  import opened Domain

  /** The most messages `/messages` asks the client for. */
  const MaxHistory: int := 100

  /** The longest text `/send` accepts. */
  const MaxText: int := 1500

  /** `check_api_key`: the header passes only when present and exactly equal to the key. */
  predicate Authorized(header: Option<string>, apiKey: string) {
    header == Some(apiKey)
  }

  // ---------------------------------------------------------------- /me

  datatype MeInfo = MeInfo(
    id: int,
    firstName: string,
    lastName: string,
    phoneEndsWith: Option<string>,
    selfPrivateChatId: Option<int>)

  /**
   * `me.phone_number[-4:] if me.phone_number else None`: no number gives
   * `None`; otherwise the last four characters, or the whole number when it
   * is shorter.
   */
  function PhoneEndsWith(phone: string): (r: Option<string>)
    ensures r.None? <==> phone == ""
    ensures r.Some? ==> |r.value| == (if |phone| < 4 then |phone| else 4)
    ensures r.Some? ==> phone[|phone| - |r.value|..] == r.value
  {
    if phone == "" then None
    else if |phone| <= 4 then Some(phone)
    else Some(phone[|phone| - 4..])
  }

  /** `get_me_info`: a raising `get_me` is not caught, so the framework answers 500. */
  function GetMeInfo(cfg: Config, key: Option<string>, st: State, s: Script): (e: Effect<Response<MeInfo>>)
    ensures e.state == st
    ensures e.out.Ok? ==> Authorized(key, cfg.apiKey) && st.started && e.calls == [Call.GetMe]
    ensures Authorized(key, cfg.apiKey) && !st.started ==> e.out == Err(NotReady) && e.calls == []
    ensures Authorized(key, cfg.apiKey) && st.started && Next(s.me).Raised? ==> e.out == Err(InternalError)
    ensures Authorized(key, cfg.apiKey) && st.started && Next(s.me).Returned? ==>
      var u := Next(s.me).value;
      e.out == Ok(MeInfo(u.id, u.firstName, u.lastName, PhoneEndsWith(u.phoneNumber), st.selfChatId))
  {
    if !Authorized(key, cfg.apiKey) then Effect(Err(Unauthorized), st, s, [])
    else if !st.started then Effect(Err(NotReady), st, s, [])
    else
      var s1 := s.(me := Rest(s.me));
      match Next(s.me)
      case Raised => Effect(Err(InternalError), st, s1, [Call.GetMe])
      case Returned(u) =>
        Effect(Ok(MeInfo(u.id, u.firstName, u.lastName, PhoneEndsWith(u.phoneNumber), st.selfChatId)),
               st, s1, [Call.GetMe])
  }

  // ---------------------------------------------------------------- /chats

  datatype ChatList = ChatList(chats: seq<ChatEntry>)

  /** `list_study_chats`: the study list of the last startup, with no client call. */
  function ListStudyChats(cfg: Config, key: Option<string>, st: State, s: Script): (e: Effect<Response<ChatList>>)
    ensures e.state == st && e.script == s && e.calls == []
    ensures e.out.Ok? <==> Authorized(key, cfg.apiKey) && st.started
    ensures Authorized(key, cfg.apiKey) && !st.started ==> e.out == Err(NotReady)
  {
    if !Authorized(key, cfg.apiKey) then Effect(Err(Unauthorized), st, s, [])
    else if !st.started then Effect(Err(NotReady), st, s, [])
    else Effect(Ok(ChatList(st.studyChats)), st, s, [])
  }

  // ---------------------------------------------------------------- /messages

  /**
   * The `/messages` answer: the texts read and their count, or, when the
   * history fetch raised, an empty list with an error.
   */
  datatype Messages =
    | Page(chatId: int, messages: seq<string>, count: int)
    | Degraded(chatId: int, messages: seq<string>)

  /** `chat_id in {c["id"] for c in STUDY_CHATS}`. */
  predicate Allowed(studyChats: seq<ChatEntry>, chatId: int) {
    exists c :: c in studyChats && c.id == chatId
  }

  /** `min(a, b)`. */
  function Min(a: int, b: int): (m: int)
    ensures m <= a && m <= b && (m == a || m == b)
  {
    if a <= b then a else b
  }

  /** The text of each text-bearing message of a history, in history order. */
  function TextBodies(history: seq<Message>): (texts: seq<string>)
    ensures |texts| <= |history|
  {
    if history == [] then []
    else
      TextBodies(history[..|history| - 1]) +
      match history[|history| - 1].content
      case TextContent(t) => [t]
      case OtherContent => []
  }

  /**
   * `get_messages`: the allow-list is checked on every call; `open_chat` is
   * best effort; the history is asked for with the limit clamped to 100; a
   * raising history fetch degrades to an empty answer.
   */
  function GetMessages(cfg: Config, key: Option<string>, chatId: int, limit: int, st: State, s: Script)
    : (e: Effect<Response<Messages>>)
    ensures e.state == st
    ensures e.out.Ok? <==> Authorized(key, cfg.apiKey) && st.started && Allowed(st.studyChats, chatId)
    ensures e.out.Ok? ==> e.out.body.chatId == chatId
    ensures e.out.Ok? && e.out.body.Page? ==> e.out.body.count == |e.out.body.messages|
    ensures Authorized(key, cfg.apiKey) && !st.started ==> e.out == Err(NotReady) && e.calls == []
  {
    if !Authorized(key, cfg.apiKey) then Effect(Err(Unauthorized), st, s, [])
    else if !st.started then Effect(Err(NotReady), st, s, [])
    else if !Allowed(st.studyChats, chatId) then Effect(Err(Forbidden), st, s, [])
    else
      var s1 := s.(open := Rest(s.open));
      var s2 := s1.(history := Rest(s1.history));
      var calls := [OpenChat(chatId), GetChatHistory(chatId, Min(limit, MaxHistory))];
      match Next(s1.history)
      case Raised => Effect(Ok(Degraded(chatId, [])), st, s2, calls)
      case Returned(history) =>
        var texts := TextBodies(history);
        Effect(Ok(Page(chatId, texts, |texts|)), st, s2, calls)
  }

  // ---------------------------------------------------------------- /send

  /** A JSON scalar as it may appear as a value of the `/send` body. */
  datatype Json = JNull | JBool(b: bool) | JInt(n: int) | JFloat(x: real) | JString(s: string)

  /** Python truthiness of a JSON scalar. */
  predicate Truthy(v: Json) {
    match v
    case JNull => false
    case JBool(b) => b
    case JInt(n) => n != 0
    case JFloat(x) => x != 0.0
    case JString(t) => t != ""
  }

  /**
   * The body checks of `send_to_maria`, in order: no key but `text`, a
   * truthy `text`, at most 1500 characters. `len` of a number (integer or
   * float) or a boolean raises, which the framework answers with 500.
   */
  function CheckSendBody(body: map<string, Json>): (r: Response<string>)
    ensures r.Ok? ==> body == map["text" := JString(r.body)] && 0 < |r.body| <= MaxText
    ensures r.Err? ==>
      (r.status == BadRequest ||
       (r.status == InternalError && body.Keys == {"text"} && Truthy(body["text"]) && !body["text"].JString?))
    ensures body.Keys == {"text"} && Truthy(body["text"]) && !body["text"].JString? ==> r == Err(InternalError)
  {
    if body.Keys - {"text"} != {} then Err(BadRequest)
    else if "text" !in body || !Truthy(body["text"]) then Err(BadRequest)
    else
      match body["text"]
      case JString(t) =>
        if |t| > MaxText then Err(BadRequest)
        else
          assert body.Keys == {"text"};
          assert body == map["text" := JString(t)];
          Ok(t)
      case _ => Err(InternalError)
  }

  /** How a `/send` was delivered. */
  datatype Via = Bot | Tdlib

  datatype Sent = Sent(via: Via, chatId: Option<int>)

  /** `TELEGRAM_BOT_TOKEN and TELEGRAM_TARGET_CHAT_ID`. */
  predicate BotConfigured(cfg: Config) {
    cfg.botToken != "" && cfg.targetChatId != ""
  }

  /**
   * The TDLib delivery once the handle is set: send to the handle; if that
   * raises, recreate the private chat once and send once more.
   */
  function Deliver(st: State, s: Script, text: string): (e: Effect<Response<Sent>>)
    requires st.selfChatId.Some?
    ensures e.state == st.(selfChatId := e.state.selfChatId) && e.state.selfChatId.Some?
    ensures 1 <= |e.calls| <= 3 && e.calls[0] == SendMessage(st.selfChatId.value, text)
    ensures Succeeds(s.send) ==>
      e.out == Ok(Sent(Tdlib, st.selfChatId)) && e.state == st && e.calls == [SendMessage(st.selfChatId.value, text)]
  {
    var first := SendMessage(st.selfChatId.value, text);
    var s1 := s.(send := Rest(s.send));
    if Succeeds(s.send) then Effect(Ok(Sent(Tdlib, st.selfChatId)), st, s1, [first])
    else
      var s2 := s1.(create := Rest(s1.create));
      var recreate := CreatePrivateChat(st.selfUserId);
      match Next(s1.create)
      case Raised => Effect(Err(InternalError), st, s2, [first, recreate])
      case Returned(chatId) =>
        var st1 := st.(selfChatId := Some(chatId));
        var s3 := s2.(send := Rest(s2.send));
        var calls := [first, recreate, SendMessage(chatId, text)];
        if Succeeds(s2.send) then Effect(Ok(Sent(Tdlib, Some(chatId))), st1, s3, calls)
        else Effect(Err(InternalError), st1, s3, calls)
  }

  /**
   * `send_to_maria`. `relayOk` is the outcome of the bot relay's HTTP post,
   * used only when a bot token and target are configured. A raising lazy
   * `create_private_chat` is not caught, so the framework answers 500.
   */
  function SendToMaria(cfg: Config, key: Option<string>, body: map<string, Json>, relayOk: bool,
                       st: State, s: Script): (e: Effect<Response<Sent>>)
    ensures e.out.Ok? ==> Authorized(key, cfg.apiKey) && CheckSendBody(body).Ok? && st.started
    ensures e.state == st.(selfChatId := e.state.selfChatId)
    ensures e.calls != [] ==> !BotConfigured(cfg)
  {
    if !Authorized(key, cfg.apiKey) then Effect(Err(Unauthorized), st, s, [])
    else
      match CheckSendBody(body)
      case Err(status) => Effect(Err(status), st, s, [])
      case Ok(text) =>
        if !st.started then Effect(Err(NotReady), st, s, [])
        else if BotConfigured(cfg) then
          Effect(if relayOk then Ok(Sent(Bot, None)) else Err(InternalError), st, s, [])
        else if st.selfChatId.Some? then Deliver(st, s, text)
        else if st.selfUserId.None? then Effect(Err(InternalError), st, s, [])
        else
          var create := CreatePrivateChat(st.selfUserId);
          var s1 := s.(create := Rest(s.create));
          match Next(s.create)
          case Raised => Effect(Err(InternalError), st, s1, [create])
          case Returned(chatId) =>
            var d := Deliver(st.(selfChatId := Some(chatId)), s1, text);
            Effect(d.out, d.state, d.script, [create] + d.calls)
  }

  // ---------------------------------------------------------------- properties

  /**
   * Every endpoint answers 401 to a missing or wrong key before anything
   * else, without a client call and without a change of state.
   */
  lemma KeyCheckedFirst(cfg: Config, key: Option<string>, chatId: int, limit: int,
                        body: map<string, Json>, relayOk: bool, st: State, s: Script)
    requires !Authorized(key, cfg.apiKey)
    ensures GetMeInfo(cfg, key, st, s) == Effect(Err(Unauthorized), st, s, [])
    ensures ListStudyChats(cfg, key, st, s) == Effect(Err(Unauthorized), st, s, [])
    ensures GetMessages(cfg, key, chatId, limit, st, s) == Effect(Err(Unauthorized), st, s, [])
    ensures SendToMaria(cfg, key, body, relayOk, st, s) == Effect(Err(Unauthorized), st, s, [])
  {
  }

  /**
   * `/me` changes no state, shows the current private-chat handle and, of
   * the phone number, at most its last four characters.
   */
  lemma MeInfoMasksPhone(cfg: Config, key: Option<string>, st: State, s: Script)
    ensures var e := GetMeInfo(cfg, key, st, s);
      e.state == st &&
      (Authorized(key, cfg.apiKey) && st.started ==> (e.out.Ok? <==> Next(s.me).Returned?)) &&
      (e.out.Ok? ==>
        var phone := Next(s.me).value.phoneNumber;
        e.out.body.selfPrivateChatId == st.selfChatId &&
        (e.out.body.phoneEndsWith.Some? ==>
          |e.out.body.phoneEndsWith.value| <= 4 &&
          phone[|phone| - |e.out.body.phoneEndsWith.value|..] == e.out.body.phoneEndsWith.value))
  {
  }

  /** `/chats` answers with the study list of the last startup and makes no client call. */
  lemma ChatListIsSnapshot(cfg: Config, key: Option<string>, st: State, s: Script)
    ensures var e := ListStudyChats(cfg, key, st, s);
      e.state == st && e.script == s && e.calls == [] &&
      (e.out.Ok? <==> Authorized(key, cfg.apiKey) && st.started) &&
      (e.out.Ok? ==> e.out.body.chats == st.studyChats)
  {
  }

  /**
   * The read boundary: a key-holding caller of a started server is refused
   * with 403 exactly when the chat is not the id of a study-list entry,
   * whatever the full directory holds; reads are never answered with 500,
   * and a refused read makes no client call.
   */
  lemma ReadAllowList(cfg: Config, key: Option<string>, chatId: int, limit: int, st: State, s: Script)
    ensures var e := GetMessages(cfg, key, chatId, limit, st, s);
      e.state == st &&
      (Authorized(key, cfg.apiKey) && st.started ==>
        (e.out == Err(Forbidden) <==> !Allowed(st.studyChats, chatId))) &&
      (e.out.Ok? <==> Authorized(key, cfg.apiKey) && st.started && Allowed(st.studyChats, chatId)) &&
      (e.out.Err? ==> e.calls == [] && e.script == s) &&
      e.out != Err(InternalError)
  {
  }

  /**
   * A chat that is in the directory but is not a study chat cannot be read,
   * when the study list is the study-titled part of the directory and the
   * chat's id labels no study entry.
   */
  lemma ReadRefusesNonStudyChat(cfg: Config, key: Option<string>, c: ChatEntry, limit: int, st: State, s: Script)
    requires Authorized(key, cfg.apiKey) && st.started
    requires DirectoryConsistent(st) && c in st.allChats
    requires forall d :: d in st.allChats && d.id == c.id ==> !IsStudyChat(d.title)
    ensures GetMessages(cfg, key, c.id, limit, st, s).out == Err(Forbidden)
  {
    if Allowed(st.studyChats, c.id) {
      var d :| d in st.studyChats && d.id == c.id;
      StudyMembership(st.allChats, d);
      assert false;
    }
  }

  lemma {:induction false} TextBodiesAppend(a: seq<Message>, b: seq<Message>)
    ensures TextBodies(a + b) == TextBodies(a) + TextBodies(b)
    decreases |b|
  {
    if b == [] {
      assert a + b == a;
    } else {
      assert (a + b)[..|a + b| - 1] == a + b[..|b| - 1];
      TextBodiesAppend(a, b[..|b| - 1]);
    }
  }

  /**
   * The texts kept from a history: never more than its messages, and a
   * string is kept exactly when some message of the history is a text
   * message with that text.
   */
  lemma {:induction false} TextBodiesSpec(history: seq<Message>, t: string)
    ensures |TextBodies(history)| <= |history|
    ensures t in TextBodies(history) <==>
      exists j :: 0 <= j < |history| && history[j].content == TextContent(t)
  {
    if history != [] {
      var init := history[..|history| - 1];
      TextBodiesSpec(init, t);
      if exists j :: 0 <= j < |init| && init[j].content == TextContent(t) {
        var j :| 0 <= j < |init| && init[j].content == TextContent(t);
        assert history[j] == init[j];
      }
      if exists j :: 0 <= j < |history| && history[j].content == TextContent(t) {
        var j :| 0 <= j < |history| && history[j].content == TextContent(t);
        if j < |init| {
          assert init[j] == history[j];
        }
      }
    }
  }

  /**
   * An allowed read asks for `min(limit, 100)` messages, after the
   * best-effort `open_chat`; the answer's count is the number of texts
   * returned; a raising history fetch answers an empty list; and when the
   * client honours the limit, no more than `min(limit, 100)` texts come back.
   */
  lemma ReadClampsAndFilters(cfg: Config, key: Option<string>, chatId: int, limit: int, st: State, s: Script)
    requires Authorized(key, cfg.apiKey) && st.started && Allowed(st.studyChats, chatId)
    ensures var e := GetMessages(cfg, key, chatId, limit, st, s);
      e.calls == [OpenChat(chatId), GetChatHistory(chatId, Min(limit, MaxHistory))] &&
      (Next(s.history).Raised? ==> e.out == Ok(Degraded(chatId, []))) &&
      (Next(s.history).Returned? ==>
        e.out.Ok? && e.out.body.Page? && e.out.body.chatId == chatId &&
        e.out.body.count == |e.out.body.messages| &&
        e.out.body.messages == TextBodies(Next(s.history).value) &&
        (|Next(s.history).value| <= Min(limit, MaxHistory) ==> e.out.body.count <= Min(limit, MaxHistory)))
  {
    if Next(s.history).Returned? {
      TextBodiesSpec(Next(s.history).value, "");
    }
  }

  /** A history of five messages, two of them without text, gives a count of three. */
  lemma ReadCountExample()
    ensures var h := [Message(TextContent("a")), Message(OtherContent), Message(TextContent("b")),
                      Message(OtherContent), Message(TextContent("c"))];
      TextBodies(h) == ["a", "b", "c"] && |TextBodies(h)| == 3
  {
    var h := [Message(TextContent("a")), Message(OtherContent), Message(TextContent("b")),
              Message(OtherContent), Message(TextContent("c"))];
    assert h[..1][..0] == [];
    assert TextBodies(h[..1]) == ["a"];
    assert h[..2][..1] == h[..1];
    assert TextBodies(h[..2]) == ["a"];
    assert h[..3][..2] == h[..2];
    assert TextBodies(h[..3]) == ["a", "b"];
    assert h[..4][..3] == h[..3];
    assert TextBodies(h[..4]) == ["a", "b"];
    assert h[..4] == h[..|h| - 1];
  }

  /**
   * A body is accepted exactly when it is `{"text": t}` for a string `t`
   * of 1 to 1500 characters.
   */
  lemma CheckSendBodyAccepts(t: string)
    ensures CheckSendBody(map["text" := JString(t)]).Ok? <==> 0 < |t| <= MaxText
    ensures 0 < |t| <= MaxText ==> CheckSendBody(map["text" := JString(t)]) == Ok(t)
  {
    var body := map["text" := JString(t)];
    assert body.Keys - {"text"} == {};
  }

  /**
   * The documented cases: an extra key and an empty text are 400, 1500
   * characters pass and 1501 do not.
   */
  lemma SendBodyExamples(t1500: string, t1501: string)
    requires |t1500| == 1500 && |t1501| == 1501
    ensures CheckSendBody(map["text" := JString("hi"), "extra" := JInt(1)]) == Err(BadRequest)
    ensures CheckSendBody(map["text" := JString("")]) == Err(BadRequest)
    ensures CheckSendBody(map["text" := JString(t1500)]) == Ok(t1500)
    ensures CheckSendBody(map["text" := JString(t1501)]) == Err(BadRequest)
  {
    var extra := map["text" := JString("hi"), "extra" := JInt(1)];
    assert "extra" in extra.Keys - {"text"};
    CheckSendBodyAccepts(t1500);
    assert map["text" := JString(t1501)].Keys - {"text"} == {};
    assert map["text" := JString("")].Keys - {"text"} == {};
  }

  /**
   * The checks of `/send` run in this order, and each refusal happens before
   * any client call or change of state: 401 for the key, then 400 for a key
   * other than `text`, then 400 for a missing or empty `text`, then 400 for
   * a text over 1500 characters, then 503 when not started.
   */
  lemma SendCheckOrder(cfg: Config, key: Option<string>, body: map<string, Json>, relayOk: bool,
                       st: State, s: Script)
    ensures var e := SendToMaria(cfg, key, body, relayOk, st, s);
      (!Authorized(key, cfg.apiKey) ==> e.out == Err(Unauthorized)) &&
      (Authorized(key, cfg.apiKey) && body.Keys - {"text"} != {} ==> e.out == Err(BadRequest)) &&
      ((Authorized(key, cfg.apiKey) && body.Keys <= {"text"} && ("text" !in body || !Truthy(body["text"])))
        ==> e.out == Err(BadRequest)) &&
      ((Authorized(key, cfg.apiKey) && body.Keys == {"text"} && body["text"].JString? &&
        |body["text"].s| > MaxText) ==> e.out == Err(BadRequest)) &&
      (Authorized(key, cfg.apiKey) && CheckSendBody(body).Ok? && !st.started ==> e.out == Err(NotReady)) &&
      (e.out == Err(Unauthorized) || e.out == Err(BadRequest) || e.out == Err(NotReady) ==>
        e.state == st && e.script == s && e.calls == [])
  {
    if Authorized(key, cfg.apiKey) && body.Keys <= {"text"} && "text" in body && Truthy(body["text"]) {
      assert body.Keys - {"text"} == {};
    }
  }

  /** The chat ids the handle can take during one `/send`: its value and the next two creations. */
  ghost predicate HandleSource(st: State, s: Script, chatId: int) {
    st.selfChatId == Some(chatId) ||
    Next(s.create) == Returned(chatId) ||
    Next(Rest(s.create)) == Returned(chatId)
  }

  lemma TallyCons(c: Call, rest: seq<Call>, p: Call -> bool)
    ensures Tally([c] + rest, p) == (if p(c) then 1 else 0) + Tally(rest, p)
  {
    TallyAppend([c], rest, p);
    assert [c][..0] == [];
  }

  /**
   * One TDLib delivery makes one or three calls: at most two sends and one
   * re-creation; each send carries the text to the handle or to its
   * re-creation; only the handle changes.
   */
  lemma DeliverBounded(st: State, s: Script, text: string)
    requires st.selfChatId.Some?
    ensures var e := Deliver(st, s, text);
      Tally(e.calls, IsSend) <= 2 && Tally(e.calls, IsCreate) <= 1 &&
      (forall c :: c in e.calls && c.SendMessage? ==>
        c.text == text && (st.selfChatId == Some(c.chatId) || Next(s.create) == Returned(c.chatId))) &&
      e.state == st.(selfChatId := e.state.selfChatId) &&
      (e.out.Ok? ==>
        e.out.body.via == Tdlib && e.out.body.chatId == e.state.selfChatId &&
        e.out.body.chatId.Some? && e.calls[|e.calls| - 1] == SendMessage(e.out.body.chatId.value, text))
  {
    var e := Deliver(st, s, text);
    var first := SendMessage(st.selfChatId.value, text);
    TallyCons(first, [], IsSend);
    TallyCons(first, [], IsCreate);
    if !Succeeds(s.send) {
      var recreate := CreatePrivateChat(st.selfUserId);
      TallyCons(recreate, [], IsSend);
      TallyCons(recreate, [], IsCreate);
      TallyCons(first, [recreate], IsSend);
      TallyCons(first, [recreate], IsCreate);
      assert [first] + [recreate] == [first, recreate];
      if Next(s.create).Returned? {
        var again := SendMessage(Next(s.create).value, text);
        TallyCons(again, [], IsSend);
        TallyCons(again, [], IsCreate);
        TallyCons(recreate, [again], IsSend);
        TallyCons(recreate, [again], IsCreate);
        TallyCons(first, [recreate, again], IsSend);
        TallyCons(first, [recreate, again], IsCreate);
        assert [recreate] + [again] == [recreate, again];
        assert [first] + [recreate, again] == [first, recreate, again];
      }
    }
  }

  /**
   * The send path calls `send_message` at most twice and
   * `create_private_chat` at most twice; every message goes, with the
   * body's text, to a chat the handle held or was recreated as, never to a
   * caller-chosen chat; only the handle may change; and a TDLib success
   * reports the handle the last message went to.
   */
  lemma SendBounded(cfg: Config, key: Option<string>, body: map<string, Json>, relayOk: bool,
                    st: State, s: Script)
    ensures var e := SendToMaria(cfg, key, body, relayOk, st, s);
      Tally(e.calls, IsSend) <= 2 && Tally(e.calls, IsCreate) <= 2 &&
      (forall c :: c in e.calls && c.SendMessage? ==>
        CheckSendBody(body) == Ok(c.text) && HandleSource(st, s, c.chatId)) &&
      e.state == st.(selfChatId := e.state.selfChatId) &&
      (e.out.Ok? && e.out.body.via == Tdlib ==>
        e.out.body.chatId == e.state.selfChatId && e.out.body.chatId.Some? &&
        e.calls[|e.calls| - 1] == SendMessage(e.out.body.chatId.value, CheckSendBody(body).body))
  {
    var e := SendToMaria(cfg, key, body, relayOk, st, s);
    if Authorized(key, cfg.apiKey) && CheckSendBody(body).Ok? && st.started && !BotConfigured(cfg) {
      var text := CheckSendBody(body).body;
      if st.selfChatId.Some? {
        DeliverBounded(st, s, text);
      } else if st.selfUserId.Some? {
        var create := CreatePrivateChat(st.selfUserId);
        TallyCons(create, [], IsSend);
        TallyCons(create, [], IsCreate);
        if Next(s.create).Returned? {
          var st1 := st.(selfChatId := Some(Next(s.create).value));
          var s1 := s.(create := Rest(s.create));
          var d := Deliver(st1, s1, text);
          DeliverBounded(st1, s1, text);
          TallyCons(create, d.calls, IsSend);
          TallyCons(create, d.calls, IsCreate);
          assert e == Effect(d.out, d.state, d.script, [create] + d.calls);
        }
      }
    }
  }

  /**
   * With neither a handle nor an identity the send fails with 500 before any
   * client call; with an identity but no handle, the first call is the one
   * creation of the handle from the stored identity.
   */
  lemma SendWithoutHandle(cfg: Config, key: Option<string>, text: string, relayOk: bool,
                          st: State, s: Script)
    requires Authorized(key, cfg.apiKey) && st.started && !BotConfigured(cfg)
    requires 0 < |text| <= MaxText && st.selfChatId.None?
    ensures var e := SendToMaria(cfg, key, map["text" := JString(text)], relayOk, st, s);
      (st.selfUserId.None? ==> e == Effect(Err(InternalError), st, s, [])) &&
      (st.selfUserId.Some? ==>
        e.calls[0] == CreatePrivateChat(st.selfUserId) &&
        (Next(s.create).Raised? ==> e.out == Err(InternalError) && e.state == st && e.calls == [e.calls[0]]) &&
        (Next(s.create).Returned? ==> |e.calls| >= 2 && e.calls[1] == SendMessage(Next(s.create).value, text)))
  {
    CheckSendBodyAccepts(text);
  }

  /**
   * The recovery when a send to the handle raises: exactly one re-creation
   * (from the stored identity) and one more send; 500 if either raises, and
   * a handle that was recreated is kept even when the second send raises.
   */
  lemma SendRecovery(st: State, s: Script, text: string)
    requires st.selfChatId.Some? && !Succeeds(s.send)
    ensures var e := Deliver(st, s, text);
      e.calls[..2] == [SendMessage(st.selfChatId.value, text), CreatePrivateChat(st.selfUserId)] &&
      (Next(s.create).Raised? ==> e.out == Err(InternalError) && e.state == st && |e.calls| == 2) &&
      (Next(s.create).Returned? ==>
        var chatId := Next(s.create).value;
        e.state == st.(selfChatId := Some(chatId)) &&
        e.calls == [SendMessage(st.selfChatId.value, text), CreatePrivateChat(st.selfUserId), SendMessage(chatId, text)] &&
        e.out == if Succeeds(Rest(s.send)) then Ok(Sent(Tdlib, Some(chatId))) else Err(InternalError))
  {
  }

  /**
   * A send that goes through: with a handle held, one `send_message` that
   * returns answers with that handle; with no handle but a known user id, a
   * returning `create_private_chat` followed by a returning `send_message`
   * answers with the new handle, which is kept.
   */
  lemma SendSucceeds(cfg: Config, key: Option<string>, body: map<string, Json>, relayOk: bool,
                     st: State, s: Script)
    requires Authorized(key, cfg.apiKey) && CheckSendBody(body).Ok? && st.started && !BotConfigured(cfg)
    requires Succeeds(s.send)
    ensures var e := SendToMaria(cfg, key, body, relayOk, st, s);
      var text := CheckSendBody(body).body;
      (st.selfChatId.Some? ==>
        e.out == Ok(Sent(Tdlib, st.selfChatId)) && e.state == st &&
        e.calls == [SendMessage(st.selfChatId.value, text)]) &&
      (st.selfChatId.None? && st.selfUserId.Some? && Next(s.create).Returned? ==>
        var chatId := Next(s.create).value;
        e.out == Ok(Sent(Tdlib, Some(chatId))) && e.state == st.(selfChatId := Some(chatId)) &&
        e.calls == [CreatePrivateChat(st.selfUserId), SendMessage(chatId, text)])
  {
    if st.selfChatId.None? && st.selfUserId.Some? && Next(s.create).Returned? {
      var chatId := Next(s.create).value;
      var d := Deliver(st.(selfChatId := Some(chatId)), s.(create := Rest(s.create)), CheckSendBody(body).body);
      assert d.calls == [SendMessage(chatId, CheckSendBody(body).body)];
    }
  }

  /** The bot relay path makes no client call and leaves every global as it was. */
  lemma BotRelayTouchesNothing(cfg: Config, key: Option<string>, text: string, relayOk: bool,
                               st: State, s: Script)
    requires Authorized(key, cfg.apiKey) && st.started && BotConfigured(cfg) && 0 < |text| <= MaxText
    ensures SendToMaria(cfg, key, map["text" := JString(text)], relayOk, st, s)
         == Effect(if relayOk then Ok(Sent(Bot, None)) else Err(InternalError), st, s, [])
  {
    CheckSendBodyAccepts(text);
  }

  /** A log with the text of every `send_message` blanked out. */
  function Redacted(calls: seq<Call>): (r: seq<Call>)
    ensures |r| == |calls|
  {
    seq(|calls|, j requires 0 <= j < |calls| =>
      if calls[j].SendMessage? then SendMessage(calls[j].chatId, "") else calls[j])
  }

  /**
   * The destination never depends on what the caller sends: two accepted
   * bodies give the same answer, the same new state and the same calls but
   * for the text carried.
   */
  lemma SendDestinationIgnoresBody(cfg: Config, key: Option<string>, t1: string, t2: string, relayOk: bool,
                                   st: State, s: Script)
    requires 0 < |t1| <= MaxText && 0 < |t2| <= MaxText
    ensures var e1 := SendToMaria(cfg, key, map["text" := JString(t1)], relayOk, st, s);
      var e2 := SendToMaria(cfg, key, map["text" := JString(t2)], relayOk, st, s);
      e1.out == e2.out && e1.state == e2.state && e1.script == e2.script &&
      Redacted(e1.calls) == Redacted(e2.calls)
  {
    CheckSendBodyAccepts(t1);
    CheckSendBodyAccepts(t2);
    if Authorized(key, cfg.apiKey) && st.started && !BotConfigured(cfg) {
      if st.selfChatId.Some? {
        DeliverIgnoresText(st, s, t1, t2);
      } else if st.selfUserId.Some? && Next(s.create).Returned? {
        var st1 := st.(selfChatId := Some(Next(s.create).value));
        var s1 := s.(create := Rest(s.create));
        DeliverIgnoresText(st1, s1, t1, t2);
        var c := CreatePrivateChat(st.selfUserId);
        assert Redacted([c] + Deliver(st1, s1, t1).calls) == [c] + Redacted(Deliver(st1, s1, t1).calls);
        assert Redacted([c] + Deliver(st1, s1, t2).calls) == [c] + Redacted(Deliver(st1, s1, t2).calls);
      }
    }
  }

  /** The delivery goes to the same chats, with the same outcome, whatever the text. */
  lemma DeliverIgnoresText(st: State, s: Script, t1: string, t2: string)
    requires st.selfChatId.Some?
    ensures var e1 := Deliver(st, s, t1);
      var e2 := Deliver(st, s, t2);
      e1.out == e2.out && e1.state == e2.state && e1.script == e2.script &&
      Redacted(e1.calls) == Redacted(e2.calls)
  {
  }
}
