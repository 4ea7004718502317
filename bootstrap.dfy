/**
 * `startup` and `shutdown` of server.py as functions of the globals and the
 * client's replies: connect, fetch the account with up to ten attempts,
 * create the private self-chat when the account is known, then rebuild the
 * chat directory.
 */
module Bootstrap {
  import opened Wrappers
  import opened Adapter
  import opened Directory
  import opened Domain

  /** Attempts `startup` makes at `get_me`. */
  const MeAttempts: nat := 10

  /** The `limit` passed to `get_chats`. */
  const ChatPageSize: int := 200

  /**
   * The `get_me` retry loop over `budget` attempts: the account found, if any,
   * and the number of attempts made. It stops at the first attempt that
   * returns; when none does it makes all `budget` attempts.
   */
  function FetchMe(q: seq<Reply<User>>, budget: nat): (r: (Option<User>, nat))
    ensures r.1 <= budget
    ensures r.0.Some? ==> 1 <= r.1 && Nth(q, r.1 - 1) == Returned(r.0.value)
    ensures r.0.Some? ==> forall i :: 0 <= i < r.1 - 1 ==> Nth(q, i).Raised?
    ensures r.0.None? ==> r.1 == budget && forall i :: 0 <= i < budget ==> Nth(q, i).Raised?
  {
    if budget == 0 then (None, 0)
    else
      match Next(q)
      case Returned(u) => (Some(u), 1)
      case Raised =>
        var r := FetchMe(Rest(q), budget - 1);
        assert Nth(q, 0).Raised?;
        assert forall i :: 1 <= i ==> Nth(q, i) == Nth(Rest(q), i - 1);
        (r.0, r.1 + 1)
  }

  /** Steps 1 and 2 of `startup`: who am I, then the private chat with myself. */
  function Identify(st: State, s: Script): (e: Effect<()>)
    ensures e.state == st.(selfUserId := e.state.selfUserId, selfChatId := e.state.selfChatId)
    ensures e.state.selfChatId != st.selfChatId ==> e.state.selfUserId.Some?
    ensures 1 <= |e.calls| <= MeAttempts + 1
  {
    var (me, n) := FetchMe(s.me, MeAttempts);
    var s1 := s.(me := Drop(s.me, n));
    var calls := seq(n, _ => Call.GetMe);
    match me
    case None => Effect((), st, s1, calls)
    case Some(u) =>
      var st1 := st.(selfUserId := Some(u.id));
      var s2 := s1.(create := Rest(s1.create));
      var calls1 := calls + [CreatePrivateChat(Some(u.id))];
      match Next(s1.create)
      case Returned(chatId) => Effect((), st1.(selfChatId := Some(chatId)), s2, calls1)
      case Raised => Effect((), st1, s2, calls1)
  }

  /**
   * Step 3 of `startup`: list the chats, fetch each one, and replace both
   * directory lists; if the listing itself raises, the lists stay as they were.
   */
  function Preload(st: State, s: Script): (e: Effect<()>)
    ensures e.state == st.(allChats := e.state.allChats, studyChats := e.state.studyChats)
    ensures e.state == st || e.state.studyChats == StudyFilter(e.state.allChats)
    ensures e.calls != [] && e.calls[0] == GetChats(ChatPageSize)
  {
    var s1 := s.(chats := Rest(s.chats));
    match Next(s.chats)
    case Raised => Effect((), st, s1, [GetChats(ChatPageSize)])
    case Returned(ids) =>
      var all := AllChats(Take(s1.chat, |ids|));
      Effect((), st.(allChats := all, studyChats := StudyFilter(all)),
             s1.(chat := Drop(s1.chat, |ids|)), [GetChats(ChatPageSize)] + GetChatCalls(ids))
  }

  /** Steps 1 to 3 of `startup`, run once connected. */
  function Load(st: State, s: Script): (e: Effect<()>)
    ensures e.state.started == st.started
  {
    var id := Identify(st, s);
    var dir := Preload(id.state, id.script);
    Effect((), dir.state, dir.script, id.calls + dir.calls)
  }

  /**
   * `startup`. The answer is `false` when connecting raised (the exception
   * leaves `startup`), `true` when it ran to the end or had nothing to do.
   */
  function Startup(st: State, s: Script): (e: Effect<bool>)
    ensures e.out <==> e.state.started
    ensures !st.started ==> e.calls != [] && e.calls[0] == Call.Connect
  {
    if st.started then Effect(true, st, s, [])
    else
      var s1 := s.(connect := Rest(s.connect));
      if !Succeeds(s.connect) then Effect(false, st, s1, [Call.Connect])
      else
        var e := Load(st.(started := true), s1);
        Effect(true, e.state, e.script, [Call.Connect] + e.calls)
  }

  /** `shutdown`: close the client if started (a failure to close is swallowed), then mark stopped. */
  function Shutdown(st: State, s: Script): (e: Effect<()>)
    ensures e.state == st.(started := false)
    ensures |e.calls| <= 1
  {
    if st.started then Effect((), st.(started := false), s.(close := Rest(s.close)), [Call.Close])
    else Effect((), st, s, [])
  }

  lemma TallyConst(n: nat, c: Call, p: Call -> bool)
    ensures Tally(seq(n, _ => c), p) == if p(c) then n else 0
  {
    if n > 0 {
      assert seq(n, _ => c)[..n - 1] == seq(n - 1, _ => c);
      TallyConst(n - 1, c, p);
    }
  }

  lemma TallyGetChatCalls(ids: seq<int>, p: Call -> bool)
    requires forall id :: !p(GetChat(id))
    ensures Tally(GetChatCalls(ids), p) == 0
  {
    if ids != [] {
      assert GetChatCalls(ids)[..|ids| - 1] == GetChatCalls(ids[..|ids| - 1]);
      TallyGetChatCalls(ids[..|ids| - 1], p);
    }
  }

  /** Calls of kinds other than `get_chat` are made a fixed number of times by `Preload`. */
  lemma PreloadTally(st: State, s: Script, p: Call -> bool)
    requires forall id :: !p(GetChat(id))
    ensures Tally(Preload(st, s).calls, p) == if p(GetChats(ChatPageSize)) then 1 else 0
  {
    var tail := if Next(s.chats).Returned? then GetChatCalls(Next(s.chats).value) else [];
    assert Preload(st, s).calls == [GetChats(ChatPageSize)] + tail;
    TallyAppend([GetChats(ChatPageSize)], tail, p);
    assert [GetChats(ChatPageSize)][..0] == [];
    if Next(s.chats).Returned? {
      TallyGetChatCalls(Next(s.chats).value, p);
    }
  }

  /** How many calls of a kind `Identify` makes: the `get_me` attempts, then at most one create. */
  lemma IdentifyTally(st: State, s: Script, p: Call -> bool)
    ensures var (me, n) := FetchMe(s.me, MeAttempts);
      Tally(Identify(st, s).calls, p) ==
        (if p(Call.GetMe) then n else 0) +
        (if me.Some? && p(CreatePrivateChat(Some(me.value.id))) then 1 else 0)
  {
    var (me, n) := FetchMe(s.me, MeAttempts);
    TallyConst(n, Call.GetMe, p);
    if me.Some? {
      TallyAppend(seq(n, _ => Call.GetMe), [CreatePrivateChat(Some(me.value.id))], p);
      assert [CreatePrivateChat(Some(me.value.id))][..0] == [];
    }
  }

  /** A startup that connects makes the connect call, the `Identify` calls, then the listing. */
  lemma StartupTally(st: State, s: Script, p: Call -> bool)
    requires !st.started && Succeeds(s.connect)
    requires forall id :: !p(GetChat(id))
    ensures var id := Identify(st.(started := true), s.(connect := Rest(s.connect)));
      Tally(Startup(st, s).calls, p) ==
        (if p(Call.Connect) then 1 else 0) + Tally(id.calls, p) + (if p(GetChats(ChatPageSize)) then 1 else 0)
    ensures GetChats(ChatPageSize) in Startup(st, s).calls
  {
    var id := Identify(st.(started := true), s.(connect := Rest(s.connect)));
    var dir := Preload(id.state, id.script);
    PreloadTally(id.state, id.script, p);
    TallyAppend(id.calls, dir.calls, p);
    TallyAppend([Call.Connect], id.calls + dir.calls, p);
    assert [Call.Connect][..0] == [];
    assert Startup(st, s).calls == [Call.Connect] + (id.calls + dir.calls);
    assert dir.calls[0] == GetChats(ChatPageSize);
    assert Startup(st, s).calls[1 + |id.calls|] == GetChats(ChatPageSize);
  }

  /**
   * Running `startup` again after it completed changes nothing and calls
   * nothing: no second connection and no second enumeration.
   */
  lemma StartupIdempotent(st: State, s: Script)
    ensures var e := Startup(st, s);
      e.out ==> e.state.started && Startup(e.state, e.script) == Effect(true, e.state, e.script, [])
    ensures st.started ==> Startup(st, s) == Effect(true, st, s, [])
    ensures !st.started && Succeeds(s.connect) ==> Startup(st, s).state.started
    ensures !st.started && !Succeeds(s.connect) ==> Startup(st, s).state == st
  {
  }

  /**
   * `get_me` is attempted at most ten times and stops at the first attempt
   * that returns: every earlier attempt raised, and the run ends either on a
   * returning attempt or after the tenth.
   */
  lemma GetMeAttempts(st: State, s: Script)
    requires !st.started && Succeeds(s.connect)
    ensures var n := Tally(Startup(st, s).calls, IsGetMe);
      1 <= n <= MeAttempts &&
      (forall i :: 0 <= i < n - 1 ==> Nth(s.me, i).Raised?) &&
      (Nth(s.me, n - 1).Returned? || n == MeAttempts)
  {
    StartupTally(st, s, IsGetMe);
    IdentifyTally(st.(started := true), s.(connect := Rest(s.connect)), IsGetMe);
  }

  /**
   * When all ten `get_me` attempts raise, `SELF_USER_ID` and
   * `SELF_PRIVATE_CHAT_ID` keep their values and `create_private_chat` is
   * never called; the chats are still listed.
   */
  lemma IdentityUnavailable(st: State, s: Script)
    requires !st.started && Succeeds(s.connect)
    requires forall i :: 0 <= i < MeAttempts ==> Nth(s.me, i).Raised?
    ensures var e := Startup(st, s);
      e.state.selfUserId == st.selfUserId && e.state.selfChatId == st.selfChatId &&
      Tally(e.calls, IsCreate) == 0 &&
      GetChats(ChatPageSize) in e.calls
  {
    assert FetchMe(s.me, MeAttempts).0.None?;
    StartupTally(st, s, IsCreate);
    IdentifyTally(st.(started := true), s.(connect := Rest(s.connect)), IsCreate);
  }

  /**
   * When some `get_me` attempt returns the account `u`: `SELF_USER_ID`
   * becomes `u.id`, `create_private_chat(u.id)` is called exactly once, a
   * failure of that call leaves `SELF_PRIVATE_CHAT_ID` as it was, and the
   * chats are listed either way.
   */
  lemma IdentityFound(st: State, s: Script, u: User, n: nat)
    requires !st.started && Succeeds(s.connect)
    requires 0 < n <= MeAttempts && Nth(s.me, n - 1) == Returned(u)
    requires forall i :: 0 <= i < n - 1 ==> Nth(s.me, i).Raised?
    ensures var e := Startup(st, s);
      e.state.selfUserId == Some(u.id) &&
      Tally(e.calls, IsCreate) == 1 &&
      CreatePrivateChat(Some(u.id)) in e.calls &&
      (Next(s.create).Raised? ==> e.state.selfChatId == st.selfChatId) &&
      (Next(s.create).Returned? ==> e.state.selfChatId == Some(Next(s.create).value)) &&
      GetChats(ChatPageSize) in e.calls
  {
    var s1 := s.(connect := Rest(s.connect));
    var id := Identify(st.(started := true), s1);
    assert FetchMe(s.me, MeAttempts) == (Some(u), n);
    StartupTally(st, s, IsCreate);
    IdentifyTally(st.(started := true), s1, IsCreate);
    assert id.calls[n] == CreatePrivateChat(Some(u.id));
    assert Startup(st, s).calls[1 + n] == CreatePrivateChat(Some(u.id));
  }

  /**
   * The directory is replaced whole: after a listing that returned, both
   * lists are rebuilt from the `get_chat` replies alone, the study list is
   * the study-titled part of the new directory, and one `get_chat` call is
   * made per listed id, in order; after a listing that raised, both lists
   * stay as they were.
   */
  lemma DirectoryRebuilt(st: State, s: Script)
    requires !st.started && Succeeds(s.connect)
    ensures var e := Startup(st, s);
      var id := Identify(st.(started := true), s.(connect := Rest(s.connect)));
      match Next(id.script.chats)
      case Returned(ids) =>
        e.state.allChats == AllChats(Take(id.script.chat, |ids|)) &&
        e.state.studyChats == StudyFilter(e.state.allChats) &&
        e.calls[|e.calls| - |ids|..] == GetChatCalls(ids)
      case Raised =>
        e.state.allChats == st.allChats && e.state.studyChats == st.studyChats
  {
  }

  /** Startup keeps the study list equal to the study-titled part of the directory. */
  lemma StartupKeepsDirectoryConsistent(st: State, s: Script)
    requires DirectoryConsistent(st)
    ensures DirectoryConsistent(Startup(st, s).state)
  {
  }

  /**
   * `shutdown` is safe to repeat and safe before any `startup`: it closes
   * the client only when started, and a second call does nothing.
   */
  lemma ShutdownIdempotent(st: State, s: Script)
    ensures var e := Shutdown(st, s);
      !e.state.started &&
      e.calls == (if st.started then [Call.Close] else []) &&
      Shutdown(e.state, e.script) == Effect((), e.state, e.script, [])
  {
  }

  /** After `shutdown`, `startup` connects again. */
  lemma RestartAfterShutdown(st: State, s: Script, s2: Script)
    ensures var down := Shutdown(st, s);
      Startup(down.state, s2).calls[..1] == [Call.Connect]
  {
  }
}
