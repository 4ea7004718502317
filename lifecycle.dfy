/**
 * An invariant of every state server.py can reach from its initial globals:
 * the study list is the study-titled part of the directory, and a
 * private-chat handle is only ever held once the account's id is known.
 * Every handler keeps it, and from it follows that `create_private_chat` is
 * never called without a user id.
 */
module Lifecycle {
  import opened Wrappers
  import opened Adapter
  import opened Domain
  import Bootstrap
  import Gateway

  ghost predicate Invariant(st: State) {
    DirectoryConsistent(st) && (st.selfChatId.Some? ==> st.selfUserId.Some?)
  }

  lemma InitialInvariant()
    ensures Invariant(Initial)
  {
  }

  lemma StartupKeepsInvariant(st: State, s: Script)
    requires Invariant(st)
    ensures Invariant(Bootstrap.Startup(st, s).state)
  {
    Bootstrap.StartupKeepsDirectoryConsistent(st, s);
  }

  lemma ShutdownKeepsInvariant(st: State, s: Script)
    requires Invariant(st)
    ensures Invariant(Bootstrap.Shutdown(st, s).state)
  {
  }

  /** The read handlers leave the globals as they are. */
  lemma ReadsKeepState(cfg: Config, key: Option<string>, chatId: int, limit: int, st: State, s: Script)
    ensures Gateway.GetMeInfo(cfg, key, st, s).state == st
    ensures Gateway.ListStudyChats(cfg, key, st, s).state == st
    ensures Gateway.GetMessages(cfg, key, chatId, limit, st, s).state == st
  {
  }

  /** The TDLib delivery keeps the invariant, and any re-creation uses the stored user id. */
  lemma DeliverKeepsInvariant(st: State, s: Script, text: string)
    requires Invariant(st) && st.selfChatId.Some?
    ensures var e := Gateway.Deliver(st, s, text);
      Invariant(e.state) &&
      forall c :: c in e.calls && c.CreatePrivateChat? ==> c.userId == st.selfUserId && c.userId.Some?
  {
  }

  /**
   * `/send` keeps the invariant, and every `create_private_chat` it makes
   * is given the stored user id, which is then known.
   */
  lemma SendKeepsInvariant(cfg: Config, key: Option<string>, body: map<string, Gateway.Json>, relayOk: bool,
                           st: State, s: Script)
    requires Invariant(st)
    ensures var e := Gateway.SendToMaria(cfg, key, body, relayOk, st, s);
      Invariant(e.state) &&
      forall c :: c in e.calls && c.CreatePrivateChat? ==> c.userId == st.selfUserId && c.userId.Some?
  {
    var e := Gateway.SendToMaria(cfg, key, body, relayOk, st, s);
    if Gateway.Authorized(key, cfg.apiKey) && Gateway.CheckSendBody(body).Ok? && st.started &&
       !Gateway.BotConfigured(cfg) {
      var text := Gateway.CheckSendBody(body).body;
      if st.selfChatId.Some? {
        DeliverKeepsInvariant(st, s, text);
      } else if st.selfUserId.Some? && Next(s.create).Returned? {
        var st1 := st.(selfChatId := Some(Next(s.create).value));
        var d := Gateway.Deliver(st1, s.(create := Rest(s.create)), text);
        DeliverKeepsInvariant(st1, s.(create := Rest(s.create)), text);
        assert e == Effect(d.out, d.state, d.script, [CreatePrivateChat(st.selfUserId)] + d.calls);
      }
    }
  }
}
