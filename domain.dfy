/**
 * The state server.py keeps in module globals, its configuration, and the
 * shape of one handler run: what it answers, the state and client replies it
 * leaves behind, and the client calls it made, in order.
 */
module Domain {
  import opened Wrappers
  import opened Adapter
  import opened Directory

  /** `AGENT_API_KEY`, `TELEGRAM_BOT_TOKEN` and `TELEGRAM_TARGET_CHAT_ID`. */
  datatype Config = Config(apiKey: string, botToken: string, targetChatId: string)

  /**
   * `CLIENT_STARTED`, `SELF_USER_ID`, `SELF_PRIVATE_CHAT_ID`, `ALL_CHATS`
   * and `STUDY_CHATS`.
   */
  datatype State = State(
    started: bool,
    selfUserId: Option<int>,
    selfChatId: Option<int>,
    allChats: seq<ChatEntry>,
    studyChats: seq<ChatEntry>)

  /** The globals when the module is first loaded. */
  const Initial: State := State(false, None, None, [], [])

  /** One run of a handler or of a startup step. */
  datatype Effect<+T> = Effect(out: T, state: State, script: Script, calls: seq<Call>)

  /** An HTTP answer: a body, or an error status. */
  datatype Response<+T> = Ok(body: T) | Err(status: int)

  const BadRequest := 400
  const Unauthorized := 401
  const Forbidden := 403
  const InternalError := 500
  const NotReady := 503

  /** The study list is exactly the study-titled part of the directory. */
  ghost predicate DirectoryConsistent(st: State) {
    st.studyChats == StudyFilter(st.allChats)
  }
}
