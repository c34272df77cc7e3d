/** The chat Pinia store: the messages of all loaded sessions, the session list,
    the current session and sending a message to the first online AI-Core. The AI-Core
    list it reads from the AI-Core store is the parameter `cores`; the client clock
    (`Date.now()` for the new message's id, the ISO time) gives the parameters
    `clientId` and `nowIso`. */
module ChatStore {
  import opened Wrappers
  import opened Seqs
  import opened StoreCommon
  import AiCoreStore

  datatype Role = User | Assistant

  datatype SendStatus = Sending | Sent | Failed

  /** A chat message; `sessionId` is `None` where the field is `undefined`. */
  datatype ChatMessage = ChatMessage(
    id: string, content: string, role: Role, timestamp: string, status: SendStatus, sessionId: Option<string>)

  datatype ChatSession = ChatSession(id: string, name: string)

  /** What the server answers to a sent message. */
  datatype ChatResponse = ChatResponse(messageId: string, response: string, timestamp: string, sessionId: string)

  /** `SendMessageRequest`. */
  datatype SendRequest = SendRequest(message: string, sessionId: Option<string>, aiCoreId: int)

  const NoCoreSelected := "请先选择AI-Core服务"
  const LoadSessionsFailed := "加载会话失败"
  const LoadMessagesFailed := "加载会话消息失败"
  const CreateFailed := "创建会话失败"
  const DeleteFailed := "删除会话失败"
  const SendFailed := "发送消息失败"

  /** `findIndex(msg => msg.id === id)`. */
  function IndexOfMessage(ms: seq<ChatMessage>, id: string): (r: Option<nat>)
    ensures r.Some? ==> r.value < |ms| && ms[r.value].id == id
    ensures r.Some? ==> forall k :: 0 <= k < r.value ==> ms[k].id != id
    ensures r.None? <==> forall k :: 0 <= k < |ms| ==> ms[k].id != id
  {
    if ms == [] then None
    else if ms[0].id == id then Some(0)
    else match IndexOfMessage(ms[1..], id)
      case None => None
      case Some(i) => Some(i + 1)
  }

  /** The messages of one session. */
  function OfSession(ms: seq<ChatMessage>, s: string): (r: seq<ChatMessage>)
    ensures forall k :: 0 <= k < |r| ==> r[k] in ms && r[k].sessionId == Some(s)
    ensures forall k :: 0 <= k < |ms| && ms[k].sessionId == Some(s) ==> ms[k] in r
  {
    Filter(ms, (m: ChatMessage) => m.sessionId == Some(s))
  }

  /** `currentMessages`: `session_id === currentSessionId`. With no current session
      nothing is shown, even messages without a session, since `undefined` is not
      `null`. */
  function CurrentMessages(ms: seq<ChatMessage>, current: Option<string>): (r: seq<ChatMessage>)
    ensures current.None? ==> r == []
    ensures current.Some? ==> r == OfSession(ms, current.value)
  {
    match current
    case None => []
    case Some(s) => OfSession(ms, s)
  }

  /** `currentSession`: none for a null or empty id, else the first session with it. */
  function CurrentSession(sessions: seq<ChatSession>, current: Option<string>): (r: Option<ChatSession>)
    ensures !TruthyStr(current) ==> r.None?
    ensures TruthyStr(current) ==> (r.None? <==> forall k :: 0 <= k < |sessions| ==> sessions[k].id != current.value)
    ensures r.Some? ==> exists i :: 0 <= i < |sessions| && sessions[i] == r.value && Some(r.value.id) == current
                                    && forall k :: 0 <= k < i ==> sessions[k].id != r.value.id
  {
    if !TruthyStr(current) then None
    else match IndexOfId(Keys(sessions, (x: ChatSession) => x.id), current.value)
      case None => None
      case Some(i) => Some(sessions[i])
  }

  /** `selectedAiCore`: the first core whose last check found it online. */
  function SelectedAiCore(cores: seq<AiCoreStore.CoreView>): (r: Option<AiCoreStore.CoreView>)
    ensures r.Some? ==> r.value in cores && r.value.status == Some(Online)
    ensures r.None? ==> forall k :: 0 <= k < |cores| ==> cores[k].status != Some(Online)
  {
    if cores == [] then None
    else if cores[0].status == Some(Online) then Some(cores[0])
    else SelectedAiCore(cores[1..])
  }

  /** The selected core is the head of `availableAiCores`, and exists exactly when
      that list is non-empty. */
  lemma {:induction false} SelectedIsFirstAvailable(cores: seq<AiCoreStore.CoreView>)
    ensures var online := AiCoreStore.OnlineCores(cores);
            SelectedAiCore(cores) == if online == [] then None else Some(online[0])
  {
    if cores != [] {
      SelectedIsFirstAvailable(cores[1..]);
      assert AiCoreStore.OnlineCores(cores)
        == (if cores[0].status == Some(Online) then [cores[0]] else []) + AiCoreStore.OnlineCores(cores[1..]);
    }
  }

  /** After a session's messages are (re)loaded, its view is exactly the loaded
      messages that belong to it: nothing from before survives. */
  lemma ReloadedSessionView(ms: seq<ChatMessage>, loaded: seq<ChatMessage>, s: string)
    ensures OfSession(Filter(ms, (m: ChatMessage) => m.sessionId != Some(s)) + loaded, s) == OfSession(loaded, s)
  {
    var kept := Filter(ms, (m: ChatMessage) => m.sessionId != Some(s));
    FilterAppend(kept, loaded, (m: ChatMessage) => m.sessionId == Some(s));
    FilterExclusive(ms, (m: ChatMessage) => m.sessionId != Some(s), (m: ChatMessage) => m.sessionId == Some(s));
  }

  /** `messages[findIndex(msg => msg.id === id)].status = status`, when found. */
  function MarkFirst(ms: seq<ChatMessage>, id: string, status: SendStatus): (r: seq<ChatMessage>)
    ensures |r| == |ms|
    ensures match IndexOfMessage(ms, id)
      case None => r == ms
      case Some(i) => r[i] == ms[i].(status := status) && forall k :: 0 <= k < |ms| && k != i ==> r[k] == ms[k]
  {
    match IndexOfMessage(ms, id)
    case None => ms
    case Some(i) => ms[i := ms[i].(status := status)]
  }

  /** `session_id: currentSessionId || undefined`. */
  function SessionOrUndefined(current: Option<string>): (r: Option<string>)
    ensures r.Some? <==> TruthyStr(current)
    ensures r.Some? ==> r == current
  {
    if TruthyStr(current) then current else None
  }

  class Store {
    var messages: seq<ChatMessage>
    var sessions: seq<ChatSession>
    var currentSessionId: Option<string>
    var loading: bool
    var error: Option<string>

    constructor ()
      ensures messages == [] && sessions == [] && currentSessionId == None && !loading && error == None
    {
      messages, sessions, currentSessionId, loading, error := [], [], None, false, None;
    }

    /** `loadSessions`. */
    method LoadSessions(call: ApiCall<seq<ChatSession>>)
      modifies this`sessions, this`loading, this`error
      ensures !loading
      ensures call.Resolved? ==> sessions == call.value && error == None
      ensures call.Rejected? ==> sessions == old(sessions) && error == Some(ErrorText(call.thrown, LoadSessionsFailed))
    {
      loading := true;
      error := None;
      match call {
        case Resolved(list) => sessions := list;
        case Rejected(t) => error := Some(ErrorText(t, LoadSessionsFailed));
      }
      loading := false;
    }

    /** `loadSessionMessages`: the session's messages are replaced by the loaded
        ones, appended after the other sessions' messages. */
    method LoadSessionMessages(sessionId: string, call: ApiCall<seq<ChatMessage>>)
      modifies this`messages, this`loading, this`error
      ensures !loading
      ensures call.Resolved? ==>
        && messages == Filter(old(messages), (m: ChatMessage) => m.sessionId != Some(sessionId)) + call.value
        && OfSession(messages, sessionId) == OfSession(call.value, sessionId)
        && error == None
      ensures call.Rejected? ==>
        messages == old(messages) && error == Some(ErrorText(call.thrown, LoadMessagesFailed))
    {
      loading := true;
      error := None;
      match call {
        case Resolved(loaded) =>
          ReloadedSessionView(messages, loaded, sessionId);
          messages := Filter(messages, (m: ChatMessage) => m.sessionId != Some(sessionId));
          messages := messages + loaded;
        case Rejected(t) =>
          error := Some(ErrorText(t, LoadMessagesFailed));
      }
      loading := false;
    }

    /** `createSession`: the new session goes first and becomes current, with an
        empty message list. */
    method CreateSession(call: ApiCall<ChatSession>) returns (r: Result<ChatSession, Thrown>)
      modifies this`sessions, this`currentSessionId, this`messages, this`loading, this`error
      ensures !loading
      ensures call.Resolved? ==>
        && sessions == [call.value] + old(sessions) && currentSessionId == Some(call.value.id)
        && messages == [] && error == None && r == Ok(call.value)
      ensures call.Rejected? ==>
        && sessions == old(sessions) && currentSessionId == old(currentSessionId) && messages == old(messages)
        && error == Some(ErrorText(call.thrown, CreateFailed)) && r == Err(call.thrown)
    {
      loading := true;
      error := None;
      match call {
        case Resolved(session) =>
          sessions := [session] + sessions;
          currentSessionId := Some(session.id);
          messages := [];
          r := Ok(session);
        case Rejected(t) =>
          error := Some(ErrorText(t, CreateFailed));
          r := Err(t);
      }
      loading := false;
    }

    /** `deleteSession`: drops the session; deleting the current one also clears the
        current id and the messages. */
    method DeleteSession(sessionId: string, call: ApiCall<()>) returns (r: Outcome<Thrown>)
      modifies this`sessions, this`currentSessionId, this`messages, this`loading, this`error
      ensures !loading
      ensures call.Resolved? ==>
        && sessions == Filter(old(sessions), (s: ChatSession) => s.id != sessionId)
        && (forall k :: 0 <= k < |sessions| ==> sessions[k].id != sessionId)
        && error == None && r == Pass
      ensures call.Resolved? && old(currentSessionId) == Some(sessionId) ==> currentSessionId == None && messages == []
      ensures call.Resolved? && old(currentSessionId) != Some(sessionId) ==>
        currentSessionId == old(currentSessionId) && messages == old(messages)
      ensures call.Rejected? ==>
        && sessions == old(sessions) && currentSessionId == old(currentSessionId) && messages == old(messages)
        && error == Some(ErrorText(call.thrown, DeleteFailed)) && r == Fail(call.thrown)
    {
      loading := true;
      error := None;
      match call {
        case Resolved(_) =>
          sessions := Filter(sessions, (s: ChatSession) => s.id != sessionId);
          if currentSessionId == Some(sessionId) {
            currentSessionId := None;
            messages := [];
          }
          r := Pass;
        case Rejected(t) =>
          error := Some(ErrorText(t, DeleteFailed));
          r := Fail(t);
      }
      loading := false;
    }

    /** `selectSession`: makes the session current, then loads its messages. */
    method SelectSession(sessionId: string, call: ApiCall<seq<ChatMessage>>)
      modifies this`currentSessionId, this`messages, this`loading, this`error
      ensures currentSessionId == Some(sessionId) && !loading
      ensures call.Resolved? ==>
        && messages == Filter(old(messages), (m: ChatMessage) => m.sessionId != Some(sessionId)) + call.value
        && CurrentMessages(messages, currentSessionId) == OfSession(call.value, sessionId)
        && error == None
      ensures call.Rejected? ==> messages == old(messages) && error == Some(ErrorText(call.thrown, LoadMessagesFailed))
    {
      currentSessionId := Some(sessionId);
      LoadSessionMessages(sessionId, call);
    }

    /** `sendMessage(content)`. Without an online core it throws before changing
        anything. Otherwise the user's message is appended as sending; on success the
        first message with its id becomes sent, the reply is appended and a missing
        current session is taken from the reply; on failure that message becomes
        failed and the error is kept. `request` is what was sent, if anything. */
    method SendMessage(content: string, cores: seq<AiCoreStore.CoreView>, clientId: string, nowIso: string,
                       call: ApiCall<ChatResponse>)
      returns (r: Result<ChatResponse, Thrown>, request: Option<SendRequest>)
      modifies this`messages, this`currentSessionId, this`error
      ensures SelectedAiCore(cores).None? ==>
        && r == Err(ErrorValue(NoCoreSelected)) && request == None
        && messages == old(messages) && currentSessionId == old(currentSessionId) && error == old(error)
      ensures SelectedAiCore(cores).Some? ==>
        request == Some(SendRequest(content, SessionOrUndefined(old(currentSessionId)), SelectedAiCore(cores).value.id))
      ensures SelectedAiCore(cores).Some? ==>
        var user := ChatMessage(clientId, content, User, nowIso, Sending, SessionOrUndefined(old(currentSessionId)));
        var pushed := old(messages) + [user];
        match call
        case Resolved(resp) =>
          && messages == MarkFirst(pushed, clientId, Sent)
             + [ChatMessage(resp.messageId, resp.response, Assistant, resp.timestamp, Sent, Some(resp.sessionId))]
          && currentSessionId == (if TruthyStr(old(currentSessionId)) then old(currentSessionId) else Some(resp.sessionId))
          && error == old(error) && r == Ok(resp)
        case Rejected(t) =>
          && messages == MarkFirst(pushed, clientId, Failed)
          && currentSessionId == old(currentSessionId)
          && error == Some(ErrorText(t, SendFailed)) && r == Err(t)
    {
      var core := SelectedAiCore(cores);
      if core.None? {
        return Err(ErrorValue(NoCoreSelected)), None;
      }
      var session := SessionOrUndefined(currentSessionId);
      var user := ChatMessage(clientId, content, User, nowIso, Sending, session);
      messages := messages + [user];
      request := Some(SendRequest(content, session, core.value.id));
      var found := IndexOfMessage(messages, clientId);
      match call {
        case Resolved(resp) =>
          if found.Some? {
            messages := messages[found.value := messages[found.value].(status := Sent)];
          }
          messages := messages + [ChatMessage(resp.messageId, resp.response, Assistant, resp.timestamp, Sent,
                                              Some(resp.sessionId))];
          if !TruthyStr(currentSessionId) {
            currentSessionId := Some(resp.sessionId);
          }
          r := Ok(resp);
        case Rejected(t) =>
          if found.Some? {
            messages := messages[found.value := messages[found.value].(status := Failed)];
          }
          error := Some(ErrorText(t, SendFailed));
          r := Err(t);
      }
    }

    /** `clearMessages`. */
    method ClearMessages()
      modifies this`messages
      ensures messages == []
    {
      messages := [];
    }
  }

  /** When the client id is new, a successful send leaves the history followed by
      the user's message, now sent, and the reply. */
  lemma FreshIdMarksOwnMessage(history: seq<ChatMessage>, user: ChatMessage, status: SendStatus)
    requires forall k :: 0 <= k < |history| ==> history[k].id != user.id
    ensures MarkFirst(history + [user], user.id, status) == history + [user.(status := status)]
  {
    var pushed := history + [user];
    assert pushed[|history|].id == user.id;
    assert forall k :: 0 <= k < |history| ==> pushed[k].id != user.id;
    assert IndexOfMessage(pushed, user.id) == Some(|history|);
  }

  /** An id already in the history (two sends within one millisecond) marks the
      older message instead: the new message stays `sending`. */
  lemma ReusedIdMarksOlderMessage()
    ensures var older := ChatMessage("1", "a", User, "t", Sent, None);
            var user := ChatMessage("1", "b", User, "t", Sending, None);
            MarkFirst([older, user], "1", Sent) == [older, user]
  {
  }
}
