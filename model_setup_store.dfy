/** The model-setup Pinia store: the system prompt being edited, the selected
    AI-Core, the send history and its counters. The AI-Core list it reads from the
    AI-Core store is the parameter `cores`; the client clock (the history item's id
    and time, the measured response time) gives parameters. */
module ModelSetupStore {
  import opened Wrappers
  import opened Seqs
  import opened StoreCommon
  import opened Text
  import AiCoreStore

  datatype SendOutcome = Success | Error

  /** `ModelSetupHistory`. */
  datatype HistoryItem = HistoryItem(
    id: string, timestamp: string, aiCoreId: int, aiCoreName: string, systemPrompt: string,
    sessionId: Option<string>, status: SendOutcome, responseTime: Option<int>, errorMessage: Option<string>)

  /** `SystemPromptRequest`. */
  datatype PromptRequest = PromptRequest(aiCoreId: int, systemPrompt: string, sessionId: Option<string>)

  datatype Stats = Stats(sent: nat, success: nat, fail: nat)

  const UnknownService := "未知服务"
  const ItemFailed := "发送失败"
  const SendFailed := "发送系统参数失败"

  /** The number of history items with the given outcome. */
  function Count(h: seq<HistoryItem>, status: SendOutcome): (n: nat)
    ensures n <= |h|
  {
    if h == [] then 0 else (if h[0].status == status then 1 else 0) + Count(h[1..], status)
  }

  /** Every item has one of the two outcomes. */
  lemma {:induction false} CountsCoverHistory(h: seq<HistoryItem>)
    ensures Count(h, Success) + Count(h, Error) == |h|
  {
    if h != [] {
      CountsCoverHistory(h[1..]);
    }
  }

  /** Prepending one item counts it under its own outcome only. */
  lemma CountPrepend(x: HistoryItem, h: seq<HistoryItem>, status: SendOutcome)
    ensures Count([x] + h, status) == (if x.status == status then 1 else 0) + Count(h, status)
  {
    assert ([x] + h)[1..] == h;
  }

  /** `canSend`: a truthy core id, a prompt that is not blank, and not loading. */
  function CanSend(selected: Option<int>, prompt: string, loading: bool): (ok: bool)
    ensures ok <==> TruthyId(selected) && !IsBlank(prompt) && !loading
  {
    TrimEmptyIffBlank(prompt);
    TruthyId(selected) && Trim(prompt) != [] && !loading
  }

  /** `selectedAiCore?.name || '未知服务'`: the selected core's name, unless no core
      is selected, the id is not in the list or the name is empty. */
  function CoreName(cores: seq<AiCoreStore.CoreView>, selected: Option<int>): (name: string)
    ensures name != ""
    ensures TruthyId(selected) && AiCoreStore.FindById(cores, selected.value).Some?
            && AiCoreStore.FindById(cores, selected.value).value.name != ""
            ==> name == AiCoreStore.FindById(cores, selected.value).value.name
    ensures !TruthyId(selected) || selected.value !in AiCoreStore.Ids(cores) ==> name == UnknownService
  {
    if !TruthyId(selected) then UnknownService
    else match AiCoreStore.FindById(cores, selected.value)
      case None => UnknownService
      case Some(core) => if core.name == "" then UnknownService else core.name
  }

  /** The id `loadAiCores` selects after the cores are loaded and checked: the first
      online core's, only when no (truthy) id is selected. */
  function AutoSelected(selected: Option<int>, cores: seq<AiCoreStore.CoreView>): (r: Option<int>)
    ensures TruthyId(selected) ==> r == selected
    ensures !TruthyId(selected) && AiCoreStore.OnlineCores(cores) == [] ==> r == selected
    ensures !TruthyId(selected) && AiCoreStore.OnlineCores(cores) != [] ==>
      r == Some(AiCoreStore.OnlineCores(cores)[0].id)
  {
    if TruthyId(selected) then selected
    else
      var online := AiCoreStore.OnlineCores(cores);
      if |online| > 0 then Some(online[0].id) else selected
  }

  /** The selection made automatically is of a core whose last check found it
      online, and a second automatic selection changes nothing once one was made. */
  lemma AutoSelectIsOnlineAndStable(selected: Option<int>, cores: seq<AiCoreStore.CoreView>)
    ensures var r := AutoSelected(selected, cores);
            r != selected ==> exists k :: 0 <= k < |cores| && cores[k].id == r.value && cores[k].status == Some(Online)
    ensures var r := AutoSelected(selected, cores);
            TruthyId(r) ==> AutoSelected(r, cores) == r
  {
    var online := AiCoreStore.OnlineCores(cores);
    if !TruthyId(selected) && online != [] {
      AiCoreStore.StatusViewsPartition(cores);
      assert online[0] in online;
      assert online[0] in cores && online[0].status == Some(Online);
    }
  }

  /** The request `sendSystemPrompt` posts: the trimmed prompt, and the session id
      unless it is empty. */
  function RequestFor(id: int, prompt: string, sessionId: string): (req: PromptRequest)
    ensures req.aiCoreId == id && req.systemPrompt == Trim(prompt)
    ensures req.sessionId.None? <==> sessionId == ""
    ensures req.sessionId.Some? ==> req.sessionId.value == sessionId
  {
    PromptRequest(id, Trim(prompt), if sessionId == "" then None else Some(sessionId))
  }

  /** The history item one send records: a success with its response time, or an
      error with its message. */
  function ItemFor<R>(req: PromptRequest, name: string, itemId: string, nowIso: string, elapsed: int, call: ApiCall<R>)
    : (item: HistoryItem)
    ensures item.id == itemId && item.timestamp == nowIso && item.aiCoreName == name
    ensures item.aiCoreId == req.aiCoreId && item.systemPrompt == req.systemPrompt && item.sessionId == req.sessionId
    ensures call.Resolved? ==> item.status == Success && item.responseTime == Some(elapsed) && item.errorMessage == None
    ensures call.Rejected? ==>
      item.status == Error && item.responseTime == None && item.errorMessage == Some(ErrorText(call.thrown, ItemFailed))
  {
    match call
    case Resolved(_) =>
      HistoryItem(itemId, nowIso, req.aiCoreId, name, req.systemPrompt, req.sessionId, Success, Some(elapsed), None)
    case Rejected(t) =>
      HistoryItem(itemId, nowIso, req.aiCoreId, name, req.systemPrompt, req.sessionId, Error, None,
                  Some(ErrorText(t, ItemFailed)))
  }

  /** `stats.sent++` with `success++` or `fail++`. */
  function Counted(st: Stats, succeeded: bool): (r: Stats)
    ensures r.sent == st.sent + 1
    ensures succeeded ==> r.success == st.success + 1 && r.fail == st.fail
    ensures !succeeded ==> r.success == st.success && r.fail == st.fail + 1
  {
    if succeeded then st.(sent := st.sent + 1, success := st.success + 1)
    else st.(sent := st.sent + 1, fail := st.fail + 1)
  }

  /** Recording an item and counting its outcome keeps the counters in step with
      the history. */
  lemma RecordKeepsCounts(item: HistoryItem, h: seq<HistoryItem>, st: Stats, succeeded: bool)
    requires st.sent == st.success + st.fail && st.sent == |h|
    requires st.success == Count(h, Success) && st.fail == Count(h, Error)
    requires item.status == (if succeeded then Success else Error)
    ensures var st' := Counted(st, succeeded);
            && st'.sent == st'.success + st'.fail && st'.sent == |[item] + h|
            && st'.success == Count([item] + h, Success) && st'.fail == Count([item] + h, Error)
  {
    CountPrepend(item, h, Success);
    CountPrepend(item, h, Error);
  }

  class Store {
    var systemPrompt: string
    var selectedAiCoreId: Option<int>
    var sessionId: string
    var loading: bool
    var error: Option<string>
    var history: seq<HistoryItem>
    var stats: Stats

    /** The counters agree with the history: one sent per item, split by outcome. */
    ghost predicate Valid()
      reads this
    {
      && stats.sent == stats.success + stats.fail
      && stats.sent == |history|
      && stats.success == Count(history, Success)
      && stats.fail == Count(history, Error)
    }

    constructor ()
      ensures Valid()
      ensures systemPrompt == "" && selectedAiCoreId == None && sessionId == "" && !loading && error == None
      ensures history == [] && stats == Stats(0, 0, 0)
    {
      systemPrompt, selectedAiCoreId, sessionId, loading, error := "", None, "", false, None;
      history, stats := [], Stats(0, 0, 0);
    }

    /** `setSystemPrompt`; `selectMessageForPrompt` sets it to a preset's content. */
    method SetSystemPrompt(prompt: string)
      modifies this`systemPrompt
      ensures systemPrompt == prompt
    {
      systemPrompt := prompt;
    }

    /** `setSelectedAiCore`. */
    method SetSelectedAiCore(id: Option<int>)
      modifies this`selectedAiCoreId
      ensures selectedAiCoreId == id
    {
      selectedAiCoreId := id;
    }

    /** `setSessionId`. */
    method SetSessionId(id: string)
      modifies this`sessionId
      ensures sessionId == id
    {
      sessionId := id;
    }

    /** `clearHistory`: empties the history and zeroes the counters. */
    method ClearHistory()
      modifies this`history, this`stats
      ensures Valid() && history == [] && stats == Stats(0, 0, 0)
    {
      history := [];
      stats := Stats(0, 0, 0);
    }

    /** `sendSystemPrompt`: when sending is not possible it returns null and changes
        nothing. Otherwise it sends the trimmed prompt and prepends a history item
        with the outcome, counting it. `request` is what was sent, if anything; `r` is
        `Ok(None)` for the null return. */
    method SendSystemPrompt<R>(cores: seq<AiCoreStore.CoreView>, itemId: string, nowIso: string, elapsed: int,
                               call: ApiCall<R>)
      returns (r: Result<Option<R>, Thrown>, request: Option<PromptRequest>)
      requires Valid()
      modifies this`loading, this`error, this`history, this`stats
      ensures Valid()
      ensures !CanSend(old(selectedAiCoreId), systemPrompt, old(loading)) ==>
        && r == Ok(None) && request == None
        && history == old(history) && stats == old(stats) && loading == old(loading) && error == old(error)
      ensures CanSend(old(selectedAiCoreId), systemPrompt, old(loading)) ==>
        && request == Some(RequestFor(selectedAiCoreId.value, systemPrompt, sessionId))
        && history == [ItemFor(RequestFor(selectedAiCoreId.value, systemPrompt, sessionId),
                               CoreName(cores, selectedAiCoreId), itemId, nowIso, elapsed, call)] + old(history)
        && stats == Counted(old(stats), call.Resolved?)
        && !loading
      ensures CanSend(old(selectedAiCoreId), systemPrompt, old(loading)) && call.Resolved? ==>
        error == None && r == Ok(Some(call.value))
      ensures CanSend(old(selectedAiCoreId), systemPrompt, old(loading)) && call.Rejected? ==>
        error == Some(ErrorText(call.thrown, SendFailed)) && r == Err(call.thrown)
    {
      if !CanSend(selectedAiCoreId, systemPrompt, loading) {
        return Ok(None), None;
      }
      var req := RequestFor(selectedAiCoreId.value, systemPrompt, sessionId);
      var item := ItemFor(req, CoreName(cores, selectedAiCoreId), itemId, nowIso, elapsed, call);
      r := Settle(item, call);
      request := Some(req);
    }

    /** What `sendSystemPrompt` does around the post: `loading` is set for its
        duration, the outcome sets `error` and the result, and the item is recorded. */
    method Settle<R>(item: HistoryItem, call: ApiCall<R>) returns (r: Result<Option<R>, Thrown>)
      requires Valid() && item.status == (if call.Resolved? then Success else Error)
      modifies this`loading, this`error, this`history, this`stats
      ensures Valid()
      ensures history == [item] + old(history) && stats == Counted(old(stats), call.Resolved?) && !loading
      ensures call.Resolved? ==> error == None && r == Ok(Some(call.value))
      ensures call.Rejected? ==> error == Some(ErrorText(call.thrown, SendFailed)) && r == Err(call.thrown)
    {
      loading := true;
      error := None;
      match call {
        case Resolved(v) =>
          r := Ok(Some(v));
        case Rejected(t) =>
          error := Some(ErrorText(t, SendFailed));
          r := Err(t);
      }
      Record(item, call.Resolved?);
      loading := false;
    }

    /** `history.value.unshift(item)` with the matching `stats` increments. */
    method Record(item: HistoryItem, succeeded: bool)
      requires Valid() && item.status == (if succeeded then Success else Error)
      modifies this`history, this`stats
      ensures Valid()
      ensures history == [item] + old(history) && stats == Counted(old(stats), succeeded)
    {
      RecordKeepsCounts(item, history, stats, succeeded);
      history := [item] + history;
      stats := Counted(stats, succeeded);
    }

    /** `loadAiCores` once the AI-Core store has loaded and checked `cores`. */
    method LoadAiCores(cores: seq<AiCoreStore.CoreView>)
      modifies this`selectedAiCoreId
      ensures selectedAiCoreId == AutoSelected(old(selectedAiCoreId), cores)
    {
      if !TruthyId(selectedAiCoreId) {
        var online := AiCoreStore.OnlineCores(cores);
        if |online| > 0 {
          selectedAiCoreId := Some(online[0].id);
        }
      }
    }

    /** `getHistoryById`: the first item with the id. */
    function GetHistoryById(id: string): (r: Option<HistoryItem>)
      reads this
      ensures r.None? <==> forall k :: 0 <= k < |history| ==> history[k].id != id
      ensures r.Some? ==> exists i :: 0 <= i < |history| && history[i] == r.value && r.value.id == id
                                      && forall k :: 0 <= k < i ==> history[k].id != id
    {
      FirstWithId(history, id)
    }
  }

  /** `find(item => item.id === id)`: the first item with the id. */
  function FirstWithId(h: seq<HistoryItem>, id: string): (r: Option<HistoryItem>)
    ensures r.None? <==> forall k :: 0 <= k < |h| ==> h[k].id != id
    ensures r.Some? ==> exists i :: 0 <= i < |h| && h[i] == r.value && r.value.id == id
                                    && forall k :: 0 <= k < i ==> h[k].id != id
  {
    match IndexOfId(Keys(h, (x: HistoryItem) => x.id), id)
    case None => None
    case Some(i) => Some(h[i])
  }
}
