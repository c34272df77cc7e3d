/** The AI-Core Pinia store: the endpoint list as the frontend sees it (each entry
    with the status of its last check), the loading flag, the last error and the
    last check result per id. Each API call is a parameter that resolves or
    rejects; the clock's ISO string is the parameter `nowIso`. */
module AiCoreStore {
  import opened Wrappers
  import opened Seqs
  import opened StoreCommon

  /** `AICoreConfig` as the frontend types it. */
  datatype CoreView = CoreView(
    id: int, name: string, url: string, description: string,
    status: Option<Status>, responseTime: Option<int>, lastCheck: Option<string>)

  function Ids(s: seq<CoreView>): seq<int> {
    Keys(s, (c: CoreView) => c.id)
  }

  /** `onlineCores`. */
  function OnlineCores(s: seq<CoreView>): (r: seq<CoreView>)
    ensures forall c :: c in r <==> c in s && c.status == Some(Online)
  {
    Filter(s, (c: CoreView) => c.status == Some(Online))
  }

  /** `offlineCores`. */
  function OfflineCores(s: seq<CoreView>): (r: seq<CoreView>)
    ensures forall c :: c in r <==> c in s && c.status == Some(Offline)
  {
    Filter(s, (c: CoreView) => c.status == Some(Offline))
  }

  /** The entries never checked, which neither view shows. */
  function UncheckedCores(s: seq<CoreView>): (r: seq<CoreView>)
    ensures forall c :: c in r <==> c in s && c.status.None?
  {
    Filter(s, (c: CoreView) => c.status.None?)
  }

  /** The two status views are disjoint, hold only entries of the list with that
      status, and together with the never-checked entries count the whole list. */
  lemma {:induction false} StatusViewsPartition(s: seq<CoreView>)
    ensures forall c :: c in OnlineCores(s) ==> c in s && c.status == Some(Online) && c !in OfflineCores(s)
    ensures forall c :: c in OfflineCores(s) ==> c in s && c.status == Some(Offline)
    ensures forall c :: c in s && c.status.None? ==> c !in OnlineCores(s) && c !in OfflineCores(s)
    ensures |OnlineCores(s)| + |OfflineCores(s)| + |UncheckedCores(s)| == |s|
  {
    if s != [] {
      StatusViewsPartition(s[1..]);
      var c := s[0];
      assert OnlineCores(s) == (if c.status == Some(Online) then [c] else []) + OnlineCores(s[1..]);
      assert OfflineCores(s) == (if c.status == Some(Offline) then [c] else []) + OfflineCores(s[1..]);
      assert UncheckedCores(s) == (if c.status.None? then [c] else []) + UncheckedCores(s[1..]);
      assert c.status.Some? ==> c.status.value.Online? || c.status.value.Offline?;
    }
  }

  /** `getCoreById`: the first entry with the id (`find`). */
  function FindById(s: seq<CoreView>, id: int): (r: Option<CoreView>)
    ensures r.None? <==> id !in Ids(s)
    ensures r.Some? ==> r.value in s && r.value.id == id
    ensures r.Some? ==> r.value == s[IndexOfId(Ids(s), id).value]
  {
    match IndexOfId(Ids(s), id)
    case None => None
    case Some(i) => Some(s[i])
  }

  const LoadFailed := "加载 AI-Core 配置失败"
  const AddFailed := "添加 AI-Core 配置失败"
  const UpdateFailed := "更新 AI-Core 配置失败"
  const DeleteFailed := "删除 AI-Core 配置失败"

  class Store {
    var aiCores: seq<CoreView>
    var loading: bool
    var error: Option<string>
    var lastCheckResults: map<int, CheckResult>

    constructor ()
      ensures aiCores == [] && !loading && error == None && lastCheckResults == map[]
    {
      aiCores, loading, error, lastCheckResults := [], false, None, map[];
    }

    /** `loadAICores`: a fetched list replaces the old one; a failure keeps the list
        and records the error. */
    method Load(call: ApiCall<seq<CoreView>>)
      modifies this`aiCores, this`loading, this`error
      ensures !loading
      ensures call.Resolved? ==> aiCores == call.value && error == None
      ensures call.Rejected? ==> aiCores == old(aiCores) && error == Some(ErrorText(call.thrown, LoadFailed))
    {
      loading := true;
      error := None;
      match call {
        case Resolved(cores) => aiCores := cores;
        case Rejected(t) => error := Some(ErrorText(t, LoadFailed));
      }
      loading := false;
    }

    /** `addAICore`: appends what the server returned; a failure is rethrown. */
    method Add(call: ApiCall<CoreView>) returns (r: Result<CoreView, Thrown>)
      modifies this`aiCores, this`loading, this`error
      ensures !loading
      ensures call.Resolved? ==> aiCores == old(aiCores) + [call.value] && error == None && r == Ok(call.value)
      ensures call.Rejected? ==>
        aiCores == old(aiCores) && error == Some(ErrorText(call.thrown, AddFailed)) && r == Err(call.thrown)
    {
      loading := true;
      error := None;
      match call {
        case Resolved(core) =>
          aiCores := aiCores + [core];
          r := Ok(core);
        case Rejected(t) =>
          error := Some(ErrorText(t, AddFailed));
          r := Err(t);
      }
      loading := false;
    }

    /** `updateAICore`: the server's record replaces the first entry with the id; an
        id the list does not hold changes nothing. */
    method Update(id: int, call: ApiCall<CoreView>) returns (r: Result<CoreView, Thrown>)
      modifies this`aiCores, this`loading, this`error
      ensures !loading
      ensures call.Resolved? ==> error == None && r == Ok(call.value)
      ensures call.Resolved? ==> match IndexOfId(Ids(old(aiCores)), id)
        case None => aiCores == old(aiCores)
        case Some(i) => aiCores == old(aiCores)[i := call.value]
      ensures call.Rejected? ==>
        aiCores == old(aiCores) && error == Some(ErrorText(call.thrown, UpdateFailed)) && r == Err(call.thrown)
    {
      loading := true;
      error := None;
      match call {
        case Resolved(updated) =>
          match IndexOfId(Ids(aiCores), id) {
            case None =>
            case Some(i) => aiCores := aiCores[i := updated];
          }
          r := Ok(updated);
        case Rejected(t) =>
          error := Some(ErrorText(t, UpdateFailed));
          r := Err(t);
      }
      loading := false;
    }

    /** `deleteAICore`: drops every entry with the id and its last check result. */
    method Delete(id: int, call: ApiCall<()>) returns (r: Outcome<Thrown>)
      modifies this`aiCores, this`loading, this`error, this`lastCheckResults
      ensures !loading
      ensures call.Resolved? ==>
        && aiCores == Filter(old(aiCores), (c: CoreView) => c.id != id)
        && lastCheckResults == old(lastCheckResults) - {id}
        && error == None && r == Pass
      ensures call.Resolved? ==>
        && (forall k :: 0 <= k < |aiCores| ==> aiCores[k].id != id)
        && (forall k :: 0 <= k < |old(aiCores)| && old(aiCores)[k].id != id ==> old(aiCores)[k] in aiCores)
      ensures call.Rejected? ==>
        && aiCores == old(aiCores) && lastCheckResults == old(lastCheckResults)
        && error == Some(ErrorText(call.thrown, DeleteFailed)) && r == Fail(call.thrown)
    {
      loading := true;
      error := None;
      match call {
        case Resolved(_) =>
          aiCores := Filter(aiCores, (c: CoreView) => c.id != id);
          lastCheckResults := lastCheckResults - {id};
          r := Pass;
        case Rejected(t) =>
          error := Some(ErrorText(t, DeleteFailed));
          r := Fail(t);
      }
      loading := false;
    }

    /** `checkConnection`: the first entry with the core's id takes the result's
        status and response time and the check time; the result is kept under the
        id even when the list no longer holds it. A failure changes nothing. */
    method CheckConnection(core: CoreView, call: ApiCall<CheckResult>, nowIso: string)
      returns (r: Result<CheckResult, Thrown>)
      modifies this`aiCores, this`lastCheckResults
      ensures call.Resolved? ==> r == Ok(call.value) && lastCheckResults == old(lastCheckResults)[core.id := call.value]
      ensures call.Resolved? ==> match IndexOfId(Ids(old(aiCores)), core.id)
        case None => aiCores == old(aiCores)
        case Some(i) => aiCores == old(aiCores)[i := old(aiCores)[i].(
          status := Some(call.value.status), responseTime := call.value.responseTime, lastCheck := Some(nowIso))]
      ensures call.Rejected? ==>
        aiCores == old(aiCores) && lastCheckResults == old(lastCheckResults) && r == Err(call.thrown)
    {
      match call {
        case Resolved(result) =>
          match IndexOfId(Ids(aiCores), core.id) {
            case None =>
            case Some(i) =>
              aiCores := aiCores[i := aiCores[i].(status := Some(result.status),
                                                   responseTime := result.responseTime,
                                                   lastCheck := Some(nowIso))];
          }
          lastCheckResults := lastCheckResults[core.id := result];
          r := Ok(result);
        case Rejected(t) =>
          r := Err(t);
      }
    }
  }
}
