/** The Ollama Pinia store: the Ollama endpoint list as the frontend sees it (each entry
    with the status of its last check), the loading flag, the last error and the
    last check result per id. Each API call is a parameter that resolves or
    rejects; the clock's ISO string is the parameter `nowIso`. */
module OllamaStore {
  import opened Wrappers
  import opened Seqs
  import opened StoreCommon

  /** `OllamaConfig` as the frontend types it. */
  datatype OllamaView = OllamaView(
    id: int, name: string, url: string, model: string, description: string,
    status: Option<Status>, responseTime: Option<int>, lastCheck: Option<string>)

  function Ids(s: seq<OllamaView>): seq<int> {
    Keys(s, (c: OllamaView) => c.id)
  }

  /** `onlineConfigs`. */
  function OnlineConfigs(s: seq<OllamaView>): (r: seq<OllamaView>)
    ensures forall c :: c in r <==> c in s && c.status == Some(Online)
  {
    Filter(s, (c: OllamaView) => c.status == Some(Online))
  }

  /** `offlineConfigs`. */
  function OfflineConfigs(s: seq<OllamaView>): (r: seq<OllamaView>)
    ensures forall c :: c in r <==> c in s && c.status == Some(Offline)
  {
    Filter(s, (c: OllamaView) => c.status == Some(Offline))
  }

  /** The entries never checked, which neither view shows. */
  function UncheckedConfigs(s: seq<OllamaView>): (r: seq<OllamaView>)
    ensures forall c :: c in r <==> c in s && c.status.None?
  {
    Filter(s, (c: OllamaView) => c.status.None?)
  }

  /** The two status views are disjoint, hold only entries of the list with that
      status, and together with the never-checked entries count the whole list. */
  lemma {:induction false} StatusViewsPartition(s: seq<OllamaView>)
    ensures forall c :: c in OnlineConfigs(s) ==> c in s && c.status == Some(Online) && c !in OfflineConfigs(s)
    ensures forall c :: c in OfflineConfigs(s) ==> c in s && c.status == Some(Offline)
    ensures forall c :: c in s && c.status.None? ==> c !in OnlineConfigs(s) && c !in OfflineConfigs(s)
    ensures |OnlineConfigs(s)| + |OfflineConfigs(s)| + |UncheckedConfigs(s)| == |s|
  {
    if s != [] {
      StatusViewsPartition(s[1..]);
      var c := s[0];
      assert OnlineConfigs(s) == (if c.status == Some(Online) then [c] else []) + OnlineConfigs(s[1..]);
      assert OfflineConfigs(s) == (if c.status == Some(Offline) then [c] else []) + OfflineConfigs(s[1..]);
      assert UncheckedConfigs(s) == (if c.status.None? then [c] else []) + UncheckedConfigs(s[1..]);
      assert c.status.Some? ==> c.status.value.Online? || c.status.value.Offline?;
    }
  }

  /** `getConfigById`: the first entry with the id (`find`). */
  function FindById(s: seq<OllamaView>, id: int): (r: Option<OllamaView>)
    ensures r.None? <==> id !in Ids(s)
    ensures r.Some? ==> r.value in s && r.value.id == id
    ensures r.Some? ==> r.value == s[IndexOfId(Ids(s), id).value]
  {
    match IndexOfId(Ids(s), id)
    case None => None
    case Some(i) => Some(s[i])
  }

  const LoadFailed := "加载 Ollama 配置失败"
  const AddFailed := "添加 Ollama 配置失败"
  const UpdateFailed := "更新 Ollama 配置失败"
  const DeleteFailed := "删除 Ollama 配置失败"

  class Store {
    var ollamaConfigs: seq<OllamaView>
    var loading: bool
    var error: Option<string>
    var lastCheckResults: map<int, CheckResult>

    constructor ()
      ensures ollamaConfigs == [] && !loading && error == None && lastCheckResults == map[]
    {
      ollamaConfigs, loading, error, lastCheckResults := [], false, None, map[];
    }

    /** `loadOllamaConfigs`: a fetched list replaces the old one; a failure keeps the list
        and records the error. */
    method Load(call: ApiCall<seq<OllamaView>>)
      modifies this`ollamaConfigs, this`loading, this`error
      ensures !loading
      ensures call.Resolved? ==> ollamaConfigs == call.value && error == None
      ensures call.Rejected? ==> ollamaConfigs == old(ollamaConfigs) && error == Some(ErrorText(call.thrown, LoadFailed))
    {
      loading := true;
      error := None;
      match call {
        case Resolved(configs) => ollamaConfigs := configs;
        case Rejected(t) => error := Some(ErrorText(t, LoadFailed));
      }
      loading := false;
    }

    /** `addOllamaConfig`: appends what the server returned; a failure is rethrown. */
    method Add(call: ApiCall<OllamaView>) returns (r: Result<OllamaView, Thrown>)
      modifies this`ollamaConfigs, this`loading, this`error
      ensures !loading
      ensures call.Resolved? ==> ollamaConfigs == old(ollamaConfigs) + [call.value] && error == None && r == Ok(call.value)
      ensures call.Rejected? ==>
        ollamaConfigs == old(ollamaConfigs) && error == Some(ErrorText(call.thrown, AddFailed)) && r == Err(call.thrown)
    {
      loading := true;
      error := None;
      match call {
        case Resolved(config) =>
          ollamaConfigs := ollamaConfigs + [config];
          r := Ok(config);
        case Rejected(t) =>
          error := Some(ErrorText(t, AddFailed));
          r := Err(t);
      }
      loading := false;
    }

    /** `updateOllamaConfig`: the server's record replaces the first entry with the id; an
        id the list does not hold changes nothing. */
    method Update(id: int, call: ApiCall<OllamaView>) returns (r: Result<OllamaView, Thrown>)
      modifies this`ollamaConfigs, this`loading, this`error
      ensures !loading
      ensures call.Resolved? ==> error == None && r == Ok(call.value)
      ensures call.Resolved? ==> match IndexOfId(Ids(old(ollamaConfigs)), id)
        case None => ollamaConfigs == old(ollamaConfigs)
        case Some(i) => ollamaConfigs == old(ollamaConfigs)[i := call.value]
      ensures call.Rejected? ==>
        ollamaConfigs == old(ollamaConfigs) && error == Some(ErrorText(call.thrown, UpdateFailed)) && r == Err(call.thrown)
    {
      loading := true;
      error := None;
      match call {
        case Resolved(updated) =>
          match IndexOfId(Ids(ollamaConfigs), id) {
            case None =>
            case Some(i) => ollamaConfigs := ollamaConfigs[i := updated];
          }
          r := Ok(updated);
        case Rejected(t) =>
          error := Some(ErrorText(t, UpdateFailed));
          r := Err(t);
      }
      loading := false;
    }

    /** `deleteOllamaConfig`: drops every entry with the id and its last check result. */
    method Delete(id: int, call: ApiCall<()>) returns (r: Outcome<Thrown>)
      modifies this`ollamaConfigs, this`loading, this`error, this`lastCheckResults
      ensures !loading
      ensures call.Resolved? ==>
        && ollamaConfigs == Filter(old(ollamaConfigs), (c: OllamaView) => c.id != id)
        && lastCheckResults == old(lastCheckResults) - {id}
        && error == None && r == Pass
      ensures call.Resolved? ==>
        && (forall k :: 0 <= k < |ollamaConfigs| ==> ollamaConfigs[k].id != id)
        && (forall k :: 0 <= k < |old(ollamaConfigs)| && old(ollamaConfigs)[k].id != id ==> old(ollamaConfigs)[k] in ollamaConfigs)
      ensures call.Rejected? ==>
        && ollamaConfigs == old(ollamaConfigs) && lastCheckResults == old(lastCheckResults)
        && error == Some(ErrorText(call.thrown, DeleteFailed)) && r == Fail(call.thrown)
    {
      loading := true;
      error := None;
      match call {
        case Resolved(_) =>
          ollamaConfigs := Filter(ollamaConfigs, (c: OllamaView) => c.id != id);
          lastCheckResults := lastCheckResults - {id};
          r := Pass;
        case Rejected(t) =>
          error := Some(ErrorText(t, DeleteFailed));
          r := Fail(t);
      }
      loading := false;
    }

    /** `checkConnection`: the first entry with the config's id takes the result's
        status and response time and the check time; the result is kept under the
        id even when the list no longer holds it. A failure changes nothing. */
    method CheckConnection(config: OllamaView, call: ApiCall<CheckResult>, nowIso: string)
      returns (r: Result<CheckResult, Thrown>)
      modifies this`ollamaConfigs, this`lastCheckResults
      ensures call.Resolved? ==> r == Ok(call.value) && lastCheckResults == old(lastCheckResults)[config.id := call.value]
      ensures call.Resolved? ==> match IndexOfId(Ids(old(ollamaConfigs)), config.id)
        case None => ollamaConfigs == old(ollamaConfigs)
        case Some(i) => ollamaConfigs == old(ollamaConfigs)[i := old(ollamaConfigs)[i].(
          status := Some(call.value.status), responseTime := call.value.responseTime, lastCheck := Some(nowIso))]
      ensures call.Rejected? ==>
        ollamaConfigs == old(ollamaConfigs) && lastCheckResults == old(lastCheckResults) && r == Err(call.thrown)
    {
      match call {
        case Resolved(result) =>
          match IndexOfId(Ids(ollamaConfigs), config.id) {
            case None =>
            case Some(i) =>
              ollamaConfigs := ollamaConfigs[i := ollamaConfigs[i].(status := Some(result.status),
                                                   responseTime := result.responseTime,
                                                   lastCheck := Some(nowIso))];
          }
          lastCheckResults := lastCheckResults[config.id := result];
          r := Ok(result);
        case Rejected(t) =>
          r := Err(t);
      }
    }
  }
}
