/** The GUI backend's configuration tables: AI-Core endpoints, Ollama endpoints and
    message presets, each an in-memory list with its own next-id counter. Records
    come from the HTTP body; file contents arrive as `Option<list>` (`None` when the
    file cannot be read or does not parse), and saving to disk is not modelled. */
module GuiBackend {
  import opened Wrappers
  import opened Seqs
  import Json

  datatype AiCoreConfig = AiCoreConfig(id: int, name: string, url: string, description: string)

  datatype OllamaConfig = OllamaConfig(id: int, name: string, url: string, model: string, description: string)

  datatype MessagePreset = MessagePreset(id: int, name: string, content: string, category: string)

  function CoreIds(s: seq<AiCoreConfig>): seq<int> {
    Keys(s, (c: AiCoreConfig) => c.id)
  }

  function OllamaIds(s: seq<OllamaConfig>): seq<int> {
    Keys(s, (c: OllamaConfig) => c.id)
  }

  function PresetIds(s: seq<MessagePreset>): seq<int> {
    Keys(s, (p: MessagePreset) => p.id)
  }

  /** The counter a successful load leaves behind: one past the largest stored id,
      or 1 for an empty list. It is above every stored id. */
  function RecoveredNextId(ids: seq<int>): (next: int)
    ensures AllBelow(ids, next)
    ensures ids == [] ==> next == 1
    ensures ids != [] ==> next - 1 in ids
  {
    MaxOr0IsMax(ids);
    MaxOr0(ids) + 1
  }

  /** `AppState`: the three lists and their counters. */
  class AppState {
    var aiCores: seq<AiCoreConfig>
    var ollamaConfigs: seq<OllamaConfig>
    var messagePresets: seq<MessagePreset>
    var nextCoreId: int
    var nextOllamaId: int
    var nextMessageId: int

    /** Each counter is above every id stored in its own list, so the next `add`
        hands out an id no stored record has. */
    ghost predicate Valid()
      reads this
    {
      && AllBelow(CoreIds(aiCores), nextCoreId)
      && AllBelow(OllamaIds(ollamaConfigs), nextOllamaId)
      && AllBelow(PresetIds(messagePresets), nextMessageId)
    }

    /** `AppState::new`. */
    constructor ()
      ensures Valid()
      ensures aiCores == [] && ollamaConfigs == [] && messagePresets == []
      ensures nextCoreId == 1 && nextOllamaId == 1 && nextMessageId == 1
    {
      aiCores, ollamaConfigs, messagePresets := [], [], [];
      nextCoreId, nextOllamaId, nextMessageId := 1, 1, 1;
    }

    /** `load_data`: each file that was read and parsed replaces its list, and its
        counter is recovered from that list alone; a missing or broken file leaves
        its list and counter as they were. */
    method LoadData(
      coreFile: Option<seq<AiCoreConfig>>,
      ollamaFile: Option<seq<OllamaConfig>>,
      presetFile: Option<seq<MessagePreset>>)
      requires Valid()
      modifies this
      ensures Valid()
      ensures coreFile.Some? ==>
        aiCores == coreFile.value && nextCoreId == RecoveredNextId(CoreIds(coreFile.value))
      ensures coreFile.None? ==> aiCores == old(aiCores) && nextCoreId == old(nextCoreId)
      ensures ollamaFile.Some? ==>
        ollamaConfigs == ollamaFile.value && nextOllamaId == RecoveredNextId(OllamaIds(ollamaFile.value))
      ensures ollamaFile.None? ==> ollamaConfigs == old(ollamaConfigs) && nextOllamaId == old(nextOllamaId)
      ensures presetFile.Some? ==>
        messagePresets == presetFile.value && nextMessageId == RecoveredNextId(PresetIds(presetFile.value))
      ensures presetFile.None? ==> messagePresets == old(messagePresets) && nextMessageId == old(nextMessageId)
    {
      if coreFile.Some? {
        aiCores := coreFile.value;
        nextCoreId := RecoveredNextId(CoreIds(aiCores));
      }
      if ollamaFile.Some? {
        ollamaConfigs := ollamaFile.value;
        nextOllamaId := RecoveredNextId(OllamaIds(ollamaConfigs));
      }
      if presetFile.Some? {
        messagePresets := presetFile.value;
        nextMessageId := RecoveredNextId(PresetIds(messagePresets));
      }
    }

    /** `add_ai_core`: the body's id is ignored; the record gets the counter's value,
        goes to the end of the list, and the counter moves on by one. */
    method AddAiCore(config: AiCoreConfig) returns (stored: AiCoreConfig)
      requires Valid()
      modifies this`aiCores, this`nextCoreId
      ensures Valid()
      ensures stored == config.(id := old(nextCoreId))
      ensures stored.id !in CoreIds(old(aiCores))
      ensures aiCores == old(aiCores) + [stored]
      ensures nextCoreId == old(nextCoreId) + 1
    {
      stored := config.(id := nextCoreId);
      nextCoreId := nextCoreId + 1;
      aiCores := aiCores + [stored];
    }

    /** `update_ai_core`: the first record with the id takes the body's name, url and
        description; its id and every other record stay as they were. */
    method UpdateAiCore(id: int, config: AiCoreConfig) returns (r: Result<AiCoreConfig, string>)
      requires Valid()
      modifies this`aiCores
      ensures Valid()
      ensures CoreIds(aiCores) == CoreIds(old(aiCores))
      ensures match IndexOfId(CoreIds(old(aiCores)), id)
        case None => aiCores == old(aiCores) && r == Err("AI-Core not found")
        case Some(i) =>
          && aiCores == old(aiCores)[i := old(aiCores)[i].(name := config.name, url := config.url,
                                                          description := config.description)]
          && r == Ok(aiCores[i])
    {
      match IndexOfId(CoreIds(aiCores), id)
      case None => r := Err("AI-Core not found");
      case Some(i) =>
        var updated := aiCores[i].(name := config.name, url := config.url, description := config.description);
        aiCores := aiCores[i := updated];
        r := Ok(updated);
    }

    /** `delete_ai_core`: removes the first record with the id, keeping the order of
        the rest. */
    method DeleteAiCore(id: int) returns (r: Outcome<string>)
      requires Valid()
      modifies this`aiCores
      ensures Valid()
      ensures match IndexOfId(CoreIds(old(aiCores)), id)
        case None => aiCores == old(aiCores) && r == Fail("AI-Core not found")
        case Some(i) => aiCores == RemoveAt(old(aiCores), i) && r == Pass
    {
      match IndexOfId(CoreIds(aiCores), id)
      case None => r := Fail("AI-Core not found");
      case Some(i) =>
        aiCores := RemoveAt(aiCores, i);
        r := Pass;
    }

    /** `add_ollama_config`. */
    method AddOllamaConfig(config: OllamaConfig) returns (stored: OllamaConfig)
      requires Valid()
      modifies this`ollamaConfigs, this`nextOllamaId
      ensures Valid()
      ensures stored == config.(id := old(nextOllamaId))
      ensures stored.id !in OllamaIds(old(ollamaConfigs))
      ensures ollamaConfigs == old(ollamaConfigs) + [stored]
      ensures nextOllamaId == old(nextOllamaId) + 1
    {
      stored := config.(id := nextOllamaId);
      nextOllamaId := nextOllamaId + 1;
      ollamaConfigs := ollamaConfigs + [stored];
    }

    /** `update_ollama_config`: also copies the model name. */
    method UpdateOllamaConfig(id: int, config: OllamaConfig) returns (r: Result<OllamaConfig, string>)
      requires Valid()
      modifies this`ollamaConfigs
      ensures Valid()
      ensures OllamaIds(ollamaConfigs) == OllamaIds(old(ollamaConfigs))
      ensures match IndexOfId(OllamaIds(old(ollamaConfigs)), id)
        case None => ollamaConfigs == old(ollamaConfigs) && r == Err("Ollama config not found")
        case Some(i) =>
          && ollamaConfigs == old(ollamaConfigs)[i := old(ollamaConfigs)[i].(name := config.name,
                 url := config.url, model := config.model, description := config.description)]
          && r == Ok(ollamaConfigs[i])
    {
      match IndexOfId(OllamaIds(ollamaConfigs), id)
      case None => r := Err("Ollama config not found");
      case Some(i) =>
        var updated := ollamaConfigs[i].(name := config.name, url := config.url, model := config.model,
                                         description := config.description);
        ollamaConfigs := ollamaConfigs[i := updated];
        r := Ok(updated);
    }

    /** `delete_ollama_config`. */
    method DeleteOllamaConfig(id: int) returns (r: Outcome<string>)
      requires Valid()
      modifies this`ollamaConfigs
      ensures Valid()
      ensures match IndexOfId(OllamaIds(old(ollamaConfigs)), id)
        case None => ollamaConfigs == old(ollamaConfigs) && r == Fail("Ollama config not found")
        case Some(i) => ollamaConfigs == RemoveAt(old(ollamaConfigs), i) && r == Pass
    {
      match IndexOfId(OllamaIds(ollamaConfigs), id)
      case None => r := Fail("Ollama config not found");
      case Some(i) =>
        ollamaConfigs := RemoveAt(ollamaConfigs, i);
        r := Pass;
    }

    /** `add_message`. */
    method AddMessage(preset: MessagePreset) returns (stored: MessagePreset)
      requires Valid()
      modifies this`messagePresets, this`nextMessageId
      ensures Valid()
      ensures stored == preset.(id := old(nextMessageId))
      ensures stored.id !in PresetIds(old(messagePresets))
      ensures messagePresets == old(messagePresets) + [stored]
      ensures nextMessageId == old(nextMessageId) + 1
    {
      stored := preset.(id := nextMessageId);
      nextMessageId := nextMessageId + 1;
      messagePresets := messagePresets + [stored];
    }

    /** `update_message`: copies name, content and category. */
    method UpdateMessage(id: int, preset: MessagePreset) returns (r: Result<MessagePreset, string>)
      requires Valid()
      modifies this`messagePresets
      ensures Valid()
      ensures PresetIds(messagePresets) == PresetIds(old(messagePresets))
      ensures match IndexOfId(PresetIds(old(messagePresets)), id)
        case None => messagePresets == old(messagePresets) && r == Err("Message preset not found")
        case Some(i) =>
          && messagePresets == old(messagePresets)[i := old(messagePresets)[i].(name := preset.name,
                 content := preset.content, category := preset.category)]
          && r == Ok(messagePresets[i])
    {
      match IndexOfId(PresetIds(messagePresets), id)
      case None => r := Err("Message preset not found");
      case Some(i) =>
        var updated := messagePresets[i].(name := preset.name, content := preset.content,
                                          category := preset.category);
        messagePresets := messagePresets[i := updated];
        r := Ok(updated);
    }

    /** `delete_message`. */
    method DeleteMessage(id: int) returns (r: Outcome<string>)
      requires Valid()
      modifies this`messagePresets
      ensures Valid()
      ensures match IndexOfId(PresetIds(old(messagePresets)), id)
        case None => messagePresets == old(messagePresets) && r == Fail("Message preset not found")
        case Some(i) => messagePresets == RemoveAt(old(messagePresets), i) && r == Pass
    {
      match IndexOfId(PresetIds(messagePresets), id)
      case None => r := Fail("Message preset not found");
      case Some(i) =>
        messagePresets := RemoveAt(messagePresets, i);
        r := Pass;
    }
  }

  /** What a health probe came back with: the body parsed as the expected shape,
      a response whose body did not parse, a request error with its text, or the
      five-second timeout. The request itself is not modelled. */
  datatype ProbeOutcome<B> =
    | Parsed(body: B)
    | Unparseable
    | RequestError(text: string)
    | TimedOut

  datatype HealthResponse = HealthResponse(status: string, message: string, version: string)

  /** `ConnectionCheckResponse` without its timing and timestamp fields. */
  datatype ConnectionCheck = ConnectionCheck(
    success: bool, connected: bool, status: string, message: string, version: Option<string>)

  /** The message every failed probe reports. */
  function FailureMessage<B>(o: ProbeOutcome<B>): (m: string)
    requires !o.Parsed?
    ensures o.Unparseable? ==> m == "Invalid response"
    ensures o.RequestError? ==> m == o.text
    ensures o.TimedOut? ==> m == "Request timeout"
  {
    match o
    case Unparseable => "Invalid response"
    case RequestError(text) => text
    case TimedOut => "Request timeout"
  }

  /** `check_connection`: the call itself always succeeds; it is connected exactly
      when the health body parsed, and then reports that body's status, message and
      version. Otherwise it is "offline" with no version. */
  function CheckConnection(o: ProbeOutcome<HealthResponse>): (r: ConnectionCheck)
    ensures r.success
    ensures r.connected <==> o.Parsed?
    ensures r.version.Some? <==> o.Parsed?
    ensures o.Parsed? ==>
      r.status == o.body.status && r.message == o.body.message && r.version == Some(o.body.version)
    ensures !o.Parsed? ==> r.status == "offline" && r.message == FailureMessage(o)
  {
    match o
    case Parsed(data) => ConnectionCheck(true, true, data.status, data.message, Some(data.version))
    case _ => ConnectionCheck(true, false, "offline", FailureMessage(o), None)
  }

  /** `CheckAllItem` without its timing and timestamp fields. */
  datatype CheckAllItem = CheckAllItem(
    id: int, name: string, url: string, status: string, message: string,
    version: Option<string>, model: Option<string>)

  /** One task of `check_all_connections`: "online" exactly when the health body
      parsed, whatever status that body reports. */
  function CoreCheckItem(core: AiCoreConfig, o: ProbeOutcome<HealthResponse>): (r: CheckAllItem)
    ensures r.id == core.id && r.name == core.name && r.url == core.url && r.model.None?
    ensures r.status == "online" <==> o.Parsed?
    ensures r.status == "online" || r.status == "offline"
    ensures o.Parsed? ==> r.message == o.body.message && r.version == Some(o.body.version)
    ensures !o.Parsed? ==> r.message == FailureMessage(o) && r.version.None?
  {
    match o
    case Parsed(data) => CheckAllItem(core.id, core.name, core.url, "online", data.message, Some(data.version), None)
    case _ => CheckAllItem(core.id, core.name, core.url, "offline", FailureMessage(o), None, None)
  }

  /** One task of `check_all_ollama`: any JSON body counts as connected; the item
      always names the configured model. */
  function OllamaCheckItem(config: OllamaConfig, o: ProbeOutcome<Json.Json>): (r: CheckAllItem)
    ensures r.id == config.id && r.name == config.name && r.url == config.url
    ensures r.model == Some(config.model) && r.version.None?
    ensures r.status == "online" <==> o.Parsed?
    ensures r.status == "online" || r.status == "offline"
    ensures o.Parsed? ==> r.message == "Connected"
    ensures !o.Parsed? ==> r.message == FailureMessage(o)
  {
    match o
    case Parsed(_) => CheckAllItem(config.id, config.name, config.url, "online", "Connected", None, Some(config.model))
    case _ => CheckAllItem(config.id, config.name, config.url, "offline", FailureMessage(o), None, Some(config.model))
  }

  /** The results of the tasks that joined, in task order (`None` is a task that
      failed to join). */
  function Joined<T>(tasks: seq<Option<T>>): (r: seq<T>)
    ensures |r| <= |tasks|
    ensures (forall k :: 0 <= k < |tasks| ==> tasks[k].Some?) ==>
      |r| == |tasks| && forall k :: 0 <= k < |r| ==> r[k] == tasks[k].value
  {
    if tasks == [] then []
    else Joined(tasks[..|tasks| - 1]) + (if tasks[|tasks| - 1].Some? then [tasks[|tasks| - 1].value] else [])
  }

  /** The loop that awaits each task and keeps the results of those that joined. */
  method CollectResults<T>(tasks: seq<Option<T>>) returns (results: seq<T>)
    ensures results == Joined(tasks)
  {
    results := [];
    var i := 0;
    while i < |tasks|
      invariant 0 <= i <= |tasks|
      invariant results == Joined(tasks[..i])
    {
      assert tasks[..i + 1][..i] == tasks[..i];
      if tasks[i].Some? {
        results := results + [tasks[i].value];
      }
      i := i + 1;
    }
    assert tasks[..|tasks|] == tasks;
  }

  /** A task that does not join drops its item and nothing else. */
  lemma {:induction false} JoinedSkipsFailed<T>(before: seq<Option<T>>, after: seq<Option<T>>)
    ensures Joined(before + [None] + after) == Joined(before) + Joined(after)
    decreases |after|
  {
    if after == [] {
      assert (before + [None] + after)[..|before|] == before;
    } else {
      var n := |after| - 1;
      assert (before + [None] + after)[..|before| + 1 + n] == before + [None] + after[..n];
      assert after[..n] + [after[n]] == after;
      JoinedSkipsFailed(before, after[..n]);
      assert after[..|after| - 1] == after[..n];
    }
  }
}
