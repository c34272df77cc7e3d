/** Schema versions of the message envelope and the versioned envelope that
    dispatches on them. Only version v0 exists. */
module SchemaVersion {
  import opened Wrappers
  import opened Json
  import opened Text
  import MessageV0

  datatype SchemaVersion = V0

  /** `Display`: the wire spelling of a version. */
  function Display(v: SchemaVersion): string {
    match v
    case V0 => "v0"
  }

  /** `FromStr`: matches the lower-cased input against the known spellings.
      Rust's `to_lowercase` maps a character to `v` or `0` only from `v`, `V` or `0`,
      so lowering the ASCII letters decides this match exactly. */
  function FromStr(s: string): (r: Result<SchemaVersion, string>)
    ensures r.Ok? <==> (|s| == 2 && (s[0] == 'v' || s[0] == 'V') && s[1] == '0')
    ensures r.Err? ==> r.error == "Unknown schema version: " + s
  {
    if Lower(s) == "v0" then Ok(V0)
    else Err("Unknown schema version: " + s)
  }

  /** Parsing the displayed form of any version gives that version back. */
  lemma ParseDisplayRoundTrip(v: SchemaVersion)
    ensures FromStr(Display(v)) == Ok(v)
  {
  }

  /** `Default::default()`. */
  function DefaultVersion(): (v: SchemaVersion)
    ensures Display(v) == "v0"
  {
    V0
  }

  /** `SchemaVersion::latest()`. */
  function Latest(): (v: SchemaVersion)
    ensures v == DefaultVersion()
  {
    V0
  }

  /** `SchemaVersion::all()`: every version, each once. */
  function All(): (vs: seq<SchemaVersion>)
    ensures |vs| == 1 && Latest() in vs
  {
    [V0]
  }

  /** `all()` lists every version there is. */
  lemma AllIsComplete(v: SchemaVersion)
    ensures v in All()
  {
    match v
    case V0 =>
  }

  /** `is_compatible_with`. */
  function IsCompatibleWith(a: SchemaVersion, b: SchemaVersion): (r: bool)
    ensures r <==> Display(a) == Display(b)
  {
    a == b
  }

  lemma CompatibilityIsReflexiveAndSymmetric(a: SchemaVersion, b: SchemaVersion)
    ensures IsCompatibleWith(a, a)
    ensures IsCompatibleWith(a, b) == IsCompatibleWith(b, a)
  {
  }

  /** The error `serde_json` reports for text that is not JSON. */
  datatype JsonError = SyntaxError

  /** `detect_version`: the input is `None` when the text does not parse as JSON.
      A present, string-valued, parseable `meta.schema_version` decides the version;
      every other shape falls back to the default. */
  function DetectVersion(json: Option<Json>): (r: Result<SchemaVersion, JsonError>)
    ensures json.None? <==> r.Err?
    ensures json.Some? ==> r == Ok(DefaultVersion())
  {
    match json
    case None => Err(SyntaxError)
    case Some(value) =>
      match Get(value, "meta")
      case Some(meta) =>
        (match Get(meta, "schema_version")
         case Some(sv) =>
           (match AsStr(sv)
            case Some(s) =>
              (match FromStr(s)
               case Ok(v) => Ok(v)
               case Err(_) => Ok(DefaultVersion()))
            case None => Ok(DefaultVersion()))
         case None => Ok(DefaultVersion()))
      case None => Ok(DefaultVersion())
  }

  /** A declared version that does not parse, such as "v1", is silently read as v0. */
  lemma UnknownDeclaredVersionFallsBack(rest: map<string, Json>, declared: string)
    requires FromStr(declared).Err?
    ensures DetectVersion(Some(JObject(rest["meta" := JObject(map["schema_version" := JString(declared)])])))
            == Ok(V0)
  {
  }

  /** A declared version that parses is the one detected. */
  lemma DeclaredVersionIsDetected(rest: map<string, Json>, meta: map<string, Json>, declared: string)
    requires FromStr(declared).Ok?
    ensures DetectVersion(Some(JObject(rest["meta" := JObject(meta["schema_version" := JString(declared)])])))
            == Ok(FromStr(declared).value)
  {
  }

  datatype VersionedEnvelope = VersionedV0(envelope: MessageV0.Envelope)

  /** `VersionedEnvelope::version`. */
  function Version(e: VersionedEnvelope): SchemaVersion {
    match e
    case VersionedV0(_) => V0
  }

  /** `VersionedEnvelope::as_v0` (and `into_v0`): the wrapped v0 envelope. */
  function AsV0(e: VersionedEnvelope): (r: Option<MessageV0.Envelope>)
    ensures r.Some? <==> Version(e) == V0
    ensures r.Some? ==> VersionedV0(r.value) == e
  {
    match e
    case VersionedV0(env) => Some(env)
  }

  /** `VersionedEnvelope::from_json`: `decoded` stands for what the v0 decoder makes
      of the same text (`None` when it rejects it). */
  function FromJson(json: Option<Json>, decoded: Option<MessageV0.Envelope>)
    : (r: Result<VersionedEnvelope, JsonError>)
    ensures r.Ok? <==> json.Some? && decoded.Some?
    ensures r.Ok? ==> Version(r.value) == DetectVersion(json).value && AsV0(r.value) == decoded
  {
    match DetectVersion(json)
    case Err(e) => Err(e)
    case Ok(V0) =>
      match decoded
      case None => Err(SyntaxError)
      case Some(env) => Ok(VersionedV0(env))
  }

  /** `VersionedEnvelope::upgrade_to`: only the envelope's own version is reachable. */
  function UpgradeTo(e: VersionedEnvelope, target: SchemaVersion): (r: Result<VersionedEnvelope, string>)
    ensures r.Ok? <==> Version(e) == target
    ensures r.Ok? ==> r.value == e
    ensures r.Err? ==> r.error == "Cannot upgrade from " + Display(Version(e)) + " to " + Display(target)
  {
    if Version(e) == target then Ok(e)
    else Err("Cannot upgrade from " + Display(Version(e)) + " to " + Display(target))
  }
}
