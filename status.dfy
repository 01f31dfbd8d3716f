/**
 * The status object present on every Open Opus response (status.rs): an
 * internally tagged union whose `success` member, the string "true" or
 * "false", selects the variant; the other members are the variant's fields.
 */
module Status {
  import opened Types
  import Json

  /** The fields of a successful status; `processingtime` (an f64) is not kept. */
  datatype OkStatus = OkStatus(version: string, source: string, rows: u64, api: string)

  /** The fields of a failed status; only this variant carries an `error` message. */
  datatype ErrStatus = ErrStatus(version: string, error: string, api: string)

  datatype Status = Ok(ok: OkStatus) | Err(err: ErrStatus)

  /** The `success` tag of a status object, when there is one and it is a string. */
  function Tag(j: Json.Value): Option<string> {
    if j.Object? && "success" in j.fields && j.fields["success"].Str?
    then Some(j.fields["success"].s)
    else None
  }

  function StrField(f: map<string, Json.Value>, key: string): Option<string> {
    if key in f && f[key].Str? then Some(f[key].s) else None
  }

  /** A JSON integer in the range of `u64`; anything else fails to decode. */
  function U64Field(f: map<string, Json.Value>, key: string): Option<u64> {
    if key in f && f[key].Int? && 0 <= f[key].i < 0x1_0000_0000_0000_0000
    then Some(f[key].i as u64)
    else None
  }

  /** An f64 field is present: any JSON number decodes as f64. */
  predicate NumberField(f: map<string, Json.Value>, key: string) {
    key in f && (f[key].Int? || f[key].Float?)
  }

  function DecodeOk(f: map<string, Json.Value>): Option<OkStatus> {
    var version :- StrField(f, "version");
    var source :- StrField(f, "source");
    var rows :- U64Field(f, "rows");
    var api :- StrField(f, "api");
    if NumberField(f, "processingtime") then Some(OkStatus(version, source, rows, api)) else None
  }

  function DecodeErr(f: map<string, Json.Value>): Option<ErrStatus> {
    var version :- StrField(f, "version");
    var error :- StrField(f, "error");
    var api :- StrField(f, "api");
    if NumberField(f, "processingtime") then Some(ErrStatus(version, error, api)) else None
  }

  /** The tag string that selects the variant of `s`. */
  function TagOf(s: Status): string {
    if s.Ok? then "true" else "false"
  }

  /** Every field of `s` is the member of the same name in `f`, with the JSON type serde expects. */
  ghost predicate Carries(f: map<string, Json.Value>, s: Status) {
    && NumberField(f, "processingtime")
    && match s
       case Ok(o) =>
         && "version" in f && f["version"] == Json.Str(o.version)
         && "source" in f && f["source"] == Json.Str(o.source)
         && "rows" in f && f["rows"] == Json.Int(o.rows as int)
         && "api" in f && f["api"] == Json.Str(o.api)
       case Err(e) =>
         && "version" in f && f["version"] == Json.Str(e.version)
         && "error" in f && f["error"] == Json.Str(e.error)
         && "api" in f && f["api"] == Json.Str(e.api)
  }

  /**
   * Decodes a status object. The tag alone selects the variant; a missing
   * tag, a tag other than "true" or "false", or a missing or mistyped field
   * of the selected variant is a decode failure.
   */
  function Decode(j: Json.Value): (r: Option<Status>)
    ensures r.Some? ==> Tag(j) == Some(TagOf(r.value))
    ensures r.Some? ==> j.Object? && Carries(j.fields, r.value)
  {
    match Tag(j)
    case Some("true") =>
      var ok :- DecodeOk(j.fields);
      Some(Ok(ok))
    case Some("false") =>
      var err :- DecodeErr(j.fields);
      Some(Err(err))
    case _ => None
  }

  /** A status object as the API sends it for `s` (its processing time is arbitrary). */
  function Encode(s: Status): Json.Value {
    match s
    case Ok(o) =>
      Json.Object(map["success" := Json.Str("true"), "version" := Json.Str(o.version),
                      "source" := Json.Str(o.source), "rows" := Json.Int(o.rows as int),
                      "processingtime" := Json.Float, "api" := Json.Str(o.api)])
    case Err(e) =>
      Json.Object(map["success" := Json.Str("false"), "version" := Json.Str(e.version),
                      "error" := Json.Str(e.error),
                      "processingtime" := Json.Float, "api" := Json.Str(e.api)])
  }

  /** Every status survives being sent and decoded. */
  lemma DecodeEncode(s: Status)
    ensures Decode(Encode(s)) == Some(s)
  {
  }

  /**
   * Completeness: an object whose tag names a variant and which carries all
   * of that variant's fields decodes to exactly that status, whatever other
   * members it has.
   */
  lemma DecodeComplete(f: map<string, Json.Value>, s: Status)
    requires "success" in f && f["success"] == Json.Str(TagOf(s))
    requires Carries(f, s)
    ensures Decode(Json.Object(f)) == Some(s)
  {
  }

  /** A missing tag, a non-string tag or a string tag other than "true" and "false" never decodes. */
  lemma UnknownTagFails(j: Json.Value)
    requires Tag(j) != Some("true") && Tag(j) != Some("false")
    ensures Decode(j) == None
  {
  }

  /** Two objects with the same tag that both decode have the same variant. */
  lemma VariantFollowsTag(j: Json.Value, k: Json.Value)
    requires Decode(j).Some? && Decode(k).Some?
    requires Tag(j) == Tag(k)
    ensures Decode(j).value.Ok? == Decode(k).value.Ok?
  {
  }
}
