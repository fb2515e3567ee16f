/**
 * The three mnp_gate handlers: the JSON export of `mnp_gate_config`
 * (`MnpGateHandler`), the page listing the same table
 * (`MnpGatePageHandler.ServeHTTP`) and the page listing `mnp_gate`
 * (`MnpGatesListHandler.ServeHTTP`). Each reads a result set row by row,
 * maps the nullable columns and either writes every row, in order, or stops
 * at the first error.
 */
module MnpGate {
  import opened Wrappers
  import opened JsonValue
  import opened SqlRows
  import opened Responses

  // ---------------------------------------------------------------------------
  // The config export (MnpGateHandler)

  /** A row of `mnp_gate_config` as scanned: NULL columns are `None`. */
  datatype ConfigRow = ConfigRow(
    id: int,
    engine: Option<string>,
    maxWorkers: Option<int>,
    cacheDays: Option<int>,
    config: Option<string>)

  /**
   * `MnpGateConfig`: the scanned columns, the raw config text (never
   * encoded) and the parsed config, `None` standing for a nil map.
   */
  datatype GateConfig = GateConfig(
    id: int,
    engine: Option<string>,
    maxWorkers: Option<int>,
    cacheDays: Option<int>,
    configRaw: Option<string>,
    config: Option<map<string, Json>>)

  const RawKey: string := "_raw"
  const JsonContentType: string := "application/json; charset=utf-8"

  /** The single-entry map that keeps config text which is not a JSON object. */
  function RawConfig(raw: string): map<string, Json>
  {
    map[RawKey := JString(raw)]
  }

  /**
   * The config `MnpGateHandler` attaches to a row. `parse` is the JSON parser
   * (`None` when `json.Unmarshal` fails). Unmarshalling into a map succeeds on an
   * object, and on the literal `null`, which leaves the map nil; anything
   * else fails and the raw text is kept under "_raw".
   */
  function AttachConfig(raw: Option<string>, parse: string -> Option<Json>): (cfg: Option<map<string, Json>>)
    ensures cfg.Some? ==> raw.Some? && raw.value != ""
    ensures raw.Some? && raw.value != "" && parse(raw.value).Some? && parse(raw.value).value.JObject? ==>
      cfg == Some(parse(raw.value).value.fields)
    ensures raw.Some? && raw.value != "" && parse(raw.value) == Some(JNull) ==> cfg.None?
    ensures raw.Some? && raw.value != "" && (parse(raw.value).None? || !(parse(raw.value).value.JObject? || parse(raw.value).value.JNull?)) ==>
      cfg == Some(RawConfig(raw.value))
  {
    if raw.Some? && raw.value != "" then
      match parse(raw.value)
      case Some(JObject(m)) => Some(m)
      case Some(JNull) => None
      case _ => Some(RawConfig(raw.value))
    else None
  }

  /** The JSON value a config stands for: a nil map is `null`. */
  function ConfigJson(cfg: Option<map<string, Json>>): Json
  {
    if cfg.Some? then JObject(cfg.value) else JNull
  }

  /**
   * The raw config text is never dropped: either parsing it gives exactly
   * the attached config, or the config holds it verbatim under "_raw".
   */
  lemma RawNeverDropped(raw: string, parse: string -> Option<Json>)
    requires raw != ""
    ensures var cfg := AttachConfig(Some(raw), parse);
      parse(raw) == Some(ConfigJson(cfg)) || cfg == Some(RawConfig(raw))
  {
  }

  /** A NULL or empty config column attaches nothing. */
  lemma NoConfigWithoutText(raw: Option<string>, parse: string -> Option<Json>)
    requires raw.None? || raw == Some("")
    ensures AttachConfig(raw, parse).None?
  {
  }

  /** The `MnpGateConfig` record `MnpGateHandler` builds for a scanned row. */
  function Record(r: ConfigRow, parse: string -> Option<Json>): (rec: GateConfig)
    ensures rec.id == r.id && rec.engine == r.engine
    ensures rec.maxWorkers == r.maxWorkers && rec.cacheDays == r.cacheDays
    ensures rec.configRaw == r.config
    ensures rec.config.Some? ==> r.config.Some? && r.config.value != ""
    ensures rec.config == AttachConfig(r.config, parse)
  {
    GateConfig(r.id, r.engine, r.maxWorkers, r.cacheDays, r.config, AttachConfig(r.config, parse))
  }

  // JSON encoding of a record. `sql.NullString` and `sql.NullInt64` have no
  // JSON methods of their own, so they encode as their struct fields.

  function IntJson(n: int): Json
  {
    JNumber(n as real)
  }

  function NullStringJson(s: Option<string>): Json
  {
    JObject(map["String" := JString(OrEmpty(s)), "Valid" := JBool(s.Some?)])
  }

  function NullInt64Json(n: Option<int>): Json
  {
    JObject(map["Int64" := IntJson(OrZero(n)), "Valid" := JBool(n.Some?)])
  }

  /** `omitempty` drops a nil map and an empty one alike. */
  predicate ConfigShown(cfg: Option<map<string, Json>>)
  {
    cfg.Some? && cfg.value != map[]
  }

  /** The JSON object `encoding/json` writes for an `MnpGateConfig`. */
  function RecordJson(rec: GateConfig): (j: Json)
    ensures j.JObject?
    ensures "config" in j.fields <==> ConfigShown(rec.config)
    ensures "id" in j.fields && "engine" in j.fields && "max_workers" in j.fields && "cache_days" in j.fields
    ensures j.fields.Keys <= {"id", "engine", "max_workers", "cache_days", "config"}
  {
    var fields := map[
      "id" := IntJson(rec.id),
      "engine" := NullStringJson(rec.engine),
      "max_workers" := NullInt64Json(rec.maxWorkers),
      "cache_days" := NullInt64Json(rec.cacheDays)];
    if ConfigShown(rec.config) then JObject(fields["config" := JObject(rec.config.value)])
    else JObject(fields)
  }

  // Decoding, the partner of the encoding above.

  function IntFromJson(j: Json): Option<int>
  {
    if j.JNumber? && j.n.Floor as real == j.n then Some(j.n.Floor) else None
  }

  function NullStringFromJson(j: Json): Option<Option<string>>
  {
    if j.JObject? && "String" in j.fields && "Valid" in j.fields &&
       j.fields["String"].JString? && j.fields["Valid"].JBool?
    then Some(if j.fields["Valid"].b then Some(j.fields["String"].s) else None)
    else None
  }

  function NullInt64FromJson(j: Json): Option<Option<int>>
  {
    if j.JObject? && "Int64" in j.fields && "Valid" in j.fields && j.fields["Valid"].JBool?
    then
      var n := IntFromJson(j.fields["Int64"]);
      if n.Some? then Some(if j.fields["Valid"].b then Some(n.value) else None) else None
    else None
  }

  /** Reads an encoded record back; the raw text is not in the JSON. */
  function RecordFromJson(j: Json): Option<GateConfig>
  {
    if j.JObject? && "id" in j.fields && "engine" in j.fields &&
       "max_workers" in j.fields && "cache_days" in j.fields
    then
      var id := IntFromJson(j.fields["id"]);
      var engine := NullStringFromJson(j.fields["engine"]);
      var maxWorkers := NullInt64FromJson(j.fields["max_workers"]);
      var cacheDays := NullInt64FromJson(j.fields["cache_days"]);
      var config := if "config" in j.fields && j.fields["config"].JObject? then Some(j.fields["config"].fields) else None;
      if id.Some? && engine.Some? && maxWorkers.Some? && cacheDays.Some? then
        Some(GateConfig(id.value, engine.value, maxWorkers.value, cacheDays.value, None, config))
      else None
    else None
  }

  /** What of a record the JSON carries: everything but the raw text, with an empty config as absent. */
  function Exported(rec: GateConfig): GateConfig
  {
    rec.(configRaw := None, config := if ConfigShown(rec.config) then rec.config else None)
  }

  lemma NullStringRoundTrip(s: Option<string>)
    ensures NullStringFromJson(NullStringJson(s)) == Some(s)
  {
  }

  lemma NullInt64RoundTrip(n: Option<int>)
    ensures NullInt64FromJson(NullInt64Json(n)) == Some(n)
  {
    assert IntFromJson(IntJson(OrZero(n))) == Some(OrZero(n));
  }

  /** Encoding a record and reading it back loses only the raw text and an empty config. */
  lemma RecordRoundTrip(rec: GateConfig)
    ensures RecordFromJson(RecordJson(rec)) == Some(Exported(rec))
  {
    NullStringRoundTrip(rec.engine);
    NullInt64RoundTrip(rec.maxWorkers);
    NullInt64RoundTrip(rec.cacheDays);
    assert IntFromJson(IntJson(rec.id)) == Some(rec.id);
  }

  /** The JSON array of records, in order. */
  function RecordsJson(recs: seq<GateConfig>): (items: seq<Json>)
    ensures |items| == |recs|
    ensures forall i :: 0 <= i < |recs| ==> items[i] == RecordJson(recs[i])
  {
    if recs == [] then [] else [RecordJson(recs[0])] + RecordsJson(recs[1..])
  }

  /** `enc.Encode(results)`: a nil slice, when no row was read, encodes as `null`. */
  function ResultsJson(recs: seq<GateConfig>): (j: Json)
    ensures recs == [] <==> j == JNull
    ensures recs != [] ==> j == JArray(RecordsJson(recs))
  {
    if recs == [] then JNull else JArray(RecordsJson(recs))
  }

  /**
   * `MnpGateHandler`: the query's rows as a JSON array, one
   * object per row in row order, or the first error.
   */
  method ExportConfigs(answer: QueryAnswer<ConfigRow>, parse: string -> Option<Json>) returns (resp: Response<()>)
    ensures answer.QueryFailed? ==>
      resp == HttpError(StatusInternalServerError, "Database query error: " + answer.message)
    ensures answer.Rows? && StreamError(answer.stream).Some? ==>
      resp == HttpError(StatusInternalServerError, StreamError(answer.stream).value)
    ensures answer.Rows? && StreamError(answer.stream).None? ==>
      resp.Encoded? && resp.contentType == JsonContentType &&
      (answer.stream.scans == [] <==> resp.body == JNull)
    ensures answer.Rows? && StreamError(answer.stream).None? && answer.stream.scans != [] ==>
      resp.body.JArray? && |resp.body.items| == |answer.stream.scans| &&
      forall i :: 0 <= i < |answer.stream.scans| ==>
        resp.body.items[i] == RecordJson(Record(answer.stream.scans[i].value, parse))
  {
    match answer
    case QueryFailed(message, _) =>
      resp := HttpError(StatusInternalServerError, "Database query error: " + message);
    case Rows(stream) =>
      var results := Collect(stream, (r: ConfigRow) => Record(r, parse));
      if results.Failure? {
        resp := HttpError(StatusInternalServerError, results.error);
        return;
      }
      resp := Encoded(JsonContentType, ResultsJson(results.value));
  }

  // ---------------------------------------------------------------------------
  // The config page (MnpGatePageHandler.ServeHTTP)

  /** The page's row: NULL columns read as their zero values. */
  datatype ConfigView = ConfigView(id: int, engine: string, maxWorkers: int, cacheDays: int, config: string)

  /** Two nullable text columns that read the same: equal, or NULL and "". */
  predicate SameText(a: Option<string>, b: Option<string>)
  {
    a == b || (a == None && b == Some("")) || (a == Some("") && b == None)
  }

  /** Two nullable integer columns that read the same: equal, or NULL and 0. */
  predicate SameInt(a: Option<int>, b: Option<int>)
  {
    a == b || (a == None && b == Some(0)) || (a == Some(0) && b == None)
  }

  /** The `cfg` struct literal `MnpGatePageHandler.ServeHTTP` builds per row. */
  function ViewConfig(r: ConfigRow): (v: ConfigView)
    ensures v.id == r.id
    ensures ReadsText(r.engine, v.engine) && ReadsInt(r.maxWorkers, v.maxWorkers)
    ensures ReadsInt(r.cacheDays, v.cacheDays) && ReadsText(r.config, v.config)
  {
    ConfigView(r.id, OrEmpty(r.engine), OrZero(r.maxWorkers), OrZero(r.cacheDays), OrEmpty(r.config))
  }

  /** Two rows show the same exactly when they differ at most by NULL versus the zero value. */
  lemma ViewConfigSameIff(r: ConfigRow, r': ConfigRow)
    ensures ViewConfig(r) == ViewConfig(r') <==>
      r.id == r'.id && SameText(r.engine, r'.engine) && SameInt(r.maxWorkers, r'.maxWorkers) &&
      SameInt(r.cacheDays, r'.cacheDays) && SameText(r.config, r'.config)
  {
  }

  /**
   * `MnpGatePageHandler.ServeHTTP`: the rows shown in order,
   * an empty page when the query failed without a rows handle, or the first
   * error.
   */
  method ConfigPage(answer: QueryAnswer<ConfigRow>) returns (resp: Response<seq<ConfigView>>)
    ensures answer.QueryFailed? && answer.nilHandle ==> resp == Rendered("mnp_gate", [])
    ensures answer.QueryFailed? && !answer.nilHandle ==>
      resp == HttpError(StatusInternalServerError, "Database query error: " + answer.message)
    ensures answer.Rows? ==> (resp.HttpError? <==> StreamError(answer.stream).Some?)
    ensures answer.Rows? && StreamError(answer.stream).Some? ==>
      resp == HttpError(StatusInternalServerError, StreamError(answer.stream).value)
    ensures answer.Rows? && StreamError(answer.stream).None? ==>
      resp.Rendered? && resp.template == "mnp_gate" && |resp.data| == |answer.stream.scans| &&
      forall i :: 0 <= i < |answer.stream.scans| ==> resp.data[i] == ViewConfig(answer.stream.scans[i].value)
  {
    match answer
    case QueryFailed(message, nilHandle) =>
      if nilHandle {
        resp := Rendered("mnp_gate", []);
      } else {
        resp := HttpError(StatusInternalServerError, "Database query error: " + message);
      }
    case Rows(stream) =>
      var configs := Collect(stream, ViewConfig);
      if configs.Failure? {
        resp := HttpError(StatusInternalServerError, configs.error);
        return;
      }
      resp := Rendered("mnp_gate", configs.value);
  }

  // ---------------------------------------------------------------------------
  // The gate list (MnpGatesListHandler.ServeHTTP)

  /** A row of `mnp_gate` as scanned: every column but `id` is nullable. */
  datatype GateRow = GateRow(
    id: int,
    instanceId: Option<int>,
    groupId: Option<int>,
    supplierId: Option<int>,
    name: Option<string>,
    codeName: Option<string>,
    engineId: Option<int>,
    throughputQueries: Option<int>,
    connection: Option<string>,
    billingAccountId: Option<int>,
    priceListId: Option<int>,
    kind: Option<string>,
    linkedMnpAccountId: Option<int>,
    status: Option<string>,
    insertDt: Option<string>,
    statusDt: Option<string>,
    setupDate: Option<string>)

  /** The page's row: NULL columns read as their zero values. */
  datatype GateView = GateView(
    id: int,
    instanceId: int,
    groupId: int,
    supplierId: int,
    name: string,
    codeName: string,
    engineId: int,
    throughputQueries: int,
    connection: string,
    billingAccountId: int,
    priceListId: int,
    kind: string,
    linkedMnpAccountId: int,
    status: string,
    insertDt: string,
    statusDt: string,
    setupDate: string)

  /** Every nullable column of a gate row holds a value. */
  predicate NoNulls(r: GateRow)
  {
    r.instanceId.Some? && r.groupId.Some? && r.supplierId.Some? && r.name.Some? &&
    r.codeName.Some? && r.engineId.Some? && r.throughputQueries.Some? && r.connection.Some? &&
    r.billingAccountId.Some? && r.priceListId.Some? && r.kind.Some? && r.linkedMnpAccountId.Some? &&
    r.status.Some? && r.insertDt.Some? && r.statusDt.Some? && r.setupDate.Some?
  }

  /** The `gate` struct literal `MnpGatesListHandler.ServeHTTP` builds per row. */
  function ViewGate(r: GateRow): (v: GateView)
    ensures v.id == r.id
    ensures ReadsInt(r.instanceId, v.instanceId) && ReadsInt(r.groupId, v.groupId)
    ensures ReadsInt(r.supplierId, v.supplierId) && ReadsText(r.name, v.name)
    ensures ReadsText(r.codeName, v.codeName) && ReadsInt(r.engineId, v.engineId)
    ensures ReadsInt(r.throughputQueries, v.throughputQueries) && ReadsText(r.connection, v.connection)
    ensures ReadsInt(r.billingAccountId, v.billingAccountId) && ReadsInt(r.priceListId, v.priceListId)
    ensures ReadsText(r.kind, v.kind) && ReadsInt(r.linkedMnpAccountId, v.linkedMnpAccountId)
    ensures ReadsText(r.status, v.status) && ReadsText(r.insertDt, v.insertDt)
    ensures ReadsText(r.statusDt, v.statusDt) && ReadsText(r.setupDate, v.setupDate)
    ensures NoNulls(r) ==>
      v == GateView(r.id, r.instanceId.value, r.groupId.value, r.supplierId.value, r.name.value,
        r.codeName.value, r.engineId.value, r.throughputQueries.value, r.connection.value,
        r.billingAccountId.value, r.priceListId.value, r.kind.value, r.linkedMnpAccountId.value,
        r.status.value, r.insertDt.value, r.statusDt.value, r.setupDate.value)
  {
    GateView(
      r.id,
      OrZero(r.instanceId),
      OrZero(r.groupId),
      OrZero(r.supplierId),
      OrEmpty(r.name),
      OrEmpty(r.codeName),
      OrZero(r.engineId),
      OrZero(r.throughputQueries),
      OrEmpty(r.connection),
      OrZero(r.billingAccountId),
      OrZero(r.priceListId),
      OrEmpty(r.kind),
      OrZero(r.linkedMnpAccountId),
      OrEmpty(r.status),
      OrEmpty(r.insertDt),
      OrEmpty(r.statusDt),
      OrEmpty(r.setupDate))
  }

  /** A row whose nullable columns are all NULL shows as the zero values. */
  lemma AllNullGateShowsDefaults(id: int)
    ensures ViewGate(GateRow(id, None, None, None, None, None, None, None, None, None, None, None, None, None, None, None, None)) ==
      GateView(id, 0, 0, 0, "", "", 0, 0, "", 0, 0, "", 0, "", "", "", "")
  {
  }

  /** The gate row a view shows when read back with no NULLs. */
  function GateRowOf(v: GateView): GateRow
  {
    GateRow(v.id, Some(v.instanceId), Some(v.groupId), Some(v.supplierId), Some(v.name),
      Some(v.codeName), Some(v.engineId), Some(v.throughputQueries), Some(v.connection),
      Some(v.billingAccountId), Some(v.priceListId), Some(v.kind), Some(v.linkedMnpAccountId),
      Some(v.status), Some(v.insertDt), Some(v.statusDt), Some(v.setupDate))
  }

  /** On rows without NULLs the mapping is invertible: nothing is lost. */
  lemma ViewGateInverse(r: GateRow)
    requires NoNulls(r)
    ensures GateRowOf(ViewGate(r)) == r
  {
  }

  /**
   * `MnpGatesListHandler.ServeHTTP`: the rows shown in
   * order, an empty list when the query failed for any reason, or the first
   * error while reading the rows.
   */
  method GatesList(answer: QueryAnswer<GateRow>) returns (resp: Response<seq<GateView>>)
    ensures answer.QueryFailed? ==> resp == Rendered("mnp_gates", [])
    ensures answer.Rows? ==> (resp.HttpError? <==> StreamError(answer.stream).Some?)
    ensures answer.Rows? && StreamError(answer.stream).Some? ==>
      resp == HttpError(StatusInternalServerError, StreamError(answer.stream).value)
    ensures answer.Rows? && StreamError(answer.stream).None? ==>
      resp.Rendered? && resp.template == "mnp_gates" && |resp.data| == |answer.stream.scans| &&
      forall i :: 0 <= i < |answer.stream.scans| ==> resp.data[i] == ViewGate(answer.stream.scans[i].value)
  {
    match answer
    case QueryFailed(_, _) =>
      resp := Rendered("mnp_gates", []);
    case Rows(stream) =>
      var gates := Collect(stream, ViewGate);
      if gates.Failure? {
        resp := HttpError(StatusInternalServerError, gates.error);
        return;
      }
      resp := Rendered("mnp_gates", gates.value);
  }
}
