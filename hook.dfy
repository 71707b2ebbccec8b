/** telescopeHook: the logger hook that classifies each log entry by its
    "type" field, builds the record's content, writes the record and then,
    only if that write succeeded, writes the record's tags. */
module TelescopeHook {
  import opened Outcomes
  import opened GoStrings
  import opened GoId
  import opened Correlation

  const EntryTypeJob := "job"
  const EntryTypeLog := "log"
  const EntryTypeQuery := "query"
  const EntryTypeRedis := "redis"
  const EntryTypeRequest := "request"

  /** Marker of the pipeline's own statements (its tables are telescope_*). */
  const SelfMarker := "telescope_"

  /** logrus levels, most severe first (numerically 0 to 6). */
  datatype Level = PanicLevel | FatalLevel | ErrorLevel | WarnLevel | InfoLevel | DebugLevel | TraceLevel

  function LevelNumber(l: Level): nat
  {
    match l
    case PanicLevel => 0
    case FatalLevel => 1
    case ErrorLevel => 2
    case WarnLevel => 3
    case InfoLevel => 4
    case DebugLevel => 5
    case TraceLevel => 6
  }

  /** logrus Level.String. */
  function LevelName(l: Level): (name: string)
    ensures name != ""
  {
    match l
    case PanicLevel => "panic"
    case FatalLevel => "fatal"
    case ErrorLevel => "error"
    case WarnLevel => "warning"
    case InfoLevel => "info"
    case DebugLevel => "debug"
    case TraceLevel => "trace"
  }

  lemma LevelNameInjective(a: Level, b: Level)
    requires LevelName(a) == LevelName(b)
    ensures a == b
  {
  }

  /** The dynamic values stored in entry.Data and in content maps. `Other`
      stands for any Go value of a type the hook never asserts on. */
  datatype Value =
    | Str(s: string)
    | Bool(b: bool)
    | Int(i: int)
    | LevelVal(level: Level)
    | StrList(items: seq<string>)
    | Fields(fields: map<string, Value>)
    | Other

  type Fields = map<string, Value>

  datatype Caller = Caller(file: string, line: int)

  /** A logrus entry; `caller` is None when HasCaller() is false. */
  datatype Entry = Entry(level: Level, message: string, data: Fields, caller: Option<Caller>)

  /** What EntryTypeREQUEST reads from the gin context. */
  datatype RequestContext = RequestContext(
    ipAddress: string, httpMethod: string, headers: Value, payload: Value,
    responseStatus: int, response: Value, durationMs: int, memory: int)

  /** Everything a call of Fire takes from its environment: the stack texts,
      the fresh uuid, the clock readings, the gin context and the job map. */
  datatype Env = Env(
    debugStack: string,              // debug.Stack() in EntryTypeLOG
    runtimeStack: string,            // the stack getGoId reads
    newUuid: string,                 // uuid.NewV4().String()
    fallbackClock: string,           // time.Now() formatted, in TelescopeUUID
    createdAt: string,               // time.Now() formatted, for created_at
    request: Option<RequestContext>, // None: entry.Context is not a gin context with a TelescopeResponseWriter
    jobData: Option<Fields>,         // None: "telescope_data" is missing or not a map
    requestPath: Option<string>)     // url.Parse(uri).Path of the request's URI, None on a parse error

  /** A row of telescope_entries (content kept as the map json.Marshal encodes). */
  datatype Record = Record(
    uuid: string, batchId: string, familyHash: Option<string>,
    shouldDisplayOnIndex: int, entryType: string, content: Fields, createdAt: string)

  datatype Row =
    | EntryRow(record: Record)              // telescope_entries
    | TagRow(entryUuid: string, tag: string) // telescope_entries_tags

  /** Writes a call issues, in order, and how the call ends. */
  datatype Plan = Plan(writes: seq<Row>, outcome: Result<()>)

  /** The storage sink: `accepts` is the database's verdict on each Create;
      `attempts` logs every Create in the order issued. */
  class Store {
    const accepts: Row -> bool
    ghost var attempts: seq<Row>

    constructor (accepts: Row -> bool)
      ensures this.accepts == accepts && attempts == []
    {
      this.accepts := accepts;
      attempts := [];
    }

    method Create(row: Row) returns (ok: bool)
      modifies this
      ensures ok == accepts(row)
      ensures attempts == old(attempts) + [row]
    {
      attempts := attempts + [row];
      ok := accepts(row);
    }
  }

  // ---------------------------------------------------------------- dispatch

  /** The event type: "log" when the field is absent; a non-string value
      fails the `m.(string)` assertion. */
  function ResolveType(data: Fields): (r: Result<string>)
    ensures "type" !in data ==> r == Ok(EntryTypeLog)
    ensures "type" in data && data["type"].Str? ==> r == Ok(data["type"].s)
    ensures r.Panic? <==> "type" in data && !data["type"].Str?
  {
    if "type" !in data then Ok(EntryTypeLog)
    else match data["type"]
      case Str(s) => Ok(s)
      case _ => Panic("interface conversion: type is not string")
  }

  /** A handler's result: the entry is skipped, or its content (with the
      entry's Data as it stands afterwards), or a panic. */
  datatype Handled = Dropped | Content(content: Fields, data: Fields) | HandlerPanic(reason: string)

  /** EntryTypeLOG: an error-or-worse entry gets the stack under "debug" in
      its own Data, which the content carries as "context". */
  function LogContent(entry: Entry, debugStack: string, hostname: string): (r: Handled)
    ensures r.Content?
    ensures r.content.Keys == {"level", "message", "context", "hostname"}
    ensures r.content["level"] == LevelVal(entry.level) && r.content["message"] == Str(entry.message)
    ensures r.content["context"] == Fields(r.data)
    ensures LevelNumber(entry.level) <= LevelNumber(ErrorLevel) ==> r.data == entry.data["debug" := Str(debugStack)]
    ensures LevelNumber(entry.level) > LevelNumber(ErrorLevel) ==> r.data == entry.data
  {
    var data := if LevelNumber(entry.level) <= LevelNumber(ErrorLevel)
                then entry.data["debug" := Str(debugStack)] else entry.data;
    Content(map["level" := LevelVal(entry.level), "message" := Str(entry.message),
                "context" := Fields(data), "hostname" := Str(hostname)], data)
  }

  /** EntryTypeQUERY: the pipeline's own statements are dropped; the caller
      position is filled in only when the entry has one. */
  function QueryContent(entry: Entry, hostname: string): (r: Handled)
    ensures r.Dropped? <==> Contains(entry.message, SelfMarker)
    ensures r.Content? ==> r.data == entry.data && "show" !in r.content
    ensures r.Content? ==> (r.content.Keys ==
      {"connection", "bindings", "sql", "time", "slow", "file", "line", "hash", "hostname"})
    ensures r.Content? ==> r.content["sql"] == Str(entry.message) && r.content["slow"] == Bool(false)
    ensures r.Content? && entry.caller.None? ==> r.content["file"] == Str("") && r.content["line"] == Str("")
    ensures r.Content? && entry.caller.Some? ==>
      r.content["file"] == Str(entry.caller.value.file) && r.content["line"] == Str(Itoa(entry.caller.value.line))
    ensures !r.HandlerPanic?
  {
    if Contains(entry.message, SelfMarker) then Dropped
    else
      var file := if entry.caller.Some? then entry.caller.value.file else "";
      var line := if entry.caller.Some? then Itoa(entry.caller.value.line) else "";
      Content(map["connection" := Str("Mysql"), "bindings" := Str(""), "sql" := Str(entry.message),
                  "time" := Str("0"), "slow" := Bool(false), "file" := Str(file),
                  "line" := Str(line), "hash" := Str(""), "hostname" := Str(hostname)], entry.data)
  }

  /** EntryTypeREDIS: the command text on the "cache" connection. */
  function RedisContent(entry: Entry, hostname: string): (r: Handled)
    ensures r.Content? && r.data == entry.data
    ensures r.content.Keys == {"connection", "command", "time", "hostname"}
    ensures r.content["command"] == Str(entry.message) && r.content["connection"] == Str("cache")
  {
    Content(map["connection" := Str("cache"), "command" := Str(entry.message),
                "time" := Str("0"), "hostname" := Str(hostname)], entry.data)
  }

  /** EntryTypeREQUEST with the gin context given as `request`; the URI is
      the entry's message. */
  function RequestContent(entry: Entry, request: Option<RequestContext>, hostname: string): (r: Handled)
    ensures r.HandlerPanic? <==> request.None?
    ensures r.Content? ==> r.data == entry.data && "uri" in r.content && "response_status" in r.content
    ensures r.Content? ==> r.content["uri"] == Str(entry.message)
    ensures r.Content? ==> r.content["response_status"] == Int(request.value.responseStatus)
    ensures !r.Dropped?
  {
    match request
    case None => HandlerPanic("interface conversion: entry.Context is not a *gin.Context")
    case Some(c) =>
      Content(map["ip_address" := Str(c.ipAddress), "uri" := Str(entry.message),
                  "method" := Str(c.httpMethod), "headers" := c.headers, "payload" := c.payload,
                  "response_status" := Int(c.responseStatus), "response" := c.response,
                  "duration" := Int(c.durationMs), "memory" := Int(c.memory),
                  "hostname" := Str(hostname)], entry.data)
  }

  /** EntryTypeJob: the job runner's map, with the hostname added. */
  function JobContent(entry: Entry, jobData: Option<Fields>, hostname: string): (r: Handled)
    ensures r.HandlerPanic? <==> jobData.None?
    ensures r.Content? ==> r.content == jobData.value["hostname" := Str(hostname)] && r.data == entry.data
    ensures !r.Dropped?
  {
    match jobData
    case None => HandlerPanic("interface conversion: telescope_data is not a map")
    case Some(m) => Content(m["hostname" := Str(hostname)], entry.data)
  }

  /** The type switch of Fire; every type it does not name, "log" included,
      goes to EntryTypeLOG. */
  function Dispatch(mtype: string, entry: Entry, env: Env, hostname: string): Handled
  {
    if mtype == EntryTypeQuery then QueryContent(entry, hostname)
    else if mtype == EntryTypeRequest then RequestContent(entry, env.request, hostname)
    else if mtype == EntryTypeRedis then RedisContent(entry, hostname)
    else if mtype == EntryTypeJob then JobContent(entry, env.jobData, hostname)
    else LogContent(entry, env.debugStack, hostname)
  }

  /** Only a self-logging query is dropped, and every type the switch does
      not name is handled as a log. */
  lemma DispatchRules(mtype: string, entry: Entry, env: Env, hostname: string)
    ensures Dispatch(mtype, entry, env, hostname).Dropped? <==>
      mtype == EntryTypeQuery && Contains(entry.message, SelfMarker)
    ensures mtype !in {EntryTypeQuery, EntryTypeRequest, EntryTypeRedis, EntryTypeJob} ==>
      Dispatch(mtype, entry, env, hostname) == LogContent(entry, env.debugStack, hostname)
  {
  }

  // -------------------------------------------------------------------- tags

  /** The tag CreateTag derives from the content, "" for none; a present
      field of the wrong dynamic type fails its assertion. */
  function DerivedTag(mtype: string, content: Fields, requestPath: Option<string>): Result<string>
  {
    if mtype == EntryTypeLog then LevelTag(content)
    else if mtype == EntryTypeQuery then ShowTag(content)
    else if mtype == EntryTypeRequest then PathTag(content, requestPath)
    else if mtype == EntryTypeJob then FailedTag(content)
    else Ok("")
  }

  /** The "log" case: the level's name. */
  function LevelTag(content: Fields): Result<string>
  {
    if "level" !in content then Ok("")
    else match content["level"]
      case LevelVal(l) => Ok(LevelName(l))
      case _ => Panic("interface conversion: level is not logrus.Level")
  }

  /** The "query" case: "show" when content["show"] is true. */
  function ShowTag(content: Fields): Result<string>
  {
    if "show" !in content then Ok("")
    else match content["show"]
      case Bool(b) => Ok(if b then "show" else "")
      case _ => Panic("interface conversion: show is not bool")
  }

  /** The "request" case: the path of the URI. */
  function PathTag(content: Fields, requestPath: Option<string>): Result<string>
  {
    if "uri" !in content then Ok("")
    else match content["uri"]
      case Str(_) => Ok(match requestPath case Some(p) => p case None => "")
      case _ => Panic("interface conversion: uri is not string")
  }

  /** The "job" case: "failed" when content["status"] is "failed". */
  function FailedTag(content: Fields): Result<string>
  {
    if "status" !in content then Ok("")
    else match content["status"]
      case Str(st) => Ok(if st == "failed" then "failed" else "")
      case _ => Panic("interface conversion: status is not string")
  }

  /** The derivation rules: a log gives its level's name, a query "show"
      exactly when content["show"] is true, a job "failed" exactly when
      content["status"] is "failed", a request its URI's path, and every other
      type nothing. */
  lemma DerivedTagRules(mtype: string, content: Fields, requestPath: Option<string>)
    ensures var r := DerivedTag(mtype, content, requestPath);
      && (mtype == EntryTypeLog && "level" in content && content["level"].LevelVal?
          ==> r == Ok(LevelName(content["level"].level)))
      && (mtype == EntryTypeLog && r.Ok? ==> r.value != "" || "level" !in content)
      && (mtype == EntryTypeQuery && r.Ok? ==>
          (r.value == "show" <==> "show" in content && content["show"] == Bool(true)) &&
          (r.value != "show" ==> r.value == ""))
      && (mtype == EntryTypeJob && r.Ok? ==>
          (r.value == "failed" <==> "status" in content && content["status"] == Str("failed")) &&
          (r.value != "failed" ==> r.value == ""))
      && (mtype == EntryTypeRequest && "uri" in content && content["uri"].Str? ==>
          r == Ok(match requestPath case Some(p) => p case None => ""))
      && (mtype !in {EntryTypeLog, EntryTypeQuery, EntryTypeRequest, EntryTypeJob} ==> r == Ok(""))
  {
  }

  /** The user tags: entry.Data["tags"] when it holds a []string. */
  function UserTags(data: Fields): seq<string>
  {
    if "tags" in data && data["tags"].StrList? then data["tags"].items else []
  }

  /** One tag row per tag, in order, all for the record `uuid`. */
  function TagRows(uuid: string, tags: seq<string>): (rows: seq<Row>)
    ensures |rows| == |tags|
    ensures forall k :: 0 <= k < |tags| ==> rows[k] == TagRow(uuid, tags[k])
  {
    if tags == [] then [] else TagRows(uuid, tags[..|tags| - 1]) + [TagRow(uuid, tags[|tags| - 1])]
  }

  /** The derived tag is written only when it is not empty. */
  function DerivedRows(uuid: string, tag: string): seq<Row>
  {
    if tag == "" then [] else [TagRow(uuid, tag)]
  }

  /** The writes of CreateTag: the derived tag, then every user tag. */
  function TagPlan(uuid: string, mtype: string, content: Fields, data: Fields,
                   requestPath: Option<string>): (p: Plan)
    ensures p.outcome.Panic? <==> DerivedTag(mtype, content, requestPath).Panic?
    ensures p.outcome.Panic? ==> p.writes == []
    ensures p.outcome.Ok? ==> (p.writes ==
      DerivedRows(uuid, DerivedTag(mtype, content, requestPath).value) + TagRows(uuid, UserTags(data)))
    ensures forall k :: 0 <= k < |p.writes| ==> p.writes[k].TagRow? && p.writes[k].entryUuid == uuid
  {
    match DerivedTag(mtype, content, requestPath)
    case Panic(why) => Plan([], Panic(why))
    case Ok(tag) => Plan(DerivedRows(uuid, tag) + TagRows(uuid, UserTags(data)), Ok(()))
  }

  /** The writes and outcome of Fire, given the registry contents `cids`
      and the database's verdict `accepts`. */
  function FirePlan(entry: Entry, env: Env, hostname: string, cids: map<nat, string>,
                    accepts: Row -> bool): (p: Plan)
    ensures p.writes != [] ==> p.writes[0].EntryRow? && p.writes[0].record.uuid == env.newUuid
    ensures forall k :: 1 <= k < |p.writes| ==> p.writes[k].TagRow? && p.writes[k].entryUuid == env.newUuid
  {
    match ResolveType(entry.data)
    case Panic(why) => Plan([], Panic(why))
    case Ok(mtype) =>
      match Dispatch(mtype, entry, env, hostname)
      case Dropped => Plan([], Ok(()))
      case HandlerPanic(why) => Plan([], Panic(why))
      case Content(content, data) => PersistPlan(mtype, content, data, env, cids, accepts)
  }

  function BatchOf(cids: map<nat, string>, env: Env): Result<string>
  {
    match GetGoId(env.runtimeStack)
    case Panic(why) => Panic(why)
    case Ok(cid) => Ok(Lookup(cids, cid, env.fallbackClock))
  }

  /** The record Fire writes for content of type `mtype` in batch `batchId`. */
  function EntryRecord(mtype: string, content: Fields, env: Env, batchId: string): Record
  {
    Record(env.newUuid, batchId, None, 1, mtype, content, env.createdAt)
  }

  /** The writes after the content is built: the record with the batch id
      of the calling goroutine, then, if it was accepted, its tags. */
  function PersistPlan(mtype: string, content: Fields, data: Fields, env: Env,
                       cids: map<nat, string>, accepts: Row -> bool): (p: Plan)
    ensures p.writes != [] ==>
      (&& p.writes[0].EntryRow? && p.writes[0].record.uuid == env.newUuid
       && p.writes[0].record.entryType == mtype && p.writes[0].record.content == content)
    ensures forall k :: 1 <= k < |p.writes| ==> p.writes[k].TagRow? && p.writes[k].entryUuid == env.newUuid
  {
    match BatchOf(cids, env)
    case Panic(why) => Plan([], Panic(why))
    case Ok(batch) => RecordPlan(EntryRecord(mtype, content, env, batch), data, env.requestPath, accepts)
  }

  /** The record write, then, only if it was accepted, its tags; a refused
      record ends with nil. */
  function RecordPlan(record: Record, data: Fields, requestPath: Option<string>,
                      accepts: Row -> bool): (p: Plan)
    ensures |p.writes| >= 1 && p.writes[0] == EntryRow(record)
    ensures !accepts(EntryRow(record)) ==> p == Plan([EntryRow(record)], Ok(()))
    ensures forall k :: 1 <= k < |p.writes| ==> p.writes[k].TagRow? && p.writes[k].entryUuid == record.uuid
  {
    if !accepts(EntryRow(record)) then Plan([EntryRow(record)], Ok(()))
    else
      var tags := TagPlan(record.uuid, record.entryType, record.content, data, requestPath);
      Plan([EntryRow(record)] + tags.writes, tags.outcome)
  }

  // -------------------------------------------------------------------- hook

  class Hook {
    const mysql: Store
    const cids: CidRegistry
    const hostname: string

    constructor (mysql: Store, cids: CidRegistry, hostname: string)
      ensures this.mysql == mysql && this.cids == cids && this.hostname == hostname
    {
      this.mysql := mysql;
      this.cids := cids;
      this.hostname := hostname;
    }

    /** CreateTag: derive the content's tag, write it unless empty, then
        write each user tag in order whatever the earlier writes returned. */
    method CreateTag(uuid: string, mtype: string, content: Fields, data: Fields,
                     requestPath: Option<string>) returns (r: Result<()>)
      modifies mysql
      ensures mysql.attempts == old(mysql.attempts) + TagPlan(uuid, mtype, content, data, requestPath).writes
      ensures r == TagPlan(uuid, mtype, content, data, requestPath).outcome
    {
      ghost var plan := TagPlan(uuid, mtype, content, data, requestPath);
      var tag := DerivedTag(mtype, content, requestPath);
      if tag.Panic? {
        return Panic(tag.reason);
      }
      assert plan.writes == DerivedRows(uuid, tag.value) + TagRows(uuid, UserTags(data));
      if tag.value != "" {
        var _ := mysql.Create(TagRow(uuid, tag.value));
      }
      assert mysql.attempts == old(mysql.attempts) + DerivedRows(uuid, tag.value);
      CreateUserTags(uuid, UserTags(data));
      r := Ok(());
    }

    /** The loop over entry.Data["tags"]: one write per tag, in list order;
        the result of each Create is ignored. */
    method CreateUserTags(uuid: string, tags: seq<string>)
      modifies mysql
      ensures mysql.attempts == old(mysql.attempts) + TagRows(uuid, tags)
    {
      var i := 0;
      while i < |tags|
        invariant 0 <= i <= |tags|
        invariant mysql.attempts == old(mysql.attempts) + TagRows(uuid, tags[..i])
      {
        var _ := mysql.Create(TagRow(uuid, tags[i]));
        assert tags[..i + 1][..i] == tags[..i];
        i := i + 1;
      }
      assert tags[..i] == tags;
    }

    /** Fire: resolve the type, build the content, write the record with the
        calling goroutine's batch id, and write the tags only if the record
        write succeeded. Fire itself always returns nil unless it panics. */
    method Fire(entry: Entry, env: Env) returns (r: Result<()>)
      modifies mysql
      ensures mysql.attempts == old(mysql.attempts) +
        FirePlan(entry, env, hostname, cids.cidToUuid, mysql.accepts).writes
      ensures r == FirePlan(entry, env, hostname, cids.cidToUuid, mysql.accepts).outcome
    {
      var mtype := ResolveType(entry.data);
      if mtype.Panic? {
        return Panic(mtype.reason);
      }
      var handled := Dispatch(mtype.value, entry, env, hostname);
      match handled
      case Dropped =>
        return Ok(());
      case HandlerPanic(why) =>
        return Panic(why);
      case Content(content, data) =>
        r := Persist(mtype.value, content, data, env);
    }

    /** The second half of Fire: the batch id of the calling goroutine,
        then the writes. */
    method Persist(mtype: string, content: Fields, data: Fields, env: Env) returns (r: Result<()>)
      modifies mysql
      ensures mysql.attempts == old(mysql.attempts) +
        PersistPlan(mtype, content, data, env, cids.cidToUuid, mysql.accepts).writes
      ensures r == PersistPlan(mtype, content, data, env, cids.cidToUuid, mysql.accepts).outcome
    {
      var id := env.newUuid;
      var batch := cids.Uuid(env.runtimeStack, env.fallbackClock);
      assert batch == BatchOf(cids.cidToUuid, env);
      if batch.Panic? {
        return Panic(batch.reason);
      }
      r := WriteRecord(EntryRecord(mtype, content, env, batch.value), data, env.requestPath);
    }

    /** The record is written first; its tags are written only when that
        write succeeded, and a failed record write ends Fire with nil. */
    method WriteRecord(record: Record, data: Fields, requestPath: Option<string>)
      returns (r: Result<()>)
      modifies mysql
      ensures mysql.attempts == old(mysql.attempts) + RecordPlan(record, data, requestPath, mysql.accepts).writes
      ensures r == RecordPlan(record, data, requestPath, mysql.accepts).outcome
    {
      var ok := mysql.Create(EntryRow(record));
      if ok {
        r := CreateTag(record.uuid, record.entryType, record.content, data, requestPath);
      } else {
        r := Ok(());
      }
    }
  }
}
