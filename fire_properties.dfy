/** What Fire promises, stated over FirePlan: the writes a call issues and
    how it ends. */
module FireProperties {
  import opened Outcomes
  import opened GoStrings
  import opened GoId
  import opened Correlation
  import opened TelescopeHook

  /** An entry without a "type" field is recorded as a log entry. */
  lemma FireUntypedIsLog(entry: Entry, env: Env, hostname: string, cids: map<nat, string>,
                         accepts: Row -> bool)
    requires "type" !in entry.data
    ensures var p := FirePlan(entry, env, hostname, cids, accepts);
      && (GetGoId(env.runtimeStack).Ok? <==> p.writes != [])
      && (p.writes != [] ==>
           && p.writes[0].EntryRow?
           && p.writes[0].record.entryType == EntryTypeLog
           && p.writes[0].record.content == LogContent(entry, env.debugStack, hostname).content)
  {
    DispatchRules(EntryTypeLog, entry, env, hostname);
  }

  /** A query carrying the marker of the pipeline's own tables writes
      nothing and returns nil. */
  lemma FireDropsSelfQuery(entry: Entry, env: Env, hostname: string, cids: map<nat, string>,
                           accepts: Row -> bool)
    requires ResolveType(entry.data) == Ok(EntryTypeQuery)
    requires Contains(entry.message, SelfMarker)
    ensures FirePlan(entry, env, hostname, cids, accepts) == Plan([], Ok(()))
  {
  }

  /** Any write means the type resolved, the handler built content and the
      goroutine id parsed; the plan is then the record plan. */
  lemma FirePlanShape(entry: Entry, env: Env, hostname: string, cids: map<nat, string>,
                      accepts: Row -> bool)
    ensures var p := FirePlan(entry, env, hostname, cids, accepts);
      p.writes != [] ==>
        && ResolveType(entry.data).Ok?
        && var mtype := ResolveType(entry.data).value;
        && var h := Dispatch(mtype, entry, env, hostname);
        && h.Content?
        && BatchOf(cids, env).Ok?
        && p == RecordPlan(EntryRecord(mtype, h.content, env, BatchOf(cids, env).value), h.data,
                           env.requestPath, accepts)
  {
    match ResolveType(entry.data)
    case Panic(_) =>
    case Ok(mtype) =>
      match Dispatch(mtype, entry, env, hostname)
      case Dropped =>
      case HandlerPanic(_) =>
      case Content(content, data) =>
        match BatchOf(cids, env)
        case Panic(_) =>
        case Ok(batch) =>
          assert FirePlan(entry, env, hostname, cids, accepts) ==
                 RecordPlan(EntryRecord(mtype, content, env, batch), data, env.requestPath, accepts);
  }

  /** A failed record write means no tag write at all. */
  lemma FireFailedRecordNoTags(entry: Entry, env: Env, hostname: string, cids: map<nat, string>,
                               accepts: Row -> bool)
    ensures var p := FirePlan(entry, env, hostname, cids, accepts);
      p.writes != [] && !accepts(p.writes[0]) ==> p.writes == [p.writes[0]] && p.outcome == Ok(())
  {
  }

  /** After an accepted record come its derived tag, if not empty, and then
      every user tag, each once and in list order. */
  lemma FireTagOrder(entry: Entry, env: Env, hostname: string, cids: map<nat, string>,
                     accepts: Row -> bool)
    ensures var p := FirePlan(entry, env, hostname, cids, accepts);
      p.writes != [] && accepts(p.writes[0]) && p.outcome.Ok? ==>
        var record := p.writes[0].record;
        && DerivedTag(record.entryType, record.content, env.requestPath).Ok?
        && p.writes[1..] ==
           DerivedRows(env.newUuid, DerivedTag(record.entryType, record.content, env.requestPath).value) +
           TagRows(env.newUuid, UserTags(entry.data))
  {
    var p := FirePlan(entry, env, hostname, cids, accepts);
    FirePlanShape(entry, env, hostname, cids, accepts);
    if p.writes != [] && accepts(p.writes[0]) {
      var mtype := ResolveType(entry.data).value;
      HandlersKeepTags(mtype, entry, env, hostname);
      var h := Dispatch(mtype, entry, env, hostname);
      RecordPlanTags(EntryRecord(mtype, h.content, env, BatchOf(cids, env).value), h.data,
                     env.requestPath, accepts);
    }
  }

  /** An accepted record is followed by exactly the writes of CreateTag. */
  lemma RecordPlanTags(record: Record, data: Fields, requestPath: Option<string>, accepts: Row -> bool)
    requires accepts(EntryRow(record))
    ensures var p := RecordPlan(record, data, requestPath, accepts);
      var tags := TagPlan(record.uuid, record.entryType, record.content, data, requestPath);
      p.writes[1..] == tags.writes && p.outcome == tags.outcome
  {
    var tags := TagPlan(record.uuid, record.entryType, record.content, data, requestPath);
    assert ([EntryRow(record)] + tags.writes)[1..] == tags.writes;
  }

  /** No handler touches entry.Data["tags"]. */
  lemma HandlersKeepTags(mtype: string, entry: Entry, env: Env, hostname: string)
    ensures var h := Dispatch(mtype, entry, env, hostname);
      h.Content? ==> UserTags(h.data) == UserTags(entry.data)
  {
    var h := Dispatch(mtype, entry, env, hostname);
    if h.Content? && h.data != entry.data {
      assert h.data == entry.data["debug" := Str(env.debugStack)];
      assert "tags" in h.data <==> "tags" in entry.data;
    }
  }

  /** The writes depend on the database only through its verdict on the
      record: what the tag writes return changes nothing. */
  lemma FireIgnoresTagOutcomes(entry: Entry, env: Env, hostname: string, cids: map<nat, string>,
                               accepts1: Row -> bool, accepts2: Row -> bool)
    requires forall row: Row :: row.EntryRow? ==> accepts1(row) == accepts2(row)
    ensures FirePlan(entry, env, hostname, cids, accepts1) == FirePlan(entry, env, hostname, cids, accepts2)
  {
  }

  /** The record carries the batch id registered for the calling goroutine,
      and the clock text when none was registered. */
  lemma FireBatchId(entry: Entry, env: Env, hostname: string, cids: map<nat, string>,
                    accepts: Row -> bool)
    ensures var p := FirePlan(entry, env, hostname, cids, accepts);
      p.writes != [] ==>
        && GetGoId(env.runtimeStack).Ok?
        && var cid := GetGoId(env.runtimeStack).value;
        && (cid in cids ==> p.writes[0].record.batchId == cids[cid])
        && (cid !in cids ==> p.writes[0].record.batchId == env.fallbackClock)
  {
  }

  /** Two entries fired by the same goroutine while its batch is registered
      carry the same batch id. */
  lemma FireSameUnitSameBatch(e1: Entry, e2: Entry, env1: Env, env2: Env, hostname: string,
                              cids: map<nat, string>, accepts: Row -> bool)
    requires GetGoId(env1.runtimeStack) == GetGoId(env2.runtimeStack)
    requires GetGoId(env1.runtimeStack).Ok? && GetGoId(env1.runtimeStack).value in cids
    ensures var p1 := FirePlan(e1, env1, hostname, cids, accepts);
      var p2 := FirePlan(e2, env2, hostname, cids, accepts);
      p1.writes != [] && p2.writes != [] ==> p1.writes[0].record.batchId == p2.writes[0].record.batchId
  {
    FireBatchId(e1, env1, hostname, cids, accepts);
    FireBatchId(e2, env2, hostname, cids, accepts);
  }

  /** A log entry's first tag is its level's name. */
  lemma FireLogTaggedWithLevel(entry: Entry, env: Env, hostname: string, cids: map<nat, string>,
                               accepts: Row -> bool)
    requires ResolveType(entry.data) == Ok(EntryTypeLog)
    ensures var p := FirePlan(entry, env, hostname, cids, accepts);
      p.writes != [] && accepts(p.writes[0]) ==>
        |p.writes| >= 2 && p.writes[1] == TagRow(env.newUuid, LevelName(entry.level)) && p.outcome == Ok(())
  {
    var p := FirePlan(entry, env, hostname, cids, accepts);
    var h := LogContent(entry, env.debugStack, hostname);
    DispatchRules(EntryTypeLog, entry, env, hostname);
    assert LevelTag(h.content) == Ok(LevelName(entry.level));
  }

  /** A query (built by this hook) never gets a derived tag: its content has
      no "show" field; only the user tags follow the record. */
  lemma FireQueryOnlyUserTags(entry: Entry, env: Env, hostname: string, cids: map<nat, string>,
                              accepts: Row -> bool)
    requires ResolveType(entry.data) == Ok(EntryTypeQuery)
    ensures var p := FirePlan(entry, env, hostname, cids, accepts);
      p.writes != [] && accepts(p.writes[0]) ==>
        p.writes[1..] == TagRows(env.newUuid, UserTags(entry.data)) && p.outcome == Ok(())
  {
  }

  /** A type the switch does not name gets log content, keeps its own name
      as the record type, and gets no derived tag. */
  lemma FireUnnamedTypeAsLog(entry: Entry, env: Env, hostname: string, cids: map<nat, string>,
                             accepts: Row -> bool, mtype: string)
    requires ResolveType(entry.data) == Ok(mtype)
    requires mtype !in {EntryTypeLog, EntryTypeQuery, EntryTypeRequest, EntryTypeRedis, EntryTypeJob}
    ensures var p := FirePlan(entry, env, hostname, cids, accepts);
      p.writes != [] ==>
        && p.writes[0].record.entryType == mtype
        && p.writes[0].record.content == LogContent(entry, env.debugStack, hostname).content
        && (accepts(p.writes[0]) ==>
             p.writes[1..] == TagRows(env.newUuid, UserTags(entry.data)) && p.outcome == Ok(()))
  {
    DispatchRules(mtype, entry, env, hostname);
    HandlersKeepTags(mtype, entry, env, hostname);
  }
}
