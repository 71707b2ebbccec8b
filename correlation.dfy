/** The correlation registry `CidToUUID`: goroutine id -> batch id. The
    process-wide sync.Map is modelled as one sequential map; the stack text,
    the fresh uuid and the clock reading are parameters. */
module Correlation {
  import opened Outcomes
  import opened GoId

  /** Load with the timestamp fallback of TelescopeUUID. */
  function Lookup(m: map<nat, string>, cid: nat, now: string): (r: string)
    ensures cid in m ==> r == m[cid]
    ensures cid !in m ==> r == now
  {
    if cid in m then m[cid] else now
  }

  class CidRegistry {
    var cidToUuid: map<nat, string>

    constructor ()
      ensures cidToUuid == map[]
    {
      cidToUuid := map[];
    }

    /** TelescopeUUID: the batch id of the calling goroutine, or the clock
        text `now` when none was started; panics where getGoId does. */
    function Uuid(stack: string, now: string): (r: Result<string>)
      reads this
      ensures r.Panic? <==> GetGoId(stack).Panic?
      ensures r.Ok? ==> r.value == Lookup(cidToUuid, GetGoId(stack).value, now)
    {
      match GetGoId(stack)
      case Ok(cid) => Ok(Lookup(cidToUuid, cid, now))
      case Panic(why) => Panic(why)
    }

    /** TelescopeStart: map the calling goroutine to the fresh id `batchId`,
        replacing any earlier one. */
    method Start(stack: string, batchId: string) returns (r: Result<()>)
      modifies this
      ensures r.Panic? <==> GetGoId(stack).Panic?
      ensures r.Ok? ==> cidToUuid == old(cidToUuid)[GetGoId(stack).value := batchId]
      ensures r.Panic? ==> cidToUuid == old(cidToUuid)
    {
      var cid := GetGoId(stack);
      if cid.Panic? {
        return Panic(cid.reason);
      }
      cidToUuid := cidToUuid[cid.value := batchId];
      r := Ok(());
    }

    /** TelescopeClose: forget the calling goroutine's mapping, if any. */
    method Close(stack: string) returns (r: Result<()>)
      modifies this
      ensures r.Panic? <==> GetGoId(stack).Panic?
      ensures r.Ok? ==> cidToUuid == old(cidToUuid) - {GetGoId(stack).value}
      ensures r.Ok? && GetGoId(stack).value !in old(cidToUuid) ==> cidToUuid == old(cidToUuid)
      ensures r.Panic? ==> cidToUuid == old(cidToUuid)
    {
      var cid := GetGoId(stack);
      if cid.Panic? {
        return Panic(cid.reason);
      }
      if cid.value !in cidToUuid {
        CloseUnmappedIsNoOp(cidToUuid, cid.value);
      }
      cidToUuid := cidToUuid - {cid.value};
      r := Ok(());
    }
  }

  /** Deleting a key that is not mapped leaves the map as it was. */
  lemma CloseUnmappedIsNoOp(m: map<nat, string>, cid: nat)
    requires cid !in m
    ensures m - {cid} == m
  {
    assert (m - {cid}).Keys == m.Keys;
  }

  /** The whole lifecycle on one registry, for two goroutines `unit1` and
      `unit2`: Start in unit1 is seen by the lookup there, a second Start
      replaces it, unit2 keeps its own entry throughout, after Close the
      lookup in unit1 falls back to the clock, and a second Close changes
      nothing. */
  method Lifecycle(unit1: string, unit2: string, first: string, second: string,
                   other: string, now: string)
    returns (afterStart: Result<string>, afterRestart: Result<string>,
             otherUnit: Result<string>, afterClose: Result<string>, finalMap: map<nat, string>)
    requires GetGoId(unit1).Ok? && GetGoId(unit2).Ok?
    requires GetGoId(unit1).value != GetGoId(unit2).value
    ensures afterStart == Ok(first)
    ensures afterRestart == Ok(second)
    ensures otherUnit == Ok(other)
    ensures afterClose == Ok(now)
    ensures finalMap == map[GetGoId(unit2).value := other]
  {
    var registry := new CidRegistry();
    var _ := registry.Start(unit2, other);
    var _ := registry.Start(unit1, first);
    afterStart := registry.Uuid(unit1, now);
    var _ := registry.Start(unit1, second);
    afterRestart := registry.Uuid(unit1, now);
    otherUnit := registry.Uuid(unit2, now);
    var _ := registry.Close(unit1);
    afterClose := registry.Uuid(unit1, now);
    CloseUnmappedIsNoOp(registry.cidToUuid, GetGoId(unit1).value);
    var _ := registry.Close(unit1);
    finalMap := registry.cidToUuid;
  }
}
