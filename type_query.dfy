/** The query bean of type_query.go: Query.Handler locates the business call
    site by walking the stack text below the model directory /app/entity/,
    and builds a "query" entry. The stack text, the formatted time, the
    result of GetStackCallFile, the fresh uuid and the clock readings are
    parameters. */
module TypeQuery {
  import opened Outcomes
  import opened GoStrings
  import opened Correlation
  import opened TelescopeHook

  /** The directory of the model layer; stack lines holding it are model
      frames. */
  const EntityMarker := "/app/entity/"

  /** The Query bean; Bindings, Slow, Line and Hash are carried unchanged. */
  datatype Query = Query(connection: string, bindings: seq<string>, sql: string, time: string,
                         slow: bool, file: string, line: string, hash: string, hostname: string)

  /** The entry the handler returns; its content is the Query value. */
  datatype Entries = Entries(uuid: string, batchId: string, familyHash: Option<string>,
                             shouldDisplayOnIndex: int, entryType: string, content: Query,
                             createdAt: string)

  /** Handler's outcome: `(nil, nil)`, an entry with its tag list, or a panic. */
  datatype HandlerResult =
    | Skipped
    | Produced(entry: Entries, tags: seq<string>)
    | Panicked(reason: string)

  /** The walk's variables when it ends: the counter, b.Connection, b.File. */
  datatype WalkState = WalkState(status: nat, connection: string, file: string)

  predicate IsMarkerLine(marker: string, line: string)
  {
    Contains(line, marker)
  }

  /** The number of model frames among `lines`. */
  function MarkerCount(marker: string, lines: seq<string>): (n: nat)
    ensures n <= |lines|
  {
    if lines == [] then 0
    else (if IsMarkerLine(marker, lines[0]) then 1 else 0) + MarkerCount(marker, lines[1..])
  }

  /** Connection after a line seen below two model frames: the line's
      suffix from the marker if it is one, else unchanged. */
  function NextConnection(marker: string, line: string, conn: string): string
  {
    var index := IndexOf(line, marker);
    if index != -1 then line[index..] else conn
  }

  /** The suffix from the marker of the last model frame in `lines`, or
      `conn` when there is none. */
  function LastConnection(marker: string, lines: seq<string>, conn: string): string
  {
    if lines == [] then conn else LastConnection(marker, lines[1..], NextConnection(marker, lines[0], conn))
  }

  /** `"/" + s` for each piece, appended left to right. */
  function Slashed(segs: seq<string>): (r: string)
    ensures segs != [] ==> |r| >= 1 && r[0] == '/'
  {
    if segs == [] then "" else Slashed(segs[..|segs| - 1]) + "/" + segs[|segs| - 1]
  }

  /** The message of Go's panic on a negative slice index. */
  function IndexPanic(i: int): string
  {
    "index out of range [" + Itoa(i) + "]"
  }

  /** The inner loop of the walk: `file` followed by the last four pieces,
      each after a slash; it panics on the first, negative, index when
      there are fewer than four pieces. */
  function AppendLast4(file: string, segs: seq<string>): (r: Result<string>)
    ensures r.Panic? <==> |segs| < 4
  {
    if |segs| < 4 then Panic(IndexPanic(|segs| - 4)) else Ok(file + Slashed(segs[|segs| - 4..]))
  }

  /** The walk's end at the call-site line: File gets its last four pieces. */
  function CallSite(status: nat, conn: string, file: string, line: string): Result<WalkState>
  {
    match AppendLast4(file, Split(line, '/'))
    case Panic(why) => Panic(why)
    case Ok(f) => Ok(WalkState(status, conn, f))
  }

  /** The outer loop of the walk over stack lines, from counter `status`.
      Below two model frames the first other line gives File and ends the
      walk. */
  function Walk(marker: string, lines: seq<string>, status: nat, conn: string, file: string): Result<WalkState>
  {
    if lines == [] then Ok(WalkState(status, conn, file))
    else if status <= 1 then
      Walk(marker, lines[1..], if IsMarkerLine(marker, lines[0]) then status + 1 else status,
           NextConnection(marker, lines[0], conn), file)
    else if IsMarkerLine(marker, lines[0]) then Walk(marker, lines[1..], status, conn, file)
    else CallSite(status, conn, file, lines[0])
  }

  // ------------------------------------------------------------- walk lemmas

  /** While fewer than two model frames have been seen, the walk only counts
      them and keeps the last one's suffix as Connection; File is untouched. */
  lemma {:induction false} WalkPrefix(marker: string, pre: seq<string>, rest: seq<string>, status: nat,
                                      conn: string, file: string)
    requires status + MarkerCount(marker, pre) <= 1
    ensures Walk(marker, pre + rest, status, conn, file) ==
            Walk(marker, rest, status + MarkerCount(marker, pre), LastConnection(marker, pre, conn), file)
    decreases |pre|
  {
    if pre != [] {
      var line := pre[0];
      assert (pre + rest)[0] == line;
      assert (pre + rest)[1..] == pre[1..] + rest;
      WalkHead(marker, pre + rest, status, conn, file);
      if IsMarkerLine(marker, line) {
        assert MarkerCount(marker, pre) == 1 + MarkerCount(marker, pre[1..]);
        WalkPrefix(marker, pre[1..], rest, status + 1, NextConnection(marker, line, conn), file);
      } else {
        assert MarkerCount(marker, pre) == MarkerCount(marker, pre[1..]);
        WalkPrefix(marker, pre[1..], rest, status, NextConnection(marker, line, conn), file);
      }
    } else {
      assert pre + rest == rest;
    }
  }

  /** One line seen while fewer than two model frames were counted. */
  lemma WalkHead(marker: string, lines: seq<string>, status: nat, conn: string, file: string)
    requires lines != [] && status <= 1
    ensures Walk(marker, lines, status, conn, file) ==
            Walk(marker, lines[1..], if IsMarkerLine(marker, lines[0]) then status + 1 else status,
                 NextConnection(marker, lines[0], conn), file)
  {
  }

  /** With at most one model frame in the stack, File is left as it was. */
  lemma WalkFewMarkers(marker: string, lines: seq<string>, conn: string, file: string)
    requires MarkerCount(marker, lines) <= 1
    ensures Walk(marker, lines, 0, conn, file) == Ok(WalkState(MarkerCount(marker, lines), LastConnection(marker, lines, conn), file))
  {
    WalkPrefix(marker, lines, [], 0, conn, file);
    assert lines + [] == lines;
  }

  /** Everything up to and including the second model frame only sets the
      counter to 2 and Connection to that frame's suffix. */
  lemma WalkSecondMarker(marker: string, pre: seq<string>, post: seq<string>, conn: string, file: string)
    requires MarkerCount(marker, pre) == 2 && pre != [] && IsMarkerLine(marker, pre[|pre| - 1])
    ensures Walk(marker, pre + post, 0, conn, file) == Walk(marker, post, 2, LastConnection(marker, pre, conn), file)
  {
    var init := pre[..|pre| - 1];
    var m := pre[|pre| - 1];
    assert pre == init + [m];
    assert [m][1..] == [];
    assert MarkerCount(marker, [m]) == 1;
    MarkerCountAppend(marker, init, [m]);
    var c := LastConnection(marker, init, conn);
    assert LastConnection(marker, [m], c) == NextConnection(marker, m, c);
    LastConnectionAppend(marker, init, [m], conn);
    assert pre + post == init + ([m] + post);
    WalkPrefix(marker, init, [m] + post, 0, conn, file);
    assert ([m] + post)[0] == m && ([m] + post)[1..] == post;
    WalkHead(marker, [m] + post, 1, c, file);
  }

  lemma {:induction false} MarkerCountAppend(marker: string, a: seq<string>, b: seq<string>)
    ensures MarkerCount(marker, a + b) == MarkerCount(marker, a) + MarkerCount(marker, b)
    decreases |a|
  {
    if a == [] {
      assert a + b == b;
    } else {
      assert (a + b)[1..] == a[1..] + b;
      MarkerCountAppend(marker, a[1..], b);
    }
  }

  lemma {:induction false} LastConnectionAppend(marker: string, a: seq<string>, b: seq<string>, conn: string)
    ensures LastConnection(marker, a + b, conn) == LastConnection(marker, b, LastConnection(marker, a, conn))
    decreases |a|
  {
    if a == [] {
      assert a + b == b;
    } else {
      assert (a + b)[1..] == a[1..] + b;
      LastConnectionAppend(marker, a[1..], b, NextConnection(marker, a[0], conn));
    }
  }

  /** After the second model frame, further model frames are skipped and
      the first other line alone decides File: what follows it is never
      looked at. */
  lemma {:induction false} WalkCallSite(marker: string, skip: seq<string>, line: string, rest: seq<string>,
                                        conn: string, file: string)
    requires forall k :: 0 <= k < |skip| ==> IsMarkerLine(marker, skip[k])
    requires !IsMarkerLine(marker, line)
    ensures Walk(marker, skip + [line] + rest, 2, conn, file) == CallSite(2, conn, file, line)
    decreases |skip|
  {
    if skip == [] {
      assert skip + [line] + rest == [line] + rest;
    } else {
      assert (skip + [line] + rest)[1..] == skip[1..] + [line] + rest;
      assert (skip + [line] + rest)[0] == skip[0];
      WalkCallSite(marker, skip[1..], line, rest, conn, file);
    }
  }

  /** When every line after the second model frame is a model frame, File
      is left as it was. */
  lemma {:induction false} WalkOnlyMarkers(marker: string, skip: seq<string>, conn: string, file: string)
    requires forall k :: 0 <= k < |skip| ==> IsMarkerLine(marker, skip[k])
    ensures Walk(marker, skip, 2, conn, file) == Ok(WalkState(2, conn, file))
    decreases |skip|
  {
    if skip != [] {
      WalkOnlyMarkers(marker, skip[1..], conn, file);
    }
  }

  // ------------------------------------------------------------ File shape

  /** The appended text is the pieces joined by slashes after a leading one. */
  lemma {:induction false} SlashedIsJoin(segs: seq<string>)
    ensures Slashed(segs) == Join([""] + segs, '/')
    decreases |segs|
  {
    if segs != [] {
      var init := segs[..|segs| - 1];
      var last := segs[|segs| - 1];
      SlashedIsJoin(init);
      assert [""] + segs == ([""] + init) + [last];
      JoinAppend([""] + init, [last], '/');
    }
  }

  /** File's new part splits back into an empty lead and exactly the last
      four pieces of the line: it starts with "/" and has four segments. */
  lemma CallSiteSegments(file: string, line: string)
    requires AppendLast4(file, Split(line, '/')).Ok?
    ensures var segs := Split(line, '/');
      var added := AppendLast4(file, segs).value[|file|..];
      && added[0] == '/'
      && Split(added, '/') == [""] + segs[|segs| - 4..]
  {
    var segs := Split(line, '/');
    var last4 := segs[|segs| - 4..];
    assert AppendLast4(file, segs).value[|file|..] == Slashed(last4);
    SlashedIsJoin(last4);
    assert forall k :: 0 <= k < |[""] + last4| ==> '/' !in ([""] + last4)[k] by {
      forall k | 0 <= k < |[""] + last4| ensures '/' !in ([""] + last4)[k] {
        if k > 0 {
          assert ([""] + last4)[k] == segs[|segs| - 4 + k - 1];
        }
      }
    }
    SplitJoin([""] + last4, '/');
  }

  predicate IsSuffix(a: string, b: string)
  {
    |a| <= |b| && b[|b| - |a|..] == a
  }

  /** File's new part is the tail of the call-site line, with a slash in front. */
  lemma CallSiteIsLineTail(file: string, line: string)
    requires AppendLast4(file, Split(line, '/')).Ok?
    ensures IsSuffix(AppendLast4(file, Split(line, '/')).value[|file|..], "/" + line)
  {
    var segs := Split(line, '/');
    var n := |segs|;
    assert segs == segs[..n - 4] + segs[n - 4..];
    TailOfJoin(segs[..n - 4], segs[n - 4..]);
  }

  /** Slashed pieces at the end of a list are a tail of the slash-led join. */
  lemma TailOfJoin(pre: seq<string>, tail: seq<string>)
    requires tail != []
    ensures IsSuffix(Slashed(tail), "/" + Join(pre + tail, '/'))
  {
    SlashedIsJoin(tail);
    var jt := Join(tail, '/');
    assert Join([""] + tail, '/') == "" + ['/'] + jt by {
      assert ([""] + tail)[1..] == tail;
    }
    if pre == [] {
      assert pre + tail == tail;
    } else {
      JoinAppend(pre, tail, '/');
      var jp := Join(pre, '/');
      assert "/" + Join(pre + tail, '/') == ("/" + jp) + Slashed(tail);
    }
  }

  // --------------------------------------------------------------- handler

  /** One turn of the walk's loop at line `i`. */
  lemma WalkStep(marker: string, lines: seq<string>, i: nat, status: nat, conn: string, file: string)
    requires i < |lines|
    ensures status <= 1 ==>
      (Walk(marker, lines[i..], status, conn, file) ==
       Walk(marker, lines[i + 1..], if IsMarkerLine(marker, lines[i]) then status + 1 else status,
            NextConnection(marker, lines[i], conn), file))
    ensures status > 1 && IsMarkerLine(marker, lines[i]) ==>
      Walk(marker, lines[i..], status, conn, file) == Walk(marker, lines[i + 1..], status, conn, file)
    ensures status > 1 && !IsMarkerLine(marker, lines[i]) ==>
      Walk(marker, lines[i..], status, conn, file) == CallSite(status, conn, file, lines[i])
  {
    assert lines[i..][0] == lines[i] && lines[i..][1..] == lines[i + 1..];
  }

  /** The inner loop: `for i := len(arr2) - 4; i < len(arr2); i++`, which
      appends "/" and one piece per turn. */
  method AppendTail(file: string, segs: seq<string>) returns (r: Result<string>)
    ensures r == AppendLast4(file, segs)
  {
    var acc := file;
    var j := |segs| - 4;
    while j < |segs|
      invariant |segs| - 4 <= j <= |segs|
      invariant if |segs| - 4 < j then 0 <= |segs| - 4 && acc == file + Slashed(segs[|segs| - 4..j])
                else acc == file
    {
      if j < 0 {
        return Panic(IndexPanic(j));
      }
      assert segs[|segs| - 4..j + 1][..j - (|segs| - 4)] == segs[|segs| - 4..j];
      acc := acc + "/" + segs[j];
      j := j + 1;
    }
    assert segs[|segs| - 4..j] == segs[|segs| - 4..];
    return Ok(acc);
  }

  /** The walk as the source writes it: a loop over the lines with a counter
      that stops with `break` at the call-site line. */
  method WalkStack(marker: string, lines: seq<string>, conn0: string, file0: string) returns (r: Result<WalkState>)
    ensures r == Walk(marker, lines, 0, conn0, file0)
  {
    var status: nat := 0;
    var conn := conn0;
    var file := file0;
    var i := 0;
    while i < |lines|
      invariant 0 <= i <= |lines|
      invariant Walk(marker, lines, 0, conn0, file0) == Walk(marker, lines[i..], status, conn, file)
    {
      var line := lines[i];
      WalkStep(marker, lines, i, status, conn, file);
      if status <= 1 {
        var index := IndexOf(line, marker);
        if index != -1 {
          status := status + 1;
          conn := line[index..];
        }
      } else if IndexOf(line, marker) == -1 {
        var tail := AppendTail(file, Split(line, '/'));
        if tail.Panic? {
          return Panic(tail.reason);
        }
        return Ok(WalkState(status, conn, tail.value));
      }
      i := i + 1;
    }
    assert lines[i..] == [];
    return Ok(WalkState(status, conn, file));
  }

  /** Query.Handler on the bean `b`. `stack` is the first debug.Stack();
      `timeText` is `"%.2f"` of entry.Data["t"]; `callFile` and `callLine`
      are what GetStackCallFile returns; `runtimeStack` and `now` feed
      TelescopeUUID on the registry `cids`. */
  method Handler(b: Query, entry: Entry, stack: string, timeText: string, callFile: string,
                 callLine: string, newUuid: string, cids: CidRegistry, runtimeStack: string,
                 now: string, createdAt: string) returns (r: HandlerResult)
    ensures Contains(entry.message, SelfMarker) ==> r == Skipped
    ensures !Contains(entry.message, SelfMarker) ==>
      var walked := Walk(EntityMarker, Split(stack, '\n'), 0, b.connection, b.file);
      var batch := cids.Uuid(runtimeStack, now);
      && (walked.Panic? ==> r == Panicked(walked.reason))
      && (walked.Ok? && batch.Panic? ==> r == Panicked(batch.reason))
      && (walked.Ok? && batch.Ok? ==>
           && r.Produced?
           && r.tags == []
           && r.entry == Entries(newUuid, batch.value, None, 1, EntryTypeQuery, r.entry.content, createdAt)
           && r.entry.content.sql == entry.message
           && r.entry.content.file == walked.value.file
           && r.entry.content.connection == callFile + ":" + callLine
           && r.entry.content.time == (if "t" in entry.data then timeText else b.time)
           && r.entry.content.bindings == b.bindings && r.entry.content.slow == b.slow
           && r.entry.content.line == b.line && r.entry.content.hash == b.hash
           && r.entry.content.hostname == b.hostname)
  {
    if IndexOf(entry.message, SelfMarker) != -1 {
      return Skipped;
    }
    var walked := WalkStack(EntityMarker, Split(stack, '\n'), b.connection, b.file);
    if walked.Panic? {
      return Panicked(walked.reason);
    }
    var q := b.(connection := walked.value.connection, file := walked.value.file);
    q := q.(sql := entry.message);
    if "t" in entry.data {
      q := q.(time := timeText);
    }
    q := q.(connection := callFile + ":" + callLine);
    var batch := cids.Uuid(runtimeStack, now);
    if batch.Panic? {
      return Panicked(batch.reason);
    }
    r := Produced(Entries(newUuid, batch.value, None, 1, EntryTypeQuery, q, createdAt), []);
  }
}
