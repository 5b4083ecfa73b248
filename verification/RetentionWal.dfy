/** The WAL half of the retention planner: every retained backup must replay without a gap on
    every path it serves, and the floor below which current-timeline WAL may go. */
module RetentionWal {
  import opened Basics
  import opened Retention
  import W = WalNames

  // ---------------------------------------------------------------- segments

  /** x / step * step. */
  function SegStart(x: nat, step: nat): nat
    requires step > 0
  {
    W.Quot(x, step) * step
  }

  lemma SegStartBounds(x: nat, step: nat)
    requires step > 0
    ensures SegStart(x, step) <= x < SegStart(x, step) + step
  {
    W.Division(x, step);
  }

  lemma SegStartInside(x: nat, start: nat, step: nat)
    requires step > 0 && SegStart(start, step) == start && start <= x < start + step
    ensures SegStart(x, step) == start
  {
    W.DivideUnique(x, step, W.Quot(start, step), x - start);
  }

  lemma SegStartAligned(x: nat, step: nat)
    requires step > 0
    ensures SegStart(SegStart(x, step), step) == SegStart(x, step)
    ensures SegStart(SegStart(x, step) + step, step) == SegStart(x, step) + step
  {
    var q := W.Quot(x, step);
    W.DivideUnique(q * step, step, q, 0);
    W.MulSuccessor(q, step);
    W.DivideUnique((q + 1) * step, step, q + 1, 0);
  }

  lemma SegStartOrder(x: nat, y: nat, step: nat)
    requires step > 0 && x <= y
    ensures SegStart(x, step) <= SegStart(y, step)
  {
    W.QuotientOrder(x, y, step);
    MulMonotone(W.Quot(x, step), W.Quot(y, step), step);
  }

  predicate Live(inv: Inventory, t: nat, start: nat) {
    start <= MAX_WORD && Segment(t, start, true) in inv.segments
  }

  /** The end of the last segment of a timeline, or 0. */
  function Frontier(segments: seq<Segment>, t: nat, step: nat): nat {
    if segments == [] then 0
    else
      var rest, last := Frontier(segments[..|segments| - 1], t, step), segments[|segments| - 1];
      if last.timeline == t && last.start + step > rest then last.start + step else rest
  }

  /** Aligned, inside the address space, and one entry per segment. */
  predicate SegmentsOK(inv: Inventory) {
    && inv.step > 0
    && (forall s :: s in inv.segments ==> SegStart(s.start, inv.step) == s.start && s.start + inv.step <= MAX_WORD)
    && (forall i, j :: 0 <= i < j < |inv.segments| ==>
          inv.segments[i].timeline != inv.segments[j].timeline || inv.segments[i].start != inv.segments[j].start)
  }

  // ---------------------------------------------------------------- coverage of one stretch

  ghost predicate AllLive(inv: Inventory, t: nat, pos: nat, end: nat)
    requires inv.step > 0
  {
    forall x :: pos <= x < end ==> Live(inv, t, SegStart(x, inv.step))
  }

  /** The segment loop. Every start it visits is live before it advances, so start + step
      never leaves the 64-bit address space. */
  method WalkSegments(inv: Inventory, t: nat, pos: nat, end: nat) returns (ok: bool)
    requires SegmentsOK(inv)
    ensures ok <==> AllLive(inv, t, pos, end)
  {
    if end <= pos {
      return true;
    }
    var start := SegStart(pos, inv.step);
    SegStartBounds(pos, inv.step);
    SegStartAligned(pos, inv.step);
    while start < end
      invariant SegStart(start, inv.step) == start && start < pos + inv.step + end
      invariant start <= pos ==> start == SegStart(pos, inv.step)
      invariant forall x :: pos <= x < start ==> Live(inv, t, SegStart(x, inv.step))
      decreases end - start
    {
      if !Live(inv, t, start) {
        var x := if start <= pos then pos else start;
        assert SegStart(x, inv.step) == start;
        return false;
      }
      assert start + inv.step <= MAX_WORD;
      forall x | pos <= x < start + inv.step ensures Live(inv, t, SegStart(x, inv.step)) {
        if x >= start {
          SegStartInside(x, start, inv.step);
        }
      }
      SegStartAligned(start, inv.step);
      start := start + inv.step;
    }
    return true;
  }

  // ---------------------------------------------------------------- coverage of one path

  /** Replay on path[i] goes to the fork, or on the last timeline to the newest segment. */
  function EndOf(inv: Inventory, path: seq<Timeline>, i: nat, pos: nat): nat
    requires i < |path|
  {
    if i + 1 < |path| then path[i + 1].fork else Max(pos, Frontier(inv.segments, path[i].id, inv.step))
  }

  ghost predicate StretchOK(inv: Inventory, t: nat, pos: nat, end: nat)
    requires inv.step > 0
  {
    pos <= end && W.Quot(end - pos, inv.step) <= |inv.segments| && AllLive(inv, t, pos, end)
  }

  ghost predicate CoveredFrom(inv: Inventory, path: seq<Timeline>, i: nat, pos: nat)
    requires inv.step > 0 && i <= |path|
    decreases |path| - i
  {
    i == |path| ||
    (StretchOK(inv, path[i].id, pos, EndOf(inv, path, i, pos)) && CoveredFrom(inv, path, i + 1, EndOf(inv, path, i, pos)))
  }

  /** What a retained backup needs of the current timeline. */
  function Need(b: Backup, t: Timeline, current: nat): nat {
    if b.timeline != current then t.fork else if b.redo < b.start then b.redo else b.start
  }

  /** The floor after the path's timelines up to n. */
  ghost function FloorOn(inv: Inventory, b: Backup, path: seq<Timeline>, n: nat, current: nat, floor: nat): nat
    requires inv.step > 0 && n <= |path|
  {
    if n == 0 then floor
    else
      var before := FloorOn(inv, b, path, n - 1, current, floor);
      if n - 1 >= PlaceOf(path, b.timeline) && path[n - 1].id == current
      then Min(before, SegStart(Need(b, path[n - 1], current), inv.step)) else before
  }

  /** The loop over one path for one retained backup. */
  method CoverPath(inv: Inventory, b: Backup, path: seq<Timeline>, current: nat, floor: nat) returns (ok: bool, lower: nat)
    requires SegmentsOK(inv)
    ensures ok <==> CoveredFrom(inv, path, PlaceOf(path, b.timeline), b.end)
    ensures ok ==> lower == FloorOn(inv, b, path, |path|, current, floor)
  {
    var pos: nat, started := b.end, false;
    lower := floor;
    ghost var first := PlaceOf(path, b.timeline);
    for i := 0 to |path|
      invariant started <==> i > first
      invariant i <= first ==> pos == b.end
      invariant CoveredFrom(inv, path, first, b.end) <==> CoveredFrom(inv, path, if i <= first then first else i, pos)
      invariant lower == FloorOn(inv, b, path, i, current, floor)
    {
      var t := path[i];
      if t.id == b.timeline {
        started := true;
      }
      StartsAtPlace(path, b.timeline, i);
      if !started {
        continue;
      }
      var end := EndOf(inv, path, i, pos);
      if end < pos || W.Quot(end - pos, inv.step) > |inv.segments| {
        return false, lower;
      }
      var live := WalkSegments(inv, t.id, pos, end);
      if !live {
        return false, lower;
      }
      if t.id == current {
        lower := Min(lower, SegStart(Need(b, t, current), inv.step));
      }
      pos := end;
    }
    return true, lower;
  }

  lemma StartsAtPlace(path: seq<Timeline>, id: nat, i: nat)
    requires i < |path|
    ensures i < PlaceOf(path, id) ==> path[i].id != id
    ensures i == PlaceOf(path, id) ==> path[i].id == id
  {
  }

  // ---------------------------------------------------------------- what coverage means

  /** Where replay of b enters path[i]. */
  function EntryAt(b: Backup, path: seq<Timeline>, i: nat): nat
    requires i < |path|
  {
    if i == PlaceOf(path, b.timeline) then b.end else path[i].fork
  }

  lemma {:induction false} CoveredAt(inv: Inventory, path: seq<Timeline>, i: nat, pos: nat, k: nat)
    requires inv.step > 0 && i <= k < |path| && CoveredFrom(inv, path, i, pos)
    ensures var entry := if k == i then pos else path[k].fork;
            StretchOK(inv, path[k].id, entry, EndOf(inv, path, k, entry))
    decreases k - i
  {
    if i < k {
      CoveredAt(inv, path, i + 1, EndOf(inv, path, i, pos), k);
    }
  }

  /** MAIN: a covered backup replays without a gap: on every timeline of the path from its
      own on, every position from where replay enters to where it leaves is in a live
      segment. */
  lemma ReplayHasNoGap(inv: Inventory, b: Backup, path: seq<Timeline>, k: nat, x: nat)
    requires inv.step > 0 && PlaceOf(path, b.timeline) <= k < |path|
    requires CoveredFrom(inv, path, PlaceOf(path, b.timeline), b.end)
    requires EntryAt(b, path, k) <= x < EndOf(inv, path, k, EntryAt(b, path, k))
    ensures Live(inv, path[k].id, SegStart(x, inv.step))
  {
    CoveredAt(inv, path, PlaceOf(path, b.timeline), b.end, k);
  }

  // ---------------------------------------------------------------- replay, said of segments alone

  /** Position x of timeline t lies in a live segment. */
  ghost predicate InLive(inv: Inventory, t: nat, x: nat) {
    exists s :: s in inv.segments && s.timeline == t && s.live && s.start <= x < s.start + inv.step
  }

  /** Some segment of timeline t, live or not, ends after x. */
  ghost predicate BeforeEnd(inv: Inventory, t: nat, x: nat) {
    exists s :: s in inv.segments && s.timeline == t && x < s.start + inv.step
  }

  /** A recovery from b along the path reads position x of the path's k-th timeline: from the end
      of b on its own timeline and from the fork on later ones, up to the next fork and on the
      last timeline as far as the archive goes. */
  ghost predicate Reads(inv: Inventory, b: Backup, path: seq<Timeline>, k: nat, x: nat) {
    && k < |path| && (exists m :: 0 <= m <= k && path[m].id == b.timeline)
    && (if path[k].id == b.timeline then b.end else path[k].fork) <= x
    && if k + 1 < |path| then x < path[k + 1].fork else BeforeEnd(inv, path[k].id, x)
  }

  ghost predicate Replays(inv: Inventory, b: Backup, path: seq<Timeline>) {
    forall k: nat, x: nat :: Reads(inv, b, path, k, x) ==> InLive(inv, path[k].id, x)
  }

  lemma LiveIsInLive(inv: Inventory, t: nat, x: nat)
    requires inv.step > 0
    ensures Live(inv, t, SegStart(x, inv.step)) ==> InLive(inv, t, x)
    ensures SegmentsOK(inv) && InLive(inv, t, x) ==> Live(inv, t, SegStart(x, inv.step))
  {
    SegStartBounds(x, inv.step);
    if Live(inv, t, SegStart(x, inv.step)) {
      var s := Segment(t, SegStart(x, inv.step), true);
      assert s in inv.segments && s.start <= x;
    }
    if SegmentsOK(inv) && InLive(inv, t, x) {
      var s :| s in inv.segments && s.timeline == t && s.live && s.start <= x < s.start + inv.step;
      SegStartInside(x, s.start, inv.step);
      assert s == Segment(t, SegStart(x, inv.step), true);
    }
  }

  lemma {:induction false} FrontierIs(segments: seq<Segment>, t: nat, step: nat, x: nat)
    ensures x < Frontier(segments, t, step) <==> exists s :: s in segments && s.timeline == t && x < s.start + step
  {
    if segments != [] {
      var n := |segments| - 1;
      FrontierIs(segments[..n], t, step, x);
      assert segments == segments[..n] + [segments[n]];
      if exists s :: s in segments[..n] && s.timeline == t && x < s.start + step {
        var s :| s in segments[..n] && s.timeline == t && x < s.start + step;
        assert s in segments;
      }
      assert segments[n] in segments;
    }
  }

  /** On a well-formed path a timeline stands in one place only. */
  lemma PlaceIs(path: seq<Timeline>, id: nat, m: nat)
    requires PathOK(path) && m < |path| && path[m].id == id
    ensures PlaceOf(path, id) == m
  {
    var i := PlaceOf(path, id);
    if i < m {
      IdsIncrease(path, i, m);
    }
  }

  /** What is read of path[k] is the stretch that the planner walks. */
  lemma ReadsIsStretch(inv: Inventory, b: Backup, path: seq<Timeline>, k: nat, x: nat)
    requires PathOK(path) && PlaceOf(path, b.timeline) <= k < |path|
    ensures Reads(inv, b, path, k, x) <==> EntryAt(b, path, k) <= x < EndOf(inv, path, k, EntryAt(b, path, k))
  {
    var place := PlaceOf(path, b.timeline);
    if path[k].id == b.timeline {
      PlaceIs(path, b.timeline, k);
    }
    assert path[place].id == b.timeline;
    FrontierIs(inv.segments, path[k].id, inv.step, x);
  }

  lemma CoveredReplays(inv: Inventory, b: Backup, path: seq<Timeline>)
    requires inv.step > 0 && PathOK(path) && CoveredFrom(inv, path, PlaceOf(path, b.timeline), b.end)
    ensures Replays(inv, b, path)
  {
    forall k: nat, x: nat | Reads(inv, b, path, k, x) ensures InLive(inv, path[k].id, x) {
      var m :| 0 <= m <= k && path[m].id == b.timeline;
      PlaceIs(path, b.timeline, m);
      ReadsIsStretch(inv, b, path, k, x);
      ReplayHasNoGap(inv, b, path, k, x);
      LiveIsInLive(inv, path[k].id, x);
    }
  }

  // The range guard never refuses a covered stretch: a live stretch of n segments needs n entries.

  ghost function Below(segments: seq<Segment>, t: nat, limit: nat): nat {
    if segments == [] then 0
    else
      var last := segments[|segments| - 1];
      Below(segments[..|segments| - 1], t, limit) + if last.timeline == t && last.start < limit then 1 else 0
  }

  lemma {:induction false} BelowSteps(segments: seq<Segment>, t: nat, a: nat, b: nat)
    requires a <= b
    ensures Below(segments, t, a) <= Below(segments, t, b) <= |segments|
    ensures (exists s :: s in segments && s.timeline == t && a <= s.start < b) ==> Below(segments, t, a) < Below(segments, t, b)
  {
    if segments != [] {
      var n := |segments| - 1;
      BelowSteps(segments[..n], t, a, b);
      assert segments == segments[..n] + [segments[n]];
      if exists s :: s in segments && s.timeline == t && a <= s.start < b {
        var s :| s in segments && s.timeline == t && a <= s.start < b;
        assert s in segments[..n] || s == segments[n];
      }
    }
  }

  lemma {:induction false} StretchCount(inv: Inventory, t: nat, start: nat, n: nat)
    requires inv.step > 0 && forall j: nat :: j < n ==> Live(inv, t, start + j * inv.step)
    ensures n <= Below(inv.segments, t, start + n * inv.step)
  {
    if n > 0 {
      StretchCount(inv, t, start, n - 1);
      W.MulSuccessor(n - 1, inv.step);
      var last := start + (n - 1) * inv.step;
      assert Live(inv, t, last);
      BelowSteps(inv.segments, t, last, start + n * inv.step);
    }
  }

  lemma LiveStretchFits(inv: Inventory, t: nat, pos: nat, end: nat)
    requires inv.step > 0 && pos <= end && AllLive(inv, t, pos, end)
    ensures W.Quot(end - pos, inv.step) <= |inv.segments|
  {
    var start, n := SegStart(pos, inv.step), W.Quot(end - pos, inv.step);
    SegStartBounds(pos, inv.step);
    W.Division(end - pos, inv.step);
    forall j: nat | j < n ensures Live(inv, t, start + j * inv.step) {
      StretchPoint(inv, pos, end, j);
    }
    StretchCount(inv, t, start, n);
    BelowSteps(inv.segments, t, start + n * inv.step, start + n * inv.step);
  }

  /** The j-th segment of a stretch holds a position of it. */
  lemma StretchPoint(inv: Inventory, pos: nat, end: nat, j: nat)
    requires inv.step > 0 && pos <= end && j < W.Quot(end - pos, inv.step)
    ensures exists x :: pos <= x < end && SegStart(x, inv.step) == SegStart(pos, inv.step) + j * inv.step
  {
    var start := SegStart(pos, inv.step);
    SegStartBounds(pos, inv.step);
    W.Division(end - pos, inv.step);
    W.MulSuccessor(j, inv.step);
    MulMonotone(j + 1, W.Quot(end - pos, inv.step), inv.step);
    if j == 0 {
      assert SegStart(pos, inv.step) == start + j * inv.step;
    } else {
      MulMonotone(1, j, inv.step);
      var x := start + j * inv.step;
      assert j * inv.step + inv.step <= end - pos && pos <= x < end;
      assert x == (W.Quot(pos, inv.step) + j) * inv.step;
      W.DivideUnique(x, inv.step, W.Quot(pos, inv.step) + j, 0);
      assert SegStart(x, inv.step) == x;
    }
  }

  lemma {:induction false} ReplaysCovered(inv: Inventory, b: Backup, path: seq<Timeline>, k: nat)
    requires SegmentsOK(inv) && PathOK(path) && Serves(b, path) && Replays(inv, b, path)
    requires PlaceOf(path, b.timeline) <= k < |path|
    ensures CoveredFrom(inv, path, k, EntryAt(b, path, k))
    decreases |path| - k
  {
    var entry := EntryAt(b, path, k);
    var end := EndOf(inv, path, k, entry);
    EntryBeforeEnd(inv, b, path, k);
    forall x | entry <= x < end ensures Live(inv, path[k].id, SegStart(x, inv.step)) {
      ReadsIsStretch(inv, b, path, k, x);
      LiveIsInLive(inv, path[k].id, x);
    }
    LiveStretchFits(inv, path[k].id, entry, end);
    if k + 1 < |path| {
      ReplaysCovered(inv, b, path, k + 1);
    }
  }

  lemma EntryBeforeEnd(inv: Inventory, b: Backup, path: seq<Timeline>, k: nat)
    requires PathOK(path) && Serves(b, path) && PlaceOf(path, b.timeline) <= k < |path|
    ensures EntryAt(b, path, k) <= EndOf(inv, path, k, EntryAt(b, path, k))
  {
    var m :| 0 <= m < |path| && path[m].id == b.timeline && forall n :: m < n < |path| ==> b.end < path[n].fork;
    PlaceIs(path, b.timeline, m);
    if k + 1 < |path| {
      IdsIncrease(path, k, k + 1);
    }
  }

  /** MAIN: the walk over timelines and segment ranges, with its bound, accepts exactly the
      backups whose recovery along the path reads live segments only. */
  lemma CoveredIsReplays(inv: Inventory, b: Backup, path: seq<Timeline>)
    requires SegmentsOK(inv) && PathOK(path) && Serves(b, path)
    ensures CoveredFrom(inv, path, PlaceOf(path, b.timeline), b.end) <==> Replays(inv, b, path)
  {
    var place := PlaceOf(path, b.timeline);
    var m :| 0 <= m < |path| && path[m].id == b.timeline;
    PlaceIs(path, b.timeline, m);
    if CoveredFrom(inv, path, place, b.end) {
      CoveredReplays(inv, b, path);
    }
    if Replays(inv, b, path) {
      ReplaysCovered(inv, b, path, place);
    }
  }

  // ---------------------------------------------------------------- all retained backups

  /** v is what b needs of the current timeline, at step n of the path, in whole segments. */
  ghost predicate NeedsAt(inv: Inventory, b: Backup, path: seq<Timeline>, n: nat, current: nat, v: nat)
    requires inv.step > 0
  {
    PlaceOf(path, b.timeline) <= n < |path| && path[n].id == current && v == SegStart(Need(b, path[n], current), inv.step)
  }

  ghost predicate NeedsOn(inv: Inventory, b: Backup, path: seq<Timeline>, current: nat, v: nat)
    requires inv.step > 0
  {
    exists n: nat :: NeedsAt(inv, b, path, n, current, v)
  }

  lemma {:induction false} FloorOnIs(inv: Inventory, b: Backup, path: seq<Timeline>, n: nat, current: nat, floor: nat)
    requires inv.step > 0 && n <= |path|
    ensures var lower := FloorOn(inv, b, path, n, current, floor);
            && lower <= floor
            && (lower == floor || exists k: nat :: k < n && NeedsAt(inv, b, path, k, current, lower))
            && forall k: nat, v: nat :: k < n && NeedsAt(inv, b, path, k, current, v) ==> lower <= v
  {
    if n > 0 {
      FloorOnIs(inv, b, path, n - 1, current, floor);
      var lower := FloorOn(inv, b, path, n, current, floor);
      if lower < FloorOn(inv, b, path, n - 1, current, floor) {
        assert NeedsAt(inv, b, path, n - 1, current, lower);
      }
    }
  }

  /** The floor after one backup's first n paths. */
  ghost function FloorOver(inv: Inventory, b: Backup, n: nat, current: nat, floor: nat): nat
    requires inv.step > 0 && n <= |inv.paths|
  {
    if n == 0 then floor
    else
      var before, path := FloorOver(inv, b, n - 1, current, floor), inv.paths[n - 1];
      if Reachable(b, path) then FloorOn(inv, b, path, |path|, current, before) else before
  }

  /** b needs v of the current timeline on one of its paths. */
  ghost predicate NeedsOver(inv: Inventory, b: Backup, i: nat, current: nat, v: nat)
    requires inv.step > 0
  {
    i < |inv.paths| && Reachable(b, inv.paths[i]) && NeedsOn(inv, b, inv.paths[i], current, v)
  }

  lemma {:induction false} FloorOverIs(inv: Inventory, b: Backup, n: nat, current: nat, floor: nat)
    requires inv.step > 0 && n <= |inv.paths|
    ensures var lower := FloorOver(inv, b, n, current, floor);
            && lower <= floor
            && (lower == floor || exists i: nat :: i < n && NeedsOver(inv, b, i, current, lower))
            && forall i: nat, v: nat :: i < n && NeedsOver(inv, b, i, current, v) ==> lower <= v
  {
    if n > 0 {
      var path := inv.paths[n - 1];
      FloorOverIs(inv, b, n - 1, current, floor);
      FloorOnIs(inv, b, path, |path|, current, FloorOver(inv, b, n - 1, current, floor));
      var lower := FloorOver(inv, b, n, current, floor);
      if lower < FloorOver(inv, b, n - 1, current, floor) {
        assert NeedsOver(inv, b, n - 1, current, lower);
      }
    }
  }

  ghost predicate Gap(inv: Inventory, b: Backup, path: seq<Timeline>)
    requires inv.step > 0
  {
    Reachable(b, path) && !CoveredFrom(inv, path, PlaceOf(path, b.timeline), b.end)
  }

  ghost predicate NoGap(inv: Inventory, b: Backup, n: nat)
    requires inv.step > 0 && n <= |inv.paths|
  {
    forall i :: 0 <= i < n ==> !Gap(inv, b, inv.paths[i])
  }

  /** The loop over the paths for one retained backup. */
  method CoverBackup(inv: Inventory, b: Backup, current: nat, floor: nat) returns (ok: bool, lower: nat)
    requires SegmentsOK(inv)
    ensures ok <==> NoGap(inv, b, |inv.paths|)
    ensures ok ==> lower == FloorOver(inv, b, |inv.paths|, current, floor)
  {
    lower := floor;
    for i := 0 to |inv.paths|
      invariant NoGap(inv, b, i) && lower == FloorOver(inv, b, i, current, floor)
    {
      var path := inv.paths[i];
      if !Reachable(b, path) {
        continue;
      }
      ok, lower := CoverPath(inv, b, path, current, lower);
      if !ok {
        assert Gap(inv, b, path);
        return;
      }
    }
    return true, lower;
  }

  /** The floor after the first n backups. */
  ghost function FloorAll(inv: Inventory, keep: set<string>, n: nat, current: nat): nat
    requires inv.step > 0 && n <= |inv.backups|
  {
    if n == 0 then MAX_WORD
    else
      var before, b := FloorAll(inv, keep, n - 1, current), inv.backups[n - 1];
      if b.id in keep then FloorOver(inv, b, |inv.paths|, current, before) else before
  }

  /** Some retained backup needs v of the current timeline. */
  ghost predicate Needed(inv: Inventory, keep: set<string>, k: nat, current: nat, v: nat)
    requires inv.step > 0
  {
    k < |inv.backups| && inv.backups[k].id in keep && exists i: nat :: NeedsOver(inv, inv.backups[k], i, current, v)
  }

  lemma {:induction false} FloorAllIs(inv: Inventory, keep: set<string>, n: nat, current: nat)
    requires inv.step > 0 && n <= |inv.backups|
    ensures var lower := FloorAll(inv, keep, n, current);
            && lower <= MAX_WORD
            && (lower == MAX_WORD || exists k: nat :: k < n && Needed(inv, keep, k, current, lower))
            && forall k: nat, v: nat :: k < n && Needed(inv, keep, k, current, v) ==> lower <= v
  {
    if n > 0 {
      var b := inv.backups[n - 1];
      FloorAllIs(inv, keep, n - 1, current);
      FloorOverIs(inv, b, |inv.paths|, current, FloorAll(inv, keep, n - 1, current));
      var lower := FloorAll(inv, keep, n, current);
      if lower < FloorAll(inv, keep, n - 1, current) {
        assert Needed(inv, keep, n - 1, current, lower);
      }
    }
  }

  ghost predicate AllCovered(inv: Inventory, keep: set<string>, n: nat)
    requires inv.step > 0 && n <= |inv.backups|
  {
    forall k :: 0 <= k < n && inv.backups[k].id in keep ==> NoGap(inv, inv.backups[k], |inv.paths|)
  }

  /** Some retained backup reaches the current timeline. */
  ghost predicate SomeNeed(inv: Inventory, keep: set<string>, current: nat)
    requires inv.step > 0
  {
    exists k: nat, v: nat :: Needed(inv, keep, k, current, v)
  }

  /** least is the smallest segment start any retained backup needs. */
  ghost predicate LeastNeed(inv: Inventory, keep: set<string>, current: nat, least: nat)
    requires inv.step > 0
  {
    && (exists k: nat :: Needed(inv, keep, k, current, least))
    && forall k: nat, v: nat :: Needed(inv, keep, k, current, v) ==> least <= v
  }

  datatype Hint = Hint(timeline: nat, start: Word)

  /** The floor: the least need, or the hinted segment of the current timeline if lower. */
  ghost predicate IsFloor(inv: Inventory, keep: set<string>, current: nat, hint: Option<Hint>, floor: nat)
    requires inv.step > 0
  {
    exists least: nat ::
      && LeastNeed(inv, keep, current, least)
      && floor == if hint.Some? && hint.value.timeline == current then Min(least, SegStart(hint.value.start, inv.step)) else least
  }

  /** A segment start is never the all-ones word that stands for "no floor yet". */
  lemma StartIsNotMax(x: nat, step: nat)
    requires W.SegmentSize(step)
    ensures SegStart(x, step) != MAX_WORD
  {
    var k := W.PowerOfTwoTest(step);
    assert k > 0;
    TwiceIsEven(W.Quot(x, step), W.Pow2(k - 1));
  }

  lemma TwiceIsEven(q: nat, half: nat)
    ensures q * (2 * half) != MAX_WORD
  {
    var m := q * half;
    assert q * (2 * half) == 2 * m;
  }

  lemma NeededIsNotMax(inv: Inventory, keep: set<string>, current: nat, k: nat, v: nat)
    requires W.SegmentSize(inv.step) && Needed(inv, keep, k, current, v)
    ensures v < MAX_WORD
  {
    var i: nat :| NeedsOver(inv, inv.backups[k], i, current, v);
    var n: nat :| NeedsAt(inv, inv.backups[k], inv.paths[i], n, current, v);
    SegStartBounds(Need(inv.backups[k], inv.paths[i][n], current), inv.step);
    StartIsNotMax(Need(inv.backups[k], inv.paths[i][n], current), inv.step);
  }

  /** What the sentinel tells once all backups are folded in. */
  lemma FloorAllMeans(inv: Inventory, keep: set<string>, current: nat)
    requires W.SegmentSize(inv.step)
    ensures var floor := FloorAll(inv, keep, |inv.backups|, current);
            && (floor == MAX_WORD <==> !SomeNeed(inv, keep, current))
            && (floor != MAX_WORD ==> LeastNeed(inv, keep, current, floor))
  {
    var floor := FloorAll(inv, keep, |inv.backups|, current);
    FloorAllIs(inv, keep, |inv.backups|, current);
    forall k: nat, v: nat | Needed(inv, keep, k, current, v) ensures floor <= v < MAX_WORD {
      NeededIsNotMax(inv, keep, current, k, v);
    }
  }

  /** The WAL half of Plan: a floor exactly when every retained backup is covered on every
      path it serves and one of them reaches the current timeline. */
  method PlanWal(inv: Inventory, keep: set<string>, current: nat, hint: Option<Hint>) returns (floor: Option<nat>)
    requires W.SegmentSize(inv.step) && SegmentsOK(inv)
    ensures floor.Some? <==> AllCovered(inv, keep, |inv.backups|) && SomeNeed(inv, keep, current)
    ensures floor.Some? ==> IsFloor(inv, keep, current, hint, floor.value)
  {
    var lowest := MAX_WORD;
    for k := 0 to |inv.backups|
      invariant AllCovered(inv, keep, k) && lowest == FloorAll(inv, keep, k, current)
    {
      var b := inv.backups[k];
      if b.id in keep {
        var ok, next := CoverBackup(inv, b, current, lowest);
        if !ok {
          return None;
        }
        lowest := next;
      }
    }
    FloorAllMeans(inv, keep, current);
    if lowest == MAX_WORD {
      return None;
    }
    if hint.Some? && hint.value.timeline == current {
      return Some(Min(lowest, SegStart(hint.value.start, inv.step)));
    }
    return Some(lowest);
  }

  // ---------------------------------------------------------------- after trimming

  /** What survives: current-timeline segments that start below the floor are retired. */
  function Survives(s: Segment, current: nat, floor: nat): bool {
    s.live && !(s.timeline == current && s.start < floor)
  }

  function Trimmed(inv: Inventory, current: nat, floor: nat): Inventory {
    inv.(segments := seq(|inv.segments|, i requires 0 <= i < |inv.segments| =>
      inv.segments[i].(live := Survives(inv.segments[i], current, floor))))
  }

  /** after is inv with some of these segments retired, as one bounded batch of the planned
      retirements leaves it. */
  ghost predicate RetiredBelow(inv: Inventory, after: Inventory, current: nat, floor: nat) {
    && after.step == inv.step && |after.segments| == |inv.segments|
    && forall i :: 0 <= i < |inv.segments| ==>
         || after.segments[i] == inv.segments[i]
         || after.segments[i] == inv.segments[i].(live := Survives(inv.segments[i], current, floor))
  }

  lemma {:induction false} FrontierByStarts(a: seq<Segment>, b: seq<Segment>, t: nat, step: nat)
    requires |a| == |b| && forall i :: 0 <= i < |a| ==> a[i].timeline == b[i].timeline && a[i].start == b[i].start
    ensures Frontier(a, t, step) == Frontier(b, t, step)
    decreases |a|
  {
    if a != [] {
      FrontierByStarts(a[..|a| - 1], b[..|b| - 1], t, step);
    }
  }

  lemma BatchLive(inv: Inventory, after: Inventory, current: nat, floor: nat, t: nat, start: nat)
    requires RetiredBelow(inv, after, current, floor) && Live(inv, t, start) && (t == current ==> floor <= start)
    ensures Live(after, t, start)
  {
    var i :| 0 <= i < |inv.segments| && inv.segments[i] == Segment(t, start, true);
    assert after.segments[i] == inv.segments[i];
  }

  /** Replay enters the current timeline no earlier than what the backup needs of it. */
  lemma EntryAboveNeed(b: Backup, path: seq<Timeline>, k: nat, current: nat)
    requires PathOK(path) && BackupOK(b) && PlaceOf(path, b.timeline) <= k < |path| && path[k].id == current
    ensures Need(b, path[k], current) <= EntryAt(b, path, k)
  {
    var first := PlaceOf(path, b.timeline);
    if first < k {
      IdsIncrease(path, first, k);
    }
  }

  lemma StretchSurvives(inv: Inventory, after: Inventory, b: Backup, path: seq<Timeline>, k: nat, current: nat, floor: nat, end: nat)
    requires inv.step > 0 && RetiredBelow(inv, after, current, floor)
    requires PathOK(path) && BackupOK(b) && PlaceOf(path, b.timeline) <= k < |path|
    requires StretchOK(inv, path[k].id, EntryAt(b, path, k), end)
    requires path[k].id == current ==> floor <= SegStart(Need(b, path[k], current), inv.step)
    ensures StretchOK(after, path[k].id, EntryAt(b, path, k), end)
  {
    var t, entry := path[k].id, EntryAt(b, path, k);
    forall x | entry <= x < end ensures Live(after, t, SegStart(x, inv.step)) {
      if t == current {
        EntryAboveNeed(b, path, k, current);
        SegStartOrder(Need(b, path[k], current), x, inv.step);
      }
      BatchLive(inv, after, current, floor, t, SegStart(x, inv.step));
    }
  }

  /** The floor is at or below what b needs on the rest of the path. */
  ghost predicate FloorServes(inv: Inventory, b: Backup, path: seq<Timeline>, current: nat, floor: nat)
    requires inv.step > 0
  {
    forall n: nat, v: nat :: NeedsAt(inv, b, path, n, current, v) ==> floor <= v
  }

  lemma {:induction false} CoverSurvives(inv: Inventory, after: Inventory, b: Backup, path: seq<Timeline>, k: nat, current: nat, floor: nat)
    requires inv.step > 0 && PathOK(path) && BackupOK(b) && PlaceOf(path, b.timeline) <= k <= |path|
    requires RetiredBelow(inv, after, current, floor) && FloorServes(inv, b, path, current, floor)
    requires k < |path| ==> CoveredFrom(inv, path, k, EntryAt(b, path, k))
    ensures k < |path| ==> CoveredFrom(after, path, k, EntryAt(b, path, k))
    decreases |path| - k
  {
    if k < |path| {
      var entry := EntryAt(b, path, k);
      var end := EndOf(inv, path, k, entry);
      FrontierByStarts(after.segments, inv.segments, path[k].id, inv.step);
      assert EndOf(after, path, k, entry) == end;
      if path[k].id == current {
        assert NeedsAt(inv, b, path, k, current, SegStart(Need(b, path[k], current), inv.step));
      }
      StretchSurvives(inv, after, b, path, k, current, floor, end);
      assert k + 1 < |path| ==> end == EntryAt(b, path, k + 1);
      CoverSurvives(inv, after, b, path, k + 1, current, floor);
    }
  }

  lemma FloorServesKept(inv: Inventory, keep: set<string>, current: nat, hint: Option<Hint>, floor: nat, k: nat, i: nat)
    requires inv.step > 0 && IsFloor(inv, keep, current, hint, floor) && k < |inv.backups| && i < |inv.paths|
    requires inv.backups[k].id in keep && Reachable(inv.backups[k], inv.paths[i])
    ensures FloorServes(inv, inv.backups[k], inv.paths[i], current, floor)
  {
    var b, path := inv.backups[k], inv.paths[i];
    forall n: nat, v: nat | NeedsAt(inv, b, path, n, current, v) ensures floor <= v {
      assert NeedsOver(inv, b, i, current, v);
      assert Needed(inv, keep, k, current, v);
    }
  }

  /** MAIN: retiring any or all of the current-timeline segments that start below the planned
      floor leaves every retained backup replayable on every path it serves. */
  lemma TrimIsSafe(inv: Inventory, after: Inventory, keep: set<string>, current: nat, hint: Option<Hint>, floor: nat, b: Backup, i: nat)
    requires inv.step > 0 && IsFloor(inv, keep, current, hint, floor) && AllCovered(inv, keep, |inv.backups|)
    requires RetiredBelow(inv, after, current, floor)
    requires b in inv.backups && BackupOK(b) && b.id in keep && i < |inv.paths| && PathOK(inv.paths[i]) && Reachable(b, inv.paths[i])
    ensures CoveredFrom(after, inv.paths[i], PlaceOf(inv.paths[i], b.timeline), b.end)
  {
    var k := RankOf(inv.backups, b);
    var path := inv.paths[i];
    assert NoGap(inv, inv.backups[k], |inv.paths|) && !Gap(inv, b, path);
    FloorServesKept(inv, keep, current, hint, floor, k, i);
    CoverSurvives(inv, after, b, path, PlaceOf(path, b.timeline), current, floor);
  }

  // ---------------------------------------------------------------- the whole plan

  function LastId(path: seq<Timeline>): nat {
    if path == [] then 0 else path[|path| - 1].id
  }

  predicate BeginningsKnown(path: seq<Timeline>, paths: seq<seq<Timeline>>) {
    forall k :: 0 < k <= |path| ==> path[..k] in paths
  }

  /** Every path's beginnings are known paths, and no two paths end alike. */
  predicate PathsOK(paths: seq<seq<Timeline>>) {
    && 1 <= |paths| <= 1024
    && (forall i :: 0 <= i < |paths| ==> PathOK(paths[i]))
    && (forall i, j :: 0 <= i < j < |paths| ==> LastId(paths[i]) != LastId(paths[j]))
    && (forall i :: 0 <= i < |paths| ==> BeginningsKnown(paths[i], paths))
  }

  predicate Branches(path: seq<Timeline>, id: nat) {
    exists k :: 0 <= k < |path| - 1 && path[k].id == id
  }

  /** A timeline that no path goes on from. */
  predicate IsLeaf(paths: seq<seq<Timeline>>, id: nat) {
    forall i :: 0 <= i < |paths| ==> !Branches(paths[i], id)
  }

  predicate KnownTimeline(paths: seq<seq<Timeline>>, id: nat) {
    exists i :: 0 <= i < |paths| && LastId(paths[i]) == id
  }

  predicate InventoryOK(inv: Inventory, minimum: nat) {
    && 1 <= minimum <= 100 && W.SegmentSize(inv.step) && inv.backups != []
    && PathsOK(inv.paths) && BackupsOK(inv.backups) && SegmentsOK(inv)
    && (forall b :: b in inv.backups ==> KnownTimeline(inv.paths, b.timeline))
    && (forall s :: s in inv.segments ==> KnownTimeline(inv.paths, s.timeline))
  }

  ghost predicate OnlyLeaf(paths: seq<seq<Timeline>>, current: nat) {
    && (exists i :: 0 <= i < |paths| && LastId(paths[i]) == current && IsLeaf(paths, current))
    && (forall i :: 0 <= i < |paths| && IsLeaf(paths, LastId(paths[i])) ==> LastId(paths[i]) == current)
  }

  predicate LeafAt(paths: seq<seq<Timeline>>, i: nat)
    requires i < |paths|
  {
    IsLeaf(paths, LastId(paths[i]))
  }

  /** The current timeline is the only leaf; competing leaves are refused. */
  method FindCurrent(paths: seq<seq<Timeline>>) returns (current: Option<nat>)
    requires PathsOK(paths)
    ensures current.Some? ==> OnlyLeaf(paths, current.value)
    ensures current.None? ==> forall c :: !OnlyLeaf(paths, c)
  {
    current := None;
    ghost var at := 0;
    for i := 0 to |paths|
      invariant current.None? ==> forall k :: 0 <= k < i ==> !LeafAt(paths, k)
      invariant current.Some? ==> at < i && LeafAt(paths, at) && LastId(paths[at]) == current.value
      invariant current.Some? ==> forall k :: 0 <= k < i && LeafAt(paths, k) ==> k == at
    {
      if IsLeaf(paths, LastId(paths[i])) {
        if current.Some? {
          TwoLeaves(paths, at, i);
          return None;
        }
        current := Some(LastId(paths[i]));
        at := i;
      }
    }
    LeavesFound(paths, current, at);
  }

  lemma TwoLeaves(paths: seq<seq<Timeline>>, i: nat, j: nat)
    requires PathsOK(paths) && i < j < |paths| && LeafAt(paths, i) && LeafAt(paths, j)
    ensures forall c :: !OnlyLeaf(paths, c)
  {
    assert LastId(paths[i]) != LastId(paths[j]);
  }

  lemma LeavesFound(paths: seq<seq<Timeline>>, current: Option<nat>, at: nat)
    requires current.None? ==> forall k :: 0 <= k < |paths| ==> !LeafAt(paths, k)
    requires current.Some? ==> at < |paths| && LeafAt(paths, at) && LastId(paths[at]) == current.value
    requires current.Some? ==> forall k :: 0 <= k < |paths| && LeafAt(paths, k) ==> k == at
    ensures current.Some? ==> OnlyLeaf(paths, current.value)
    ensures current.None? ==> forall c :: !OnlyLeaf(paths, c)
  {
    if current.Some? {
      forall i | 0 <= i < |paths| && IsLeaf(paths, LastId(paths[i])) ensures LastId(paths[i]) == current.value {
        assert LeafAt(paths, i);
      }
    } else {
      forall c ensures !OnlyLeaf(paths, c) {
        assert forall i :: 0 <= i < |paths| && LastId(paths[i]) == c ==> !LeafAt(paths, i);
      }
    }
  }

  datatype Decision = Decision(keep: set<string>, expire: seq<string>, current: nat, floor: nat, shortened: bool)

  function Ids(bs: seq<Backup>): seq<string> {
    seq(|bs|, i requires 0 <= i < |bs| => bs[i].id)
  }

  ghost predicate Planned(inv: Inventory, cutoff: int, minimum: nat, hint: Option<Hint>, d: Decision) {
    && InventoryOK(inv, minimum) && OnlyLeaf(inv.paths, d.current)
    && d.keep == KeepSet(inv, cutoff, minimum)
    && d.expire == Ids(Expired(inv.backups, d.keep))
    && (d.shortened <==> ShortenedBefore(inv, |inv.paths|, cutoff))
    && AllCovered(inv, d.keep, |inv.backups|)
    && IsFloor(inv, d.keep, d.current, hint, d.floor)
  }

  /** What a plan asks of the inventory: it is consistent, one timeline is current, everything
      to be kept replays, and something to be kept reaches the current timeline. */
  ghost predicate Acceptable(inv: Inventory, cutoff: int, minimum: nat) {
    && InventoryOK(inv, minimum)
    && AllCovered(inv, KeepSet(inv, cutoff, minimum), |inv.backups|)
    && exists c :: OnlyLeaf(inv.paths, c) && SomeNeed(inv, KeepSet(inv, cutoff, minimum), c)
  }

  lemma OnlyLeafIsOne(paths: seq<seq<Timeline>>, c: nat, d: nat)
    requires OnlyLeaf(paths, c) && OnlyLeaf(paths, d)
    ensures c == d
  {
  }

  /** Plan: a decision exactly for acceptable inventories; otherwise all destructive work is
      refused. */
  method Plan(inv: Inventory, cutoff: int, minimum: nat, hint: Option<Hint>) returns (r: Option<Decision>)
    ensures r.Some? <==> Acceptable(inv, cutoff, minimum)
    ensures r.Some? ==> Planned(inv, cutoff, minimum, hint, r.value)
  {
    if !InventoryOK(inv, minimum) {
      return None;
    }
    var current := FindCurrent(inv.paths);
    if current.None? {
      return None;
    }
    var keep, shortened := KeepAll(inv, cutoff, minimum);
    KeptIsKeepSet(inv, keep, cutoff, minimum);
    var floor := PlanWal(inv, keep, current.value, hint);
    if floor.None? {
      forall c | OnlyLeaf(inv.paths, c) ensures c == current.value {
        OnlyLeafIsOne(inv.paths, c, current.value);
      }
      return None;
    }
    return Some(Decision(keep, Ids(Expired(inv.backups, keep)), current.value, floor.value, shortened));
  }

  /** Kept, not expired, with its full, and replayed on this path from live segments of inv. */
  ghost predicate Restorable(inv: Inventory, d: Decision, b: Backup, path: seq<Timeline>) {
    && b.id in d.keep && b.id !in d.expire
    && (b.parent != "" ==> b.parent in d.keep && b.parent !in d.expire)
    && Replays(inv, b, path)
  }

  lemma KeptNotExpired(inv: Inventory, keep: set<string>, id: string)
    requires IdsDistinct(inv.backups) && id in keep
    ensures id !in Ids(Expired(inv.backups, keep))
  {
    var e := Expired(inv.backups, keep);
    forall i | 0 <= i < |e| ensures Ids(e)[i] != id {
      ExpiredFacts(inv.backups, keep);
      assert e[i] in e;
    }
  }

  lemma InKeepSet(inv: Inventory, id: string, cutoff: int, minimum: nat)
    requires BackupsOK(inv.backups)
    ensures id in KeepSet(inv, cutoff, minimum) <==> Kept(inv, id, cutoff, minimum)
  {
    if Kept(inv, id, cutoff, minimum) {
      KeptIsBackup(inv, id, cutoff, minimum);
    }
  }

  /** The path-by-path facts a plan rests on. */
  lemma PlannedBackup(inv: Inventory, d: Decision, cutoff: int, minimum: nat, hint: Option<Hint>, i: nat, b: Backup)
    requires Planned(inv, cutoff, minimum, hint, d) && i < |inv.paths| && b in inv.backups && Serves(b, inv.paths[i])
    ensures inv.step > 0 && BackupsOK(inv.backups) && PathsFormed(inv) && PathOK(inv.paths[i]) && BackupOK(b)
    ensures Reachable(b, inv.paths[i]) && (b.id in d.keep <==> Kept(inv, b.id, cutoff, minimum))
  {
    var k := RankOf(inv.backups, b);
    assert BackupOK(inv.backups[k]);
    ReachableIsServes(b, inv.paths[i]);
    InKeepSet(inv, b.id, cutoff, minimum);
  }

  lemma KeptWithParent(inv: Inventory, d: Decision, cutoff: int, minimum: nat, hint: Option<Hint>, b: Backup)
    requires Planned(inv, cutoff, minimum, hint, d) && b in inv.backups && b.id in d.keep
    ensures b.id !in d.expire && (b.parent != "" ==> b.parent in d.keep && b.parent !in d.expire)
  {
    KeptNotExpired(inv, d.keep, b.id);
    if b.parent != "" {
      InKeepSet(inv, b.id, cutoff, minimum);
      ParentsKept(inv, b, cutoff, minimum);
      InKeepSet(inv, b.parent, cutoff, minimum);
      KeptNotExpired(inv, d.keep, b.parent);
    }
  }

  /** Whatever is kept stays restorable on every path it serves, after any batch of the
      planned retirements. */
  lemma KeptStaysRestorable(inv: Inventory, after: Inventory, d: Decision, cutoff: int, minimum: nat, hint: Option<Hint>, i: nat, b: Backup)
    requires Planned(inv, cutoff, minimum, hint, d) && RetiredBelow(inv, after, d.current, d.floor)
    requires i < |inv.paths| && b in inv.backups && Serves(b, inv.paths[i]) && b.id in d.keep
    ensures Restorable(after, d, b, inv.paths[i])
  {
    PlannedBackup(inv, d, cutoff, minimum, hint, i, b);
    KeptWithParent(inv, d, cutoff, minimum, hint, b);
    TrimIsSafe(inv, after, d.keep, d.current, hint, d.floor, b, i);
    CoveredReplays(after, b, inv.paths[i]);
  }

  /** MAIN: once a plan's backups are expired and any batch of its WAL is retired, recovery to
      every instant of the window, on every known timeline path, still has the backup it
      would start from, that backup's full, and an unbroken run of surviving WAL. */
  lemma WindowStaysRestorable(inv: Inventory, after: Inventory, d: Decision, cutoff: int, minimum: nat, hint: Option<Hint>, i: nat, b: Backup, t: int)
    requires Planned(inv, cutoff, minimum, hint, d) && RetiredBelow(inv, after, d.current, d.floor)
    requires i < |inv.paths| && t >= cutoff && NewestBy(inv.backups, inv.paths[i], b, t)
    ensures Restorable(after, d, b, inv.paths[i])
  {
    PlannedBackup(inv, d, cutoff, minimum, hint, i, b);
    WindowPreserved(inv, i, b, t, cutoff, minimum);
    KeptStaysRestorable(inv, after, d, cutoff, minimum, hint, i, b);
  }

  // ---------------------------------------------------------------- what a decision says

  /** A recovery of the kept backup b along path i needs the current timeline from y on: from the
      redo position of b if it was taken there, else from where the path enters it. */
  ghost predicate NeedsFrom(inv: Inventory, keep: set<string>, current: nat, b: Backup, i: nat, y: nat) {
    && b in inv.backups && b.id in keep && i < |inv.paths| && Serves(b, inv.paths[i])
    && exists n :: 0 <= n < |inv.paths[i]| && EntersAt(b, inv.paths[i], n, current, y)
  }

  /** The path has the current timeline at n, not before the timeline of b. */
  ghost predicate EntersAt(b: Backup, path: seq<Timeline>, n: nat, current: nat, y: nat) {
    && n < |path| && path[n].id == current && (exists m :: 0 <= m <= n && path[m].id == b.timeline)
    && y == if b.timeline == current then b.redo else path[n].fork
  }

  lemma EntersIsNeed(inv: Inventory, b: Backup, path: seq<Timeline>, n: nat, current: nat, y: nat)
    requires inv.step > 0 && PathOK(path) && BackupOK(b)
    ensures EntersAt(b, path, n, current, y) <==>
              n < |path| && NeedsAt(inv, b, path, n, current, SegStart(Need(b, path[n], current), inv.step)) && y == Need(b, path[n], current)
  {
    var place := PlaceOf(path, b.timeline);
    if EntersAt(b, path, n, current, y) {
      var m :| 0 <= m <= n && path[m].id == b.timeline;
      PlaceIs(path, b.timeline, m);
    }
    assert place < |path| ==> path[place].id == b.timeline;
  }

  lemma NeedsFromIs(inv: Inventory, keep: set<string>, current: nat, b: Backup, i: nat, y: nat) returns (k: nat)
    requires inv.step > 0 && PathsFormed(inv) && BackupsOK(inv.backups) && NeedsFrom(inv, keep, current, b, i, y)
    ensures Needed(inv, keep, k, current, SegStart(y, inv.step))
  {
    var path := inv.paths[i];
    ReachableIsServes(b, path);
    k := RankOf(inv.backups, b);
    assert BackupOK(inv.backups[k]);
    var n: nat :| n < |path| && EntersAt(b, path, n, current, y);
    EntersIsNeed(inv, b, path, n, current, y);
    assert NeedsAt(inv, b, path, n, current, SegStart(y, inv.step));
    assert NeedsOver(inv, b, i, current, SegStart(y, inv.step));
  }

  lemma NeededIs(inv: Inventory, keep: set<string>, current: nat, k: nat, v: nat) returns (i: nat, y: nat)
    requires inv.step > 0 && PathsFormed(inv) && BackupsOK(inv.backups) && Needed(inv, keep, k, current, v)
    ensures NeedsFrom(inv, keep, current, inv.backups[k], i, y) && v == SegStart(y, inv.step)
  {
    var b := inv.backups[k];
    assert BackupOK(b);
    i :| NeedsOver(inv, b, i, current, v);
    var path := inv.paths[i];
    var n: nat :| NeedsAt(inv, b, path, n, current, v);
    ReachableIsServes(b, path);
    y := Need(b, path[n], current);
    EntersIsNeed(inv, b, path, n, current, y);
    assert EntersAt(b, path, n, current, y);
  }

  /** What the window of results below takes from a plan. */
  lemma PlanFacts(inv: Inventory, d: Decision, cutoff: int, minimum: nat, hint: Option<Hint>)
    requires Planned(inv, cutoff, minimum, hint, d)
    ensures inv.step > 0 && PathsFormed(inv) && BackupsOK(inv.backups) && IsFloor(inv, d.keep, d.current, hint, d.floor)
  {
  }

  lemma FloorUnderNeed(inv: Inventory, keep: set<string>, current: nat, hint: Option<Hint>, floor: nat, k: nat, y: nat)
    requires inv.step > 0 && IsFloor(inv, keep, current, hint, floor) && Needed(inv, keep, k, current, SegStart(y, inv.step))
    ensures floor <= y
    ensures hint.Some? && hint.value.timeline == current ==> floor <= hint.value.start
  {
    SegStartBounds(y, inv.step);
    if hint.Some? {
      SegStartBounds(hint.value.start, inv.step);
    }
  }

  /** MAIN: no kept backup, and no hint, needs anything below the floor: neither the redo and
      start positions of a backup of the current timeline nor the fork onto it. */
  lemma FloorBelowNeeds(inv: Inventory, d: Decision, cutoff: int, minimum: nat, hint: Option<Hint>, b: Backup, i: nat, y: nat)
    requires Planned(inv, cutoff, minimum, hint, d) && NeedsFrom(inv, d.keep, d.current, b, i, y)
    ensures d.floor <= y
    ensures hint.Some? && hint.value.timeline == d.current ==> d.floor <= hint.value.start
  {
    PlanFacts(inv, d, cutoff, minimum, hint);
    var k := NeedsFromIs(inv, d.keep, d.current, b, i, y);
    FloorUnderNeed(inv, d.keep, d.current, hint, d.floor, k, y);
  }

  ghost predicate Justifies(inv: Inventory, keep: set<string>, current: nat, hint: Option<Hint>, y: nat) {
    || (exists b: Backup, i: nat :: NeedsFrom(inv, keep, current, b, i, y))
    || (hint.Some? && hint.value.timeline == current && y == hint.value.start)
  }

  lemma FloorHasReason(inv: Inventory, keep: set<string>, current: nat, hint: Option<Hint>, floor: nat) returns (y: nat)
    requires inv.step > 0 && PathsFormed(inv) && BackupsOK(inv.backups) && IsFloor(inv, keep, current, hint, floor)
    ensures Justifies(inv, keep, current, hint, y) && floor <= y < floor + inv.step
  {
    var least: nat :| LeastNeed(inv, keep, current, least)
                      && floor == if hint.Some? && hint.value.timeline == current then Min(least, SegStart(hint.value.start, inv.step)) else least;
    if floor < least {
      y := hint.value.start;
    } else {
      var k: nat :| Needed(inv, keep, k, current, least);
      var i;
      i, y := NeededIs(inv, keep, current, k, least);
    }
    SegStartBounds(y, inv.step);
  }

  /** MAIN: and the floor is as high as that allows: its segment holds something that is needed. */
  lemma FloorIsJustified(inv: Inventory, d: Decision, cutoff: int, minimum: nat, hint: Option<Hint>) returns (y: nat)
    requires Planned(inv, cutoff, minimum, hint, d)
    ensures Justifies(inv, d.keep, d.current, hint, y) && d.floor <= y < d.floor + inv.step
  {
    PlanFacts(inv, d, cutoff, minimum, hint);
    y := FloorHasReason(inv, d.keep, d.current, hint, d.floor);
  }

  /** Everything that is to be kept replays on every path it serves. */
  ghost predicate AllReplay(inv: Inventory, cutoff: int, minimum: nat) {
    forall b, i :: b in inv.backups && 0 <= i < |inv.paths| && Kept(inv, b.id, cutoff, minimum) && Serves(b, inv.paths[i]) ==>
      Replays(inv, b, inv.paths[i])
  }

  lemma GapMeans(inv: Inventory, b: Backup, path: seq<Timeline>)
    requires SegmentsOK(inv) && PathOK(path)
    ensures !Gap(inv, b, path) <==> (Serves(b, path) ==> Replays(inv, b, path))
  {
    ReachableIsServes(b, path);
    if Serves(b, path) {
      CoveredIsReplays(inv, b, path);
    }
  }

  /** MAIN: coverage as the planner tests it is: every backup to be kept replays from live
      segments on every path it serves. */
  lemma AllCoveredMeans(inv: Inventory, cutoff: int, minimum: nat)
    requires InventoryOK(inv, minimum)
    ensures AllCovered(inv, KeepSet(inv, cutoff, minimum), |inv.backups|) <==> AllReplay(inv, cutoff, minimum)
  {
    var keep := KeepSet(inv, cutoff, minimum);
    if AllCovered(inv, keep, |inv.backups|) {
      forall b, i | b in inv.backups && 0 <= i < |inv.paths| && Kept(inv, b.id, cutoff, minimum) && Serves(b, inv.paths[i])
        ensures Replays(inv, b, inv.paths[i])
      {
        var k := RankOf(inv.backups, b);
        InKeepSet(inv, b.id, cutoff, minimum);
        assert NoGap(inv, inv.backups[k], |inv.paths|);
        GapMeans(inv, b, inv.paths[i]);
      }
    }
    if AllReplay(inv, cutoff, minimum) {
      forall k | 0 <= k < |inv.backups| && inv.backups[k].id in keep ensures NoGap(inv, inv.backups[k], |inv.paths|) {
        InKeepSet(inv, inv.backups[k].id, cutoff, minimum);
        forall i | 0 <= i < |inv.paths| ensures !Gap(inv, inv.backups[k], inv.paths[i]) {
          GapMeans(inv, inv.backups[k], inv.paths[i]);
        }
      }
    }
  }

  lemma SomeNeedMeans(inv: Inventory, keep: set<string>, current: nat)
    requires inv.step > 0 && PathsFormed(inv) && BackupsOK(inv.backups)
    ensures SomeNeed(inv, keep, current) <==> exists b: Backup, i: nat, y: nat :: NeedsFrom(inv, keep, current, b, i, y)
  {
    if SomeNeed(inv, keep, current) {
      var k: nat, v: nat :| Needed(inv, keep, k, current, v);
      var i, y := NeededIs(inv, keep, current, k, v);
    }
    if exists b: Backup, i: nat, y: nat :: NeedsFrom(inv, keep, current, b, i, y) {
      var b: Backup, i: nat, y: nat :| NeedsFrom(inv, keep, current, b, i, y);
      var k := NeedsFromIs(inv, keep, current, b, i, y);
    }
  }

  /** MAIN: Plan gives a decision exactly when the inventory is consistent, everything to be kept
      replays, and something to be kept reads the only leaf timeline. */
  lemma AcceptableMeans(inv: Inventory, cutoff: int, minimum: nat)
    ensures Acceptable(inv, cutoff, minimum) <==>
              && InventoryOK(inv, minimum) && AllReplay(inv, cutoff, minimum)
              && exists c, b: Backup, i: nat, y: nat :: OnlyLeaf(inv.paths, c) && NeedsFrom(inv, KeepSet(inv, cutoff, minimum), c, b, i, y)
  {
    if InventoryOK(inv, minimum) {
      AllCoveredMeans(inv, cutoff, minimum);
      forall c ensures SomeNeed(inv, KeepSet(inv, cutoff, minimum), c) <==>
                       exists b: Backup, i: nat, y: nat :: NeedsFrom(inv, KeepSet(inv, cutoff, minimum), c, b, i, y) {
        SomeNeedMeans(inv, KeepSet(inv, cutoff, minimum), c);
      }
    }
  }

  // ---------------------------------------------------------------- an inventory that is accepted

  /** A full taken in the second of two archived segments. */
  function Full(step: Word): Backup
    requires 2 * step <= MAX_WORD
  {
    Backup("b", "", 1, 0, step, step, step + 1)
  }

  const ROOT := Timeline(1, 0)

  function TwoSegments(step: Word): Inventory
    requires 2 * step <= MAX_WORD
  {
    Inventory([Full(step)], [[ROOT]], [Segment(1, 0, true), Segment(1, step, true)], step)
  }

  lemma OneRanked(b: Backup)
    requires b.timeline == 1
    ensures Ranked([b], [ROOT]) == [b] && Reachable(b, [ROOT]) && PlaceOf([ROOT], 1) == 0
  {
    assert Candidates([b], [ROOT]) == [b];
    assert [b][1..] == [];
  }

  lemma OnlyBackupKept(step: Word)
    requires 2 * step <= MAX_WORD
    ensures KeepSet(TwoSegments(step), 0, 1) == {"b"}
  {
    var inv, b := TwoSegments(step), Full(step);
    OneRanked(b);
    assert Wanted([b], 0, 0, 1);
    assert inv.paths[0] == [ROOT] && Ranked(inv.backups, inv.paths[0]) == [b];
    assert WantsId([b], "b", 0, 1);
    assert OnSomePath(inv, "b", 0, 1, 1);
    assert inv.backups[0].id == "b" && Kept(inv, inv.backups[0].id, 0, 1);
  }

  lemma TwoSegmentsValid(step: Word)
    requires W.SegmentSize(step)
    ensures InventoryOK(TwoSegments(step), 1) && OnlyLeaf(TwoSegments(step).paths, 1)
  {
    var inv := TwoSegments(step);
    W.DivideUnique(0, step, 0, 0);
    W.DivideUnique(step, step, 1, 0);
    assert inv.paths[0] == [ROOT] && LastId([ROOT]) == 1 && [ROOT][..1] == [ROOT];
    assert BeginningsKnown([ROOT], inv.paths);
    assert PathsOK(inv.paths) && KnownTimeline(inv.paths, 1);
    assert BackupsOK(inv.backups);
  }

  lemma TwoSegmentsFrontier(step: Word)
    requires W.SegmentSize(step)
    ensures Frontier(TwoSegments(step).segments, 1, step) == 2 * step
  {
    var a, b := Segment(1, 0, true), Segment(1, step, true);
    assert [a, b][..1] == [a] && [a][..0] == [];
    assert Frontier([a], 1, step) == step;
  }

  lemma TwoSegmentsCovered(step: Word)
    requires W.SegmentSize(step)
    ensures AllCovered(TwoSegments(step), {"b"}, 1)
  {
    var inv, b := TwoSegments(step), Full(step);
    OneRanked(b);
    TwoSegmentsFrontier(step);
    assert EndOf(inv, [ROOT], 0, step + 1) == 2 * step;
    W.DivideUnique(step, step, 1, 0);
    forall x | step + 1 <= x < 2 * step ensures Live(inv, 1, SegStart(x, step)) {
      SegStartInside(x, step, step);
      assert inv.segments[1] == Segment(1, step, true);
    }
    assert W.Quot(step - 1, step) == 0;
    assert StretchOK(inv, 1, step + 1, 2 * step);
    assert CoveredFrom(inv, [ROOT], 1, 2 * step);
    assert CoveredFrom(inv, [ROOT], 0, step + 1);
    assert inv.paths[0] == [ROOT] && !Gap(inv, b, [ROOT]);
  }

  /** Plan accepts: for every segment size this inventory meets the condition that Plan
      decides, its floor is the second segment, and the first one alone can be retired. */
  lemma PlanAccepts(step: Word)
    requires W.SegmentSize(step)
    ensures Acceptable(TwoSegments(step), 0, 1)
    ensures forall floor :: IsFloor(TwoSegments(step), {"b"}, 1, None, floor) ==>
              var after := Trimmed(TwoSegments(step), 1, floor);
              floor == step && RetiredBelow(TwoSegments(step), after, 1, floor) && !Live(after, 1, 0) && Live(after, 1, step)
  {
    var inv, b := TwoSegments(step), Full(step);
    OneRanked(b);
    OnlyBackupKept(step);
    TwoSegmentsValid(step);
    TwoSegmentsCovered(step);
    W.DivideUnique(step, step, 1, 0);
    assert NeedsAt(inv, b, [ROOT], 0, 1, step);
    assert inv.paths[0] == [ROOT] && NeedsOver(inv, b, 0, 1, step);
    assert Needed(inv, {"b"}, 0, 1, step);
    assert Trimmed(inv, 1, step).segments[1] == Segment(1, step, true);
    forall k: nat, v: nat | Needed(inv, {"b"}, k, 1, v) ensures v == step {
      var i: nat :| NeedsOver(inv, inv.backups[k], i, 1, v);
    }
  }
}
