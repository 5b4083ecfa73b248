/** Which exit code PostgreSQL sees for each WAL request during recovery. Exit 1 means "end
    of archive" and makes PostgreSQL promote, so a wrong 1 silently loses data. Models
    Plan.Validate (target, path and required WAL), eligible, Coverage, restoreSourceWAL, walError and fetchWAL. */
module RecoveryWal {
  import opened Basics
  import opened WalNames

  // ---------------------------------------------------------------- the plan

  /** A half-open WAL interval of one timeline. */
  datatype Range = Range(timeline: nat, start: nat, end: nat)
  datatype Fork = Fork(id: nat, at: Option<nat>)

  /** The selected backup: its timeline, its bundled interval, which ends at its stop position,
      its uid and when it stopped. */
  datatype Selected = Selected(timeline: nat, bundledStart: nat, bundledEnd: nat, uid: string, stopped: int)

  /** The kind of target with its value; Marked stands for the kinds "name" and "xid". */
  datatype Goal = Latest | Immediate | Marked | AtTime(instant: int) | AtLsn(position: nat)

  datatype Plan = Plan(
    size: nat, targetTimeline: nat, goal: Goal, backup: Option<string>,
    path: seq<Fork>, selected: Selected, required: seq<Range>)

  /** Where a timeline forks off its parent; the initial one starts at 0. */
  function ForkAt(f: Fork): nat {
    if f.at.None? then 0 else f.at.value
  }

  /** b can follow a on a path: a later id with a known fork that is not before a's. */
  predicate Follows(a: Fork, b: Fork) {
    a.id < b.id < TWO32 && b.at.Some? && ForkAt(a) <= b.at.value < TWO64
  }

  /** One source history, oldest first. */
  predicate PathShape(path: seq<Fork>) {
    && 1 <= |path| <= 1024
    && 0 < path[0].id < TWO32 && path[0].at.None?
    && forall i :: 0 < i < |path| ==> Follows(path[i - 1], path[i])
  }

  /** Walk the required intervals along the path: each starts where the previous one ended
      and belongs to the current timeline, which changes exactly at a fork. */
  function Walk(required: seq<Range>, pos: nat, pi: nat, path: seq<Fork>): Option<nat>
    requires PathShape(path) && pi < |path|
    decreases |required|
  {
    if required == [] then Some(pi)
    else
      var w := required[0];
      if w.start != pos || w.start >= w.end || w.end >= TWO64 || w.timeline != path[pi].id then None
      else if pi + 1 < |path| && w.end > path[pi + 1].at.value then None
      else Walk(required[1..], w.end, if pi + 1 < |path| && w.end == path[pi + 1].at.value then pi + 1 else pi, path)
  }

  /** Position of a timeline on the path, or its length. */
  function IndexOf(path: seq<Fork>, id: nat): (i: nat)
    ensures i <= |path| && (i < |path| ==> path[i].id == id)
    ensures forall k :: 0 <= k < i ==> path[k].id != id
  {
    if path == [] then 0 else if path[0].id == id then 0
    else
      var r := IndexOf(path[1..], id);
      assert forall k :: 0 < k < r + 1 ==> path[k] == path[1..][k - 1];
      r + 1
  }

  /** At x the path is on its q-th timeline, for a replay that starts on timeline first. */
  predicate OnTimeline(path: seq<Fork>, first: nat, q: nat, x: nat) {
    && first <= q < |path|
    && (q > first ==> ForkAt(path[q]) <= x)
    && (q + 1 < |path| ==> x < ForkAt(path[q + 1]))
  }

  /** Target.validate: marks and the immediate target need a named backup. */
  predicate GoalOK(goal: Goal, backup: Option<string>) {
    && (goal.Marked? || goal.Immediate? ==> backup.Some?)
    && (goal.AtLsn? ==> goal.position < TWO64)
  }

  /** What the backup on timeline idx of the path can reach: it stops before its timeline is
      left and before the target, which lies on the last timeline. */
  predicate Reaches(selected: Selected, goal: Goal, path: seq<Fork>, idx: nat)
    requires PathShape(path) && idx < |path|
  {
    && (idx + 1 < |path| ==> selected.bundledEnd < ForkAt(path[idx + 1]))
    && (goal.AtTime? ==> selected.stopped < goal.instant)
    && (goal.AtLsn? ==> selected.bundledEnd < goal.position && OnTimeline(path, idx, |path| - 1, goal.position))
  }

  predicate ValidPlan(p: Plan) {
    && GoalOK(p.goal, p.backup) && (p.backup.Some? ==> p.backup.value == p.selected.uid)
    && SegmentSize(p.size)
    && PathShape(p.path)
    && |p.required| <= 1024
    && p.path[|p.path| - 1].id == p.targetTimeline
    && p.selected.bundledStart < p.selected.bundledEnd < TWO64
    && var idx := IndexOf(p.path, p.selected.timeline);
       && idx < |p.path|
       && Reaches(p.selected, p.goal, p.path, idx)
       && var end := Walk(p.required, p.selected.bundledEnd, idx, p.path);
          && end.Some?
          && (p.required != [] || !p.goal.Immediate? ==> end.value == |p.path| - 1)
  }

  /** The end of known required coverage. */
  function Frontier(p: Plan): nat {
    if p.required == [] then p.selected.bundledEnd else p.required[|p.required| - 1].end
  }

  /** The walk accepts only a gap-free chain from pos. */
  lemma {:induction false} WalkIsChain(required: seq<Range>, pos: nat, pi: nat, path: seq<Fork>, k: nat)
    requires PathShape(path) && pi < |path| && Walk(required, pos, pi, path).Some? && k < |required|
    ensures required[k].start < required[k].end < TWO64
    ensures required[k].start == if k == 0 then pos else required[k - 1].end
    ensures pos <= required[k].start
    decreases |required|
  {
    if k > 0 {
      var w := required[0];
      var next := if pi + 1 < |path| && w.end == path[pi + 1].at.value then pi + 1 else pi;
      WalkIsChain(required[1..], w.end, next, path, k - 1);
      assert required[1..][k - 1] == required[k];
      if k > 1 {
        assert required[1..][k - 2] == required[k - 1];
      }
    }
  }

  /** Every required interval lies between the end of the bundle and the frontier. */
  lemma {:induction false} RequiredBelowFrontier(p: Plan, k: nat)
    requires ValidPlan(p) && k < |p.required|
    ensures p.selected.bundledEnd <= p.required[k].start < p.required[k].end <= Frontier(p)
    decreases |p.required| - k
  {
    var idx := IndexOf(p.path, p.selected.timeline);
    WalkIsChain(p.required, p.selected.bundledEnd, idx, p.path, k);
    if k + 1 < |p.required| {
      WalkIsChain(p.required, p.selected.bundledEnd, idx, p.path, k + 1);
      RequiredBelowFrontier(p, k + 1);
    }
  }

  /** Each required interval belongs to one timeline and stays between its forks. */
  lemma {:induction false} WalkTimeline(required: seq<Range>, pos: nat, pi: nat, path: seq<Fork>, k: nat) returns (q: nat)
    requires PathShape(path) && pi < |path| && Walk(required, pos, pi, path).Some? && k < |required|
    ensures pi <= q < |path| && required[k].timeline == path[q].id
    ensures q > pi ==> ForkAt(path[q]) <= required[k].start
    ensures q + 1 < |path| ==> required[k].end <= ForkAt(path[q + 1])
    decreases |required|
  {
    var w := required[0];
    if k == 0 {
      q := pi;
      assert pi + 1 < |path| ==> Follows(path[pi], path[pi + 1]);
    } else {
      var next := if pi + 1 < |path| && w.end == path[pi + 1].at.value then pi + 1 else pi;
      WalkIsChain(required[1..], w.end, next, path, k - 1);
      assert required[1..][k - 1] == required[k];
      q := WalkTimeline(required[1..], w.end, next, path, k - 1);
    }
  }

  /** Position x of required interval j lies on the path's own timeline at x. */
  ghost predicate RequiredAt(p: Plan, j: nat, q: nat, x: nat) {
    && j < |p.required| && Within(x, p.required[j])
    && OnTimeline(p.path, IndexOf(p.path, p.selected.timeline), q, x) && p.required[j].timeline == p.path[q].id
  }

  lemma RequiredOnPath(p: Plan, j: nat, x: nat) returns (q: nat)
    requires ValidPlan(p) && j < |p.required| && Within(x, p.required[j])
    ensures RequiredAt(p, j, q, x)
  {
    q := WalkTimeline(p.required, p.selected.bundledEnd, IndexOf(p.path, p.selected.timeline), p.path, j);
  }

  /** The required intervals leave no position between bundle and frontier uncovered, each on
      the timeline that the path has there. */
  lemma {:induction false} RequiredHasNoGap(p: Plan, x: nat, k: nat)
    requires ValidPlan(p) && k < |p.required|
    requires p.selected.bundledEnd <= x < p.required[k].end
    ensures exists j, q :: 0 <= j <= k && RequiredAt(p, j, q, x)
    decreases k
  {
    WalkIsChain(p.required, p.selected.bundledEnd, IndexOf(p.path, p.selected.timeline), p.path, k);
    if x < p.required[k].start {
      RequiredHasNoGap(p, x, k - 1);
    } else {
      var q := RequiredOnPath(p, k, x);
    }
  }

  /** The path loop of Plan.Validate, which also indexes the timelines. */
  method ValidatePath(path: seq<Fork>, timeline: nat) returns (ok: bool, pi: nat)
    ensures ok <==> PathShape(path)
    ensures ok ==> pi == IndexOf(path, timeline)
  {
    pi := |path|;
    if |path| < 1 || |path| > 1024 || path[0].id == 0 || path[0].id >= TWO32 || path[0].at.Some? {
      return false, 0;
    }
    if path[0].id == timeline {
      pi := 0;
    }
    var last := 0;
    for i := 1 to |path|
      invariant forall k :: 0 < k < i ==> Follows(path[k - 1], path[k])
      invariant last == ForkAt(path[i - 1])
      invariant pi == if IndexOf(path, timeline) < i then IndexOf(path, timeline) else |path|
    {
      var t := path[i];
      if t.id >= TWO32 || t.id <= path[i - 1].id || t.at.None? || t.at.value >= TWO64 || t.at.value < last {
        assert !Follows(path[i - 1], path[i]);
        return false, 0;
      }
      last := t.at.value;
      if t.id == timeline && pi == |path| {
        pi := i;
      }
    }
    return true, pi;
  }

  /** The coverage loop of Plan.Validate. */
  method WalkRequired(required: seq<Range>, start: nat, first: nat, path: seq<Fork>) returns (end: Option<nat>)
    requires PathShape(path) && first < |path|
    ensures end == Walk(required, start, first, path)
  {
    var pos: nat, pi: nat := start, first;
    for i := 0 to |required|
      invariant pi < |path|
      invariant Walk(required[i..], pos, pi, path) == Walk(required, start, first, path)
    {
      var w := required[i];
      assert required[i..][0] == w && required[i..][1..] == required[i + 1..];
      if w.start != pos || w.start >= w.end || w.end >= TWO64 || w.timeline != path[pi].id {
        return None;
      }
      pos := w.end;
      if pi + 1 < |path| {
        assert Follows(path[pi], path[pi + 1]);
        if w.end > path[pi + 1].at.value {
          return None;
        }
        if w.end == path[pi + 1].at.value {
          pi := pi + 1;
        }
      }
    }
    return Some(pi);
  }

  /** A target at or after the last fork is at or after every fork before it. */
  lemma {:induction false} ForksAscend(path: seq<Fork>, i: nat, j: nat)
    requires PathShape(path) && i <= j < |path|
    ensures ForkAt(path[i]) <= ForkAt(path[j])
  {
    if i < j {
      assert Follows(path[j - 1], path[j]);
      ForksAscend(path, i, j - 1);
    }
  }

  /** eligible, once the backup's timeline is found at idx. */
  method Eligible(selected: Selected, goal: Goal, path: seq<Fork>, idx: nat) returns (ok: bool)
    requires PathShape(path) && idx < |path|
    ensures ok <==> Reaches(selected, goal, path, idx)
  {
    if idx + 1 < |path| {
      assert Follows(path[idx], path[idx + 1]);
      if selected.bundledEnd >= path[idx + 1].at.value {
        return false;
      }
    }
    match goal {
      case AtTime(instant) =>
        return selected.stopped < instant;
      case AtLsn(position) =>
        if selected.bundledEnd >= position {
          return false;
        }
        for i := idx + 1 to |path|
          invariant forall k :: idx < k < i ==> ForkAt(path[k]) <= position
        {
          assert Follows(path[i - 1], path[i]);
          if position < path[i].at.value {
            ForksAscend(path, i, |path| - 1);
            return false;
          }
        }
        return true;
      case _ =>
        return true;
    }
  }

  /** What a valid plan promises about its backup: it is the one asked for, it stopped before the
      target time or LSN, and it ended before the path leaves its timeline. */
  lemma PlanBackupIsBefore(p: Plan)
    requires ValidPlan(p)
    ensures p.goal.AtTime? ==> p.selected.stopped < p.goal.instant
    ensures p.goal.AtLsn? ==> p.selected.bundledEnd < p.goal.position
    ensures p.backup.Some? ==> p.backup.value == p.selected.uid
    ensures p.goal.Immediate? || p.goal.Marked? ==> p.backup.Some?
    ensures exists k :: 0 <= k < |p.path| && p.path[k].id == p.selected.timeline
                        && forall m :: k < m < |p.path| ==> p.selected.bundledEnd < ForkAt(p.path[m])
    ensures p.goal.AtLsn? ==> forall m :: 0 <= m < |p.path| && p.path[m].id > p.selected.timeline ==> ForkAt(p.path[m]) <= p.goal.position
  {
    var k := IndexOf(p.path, p.selected.timeline);
    forall m | k < m < |p.path| ensures p.selected.bundledEnd < ForkAt(p.path[m]) {
      ForksAscend(p.path, k + 1, m);
    }
    forall m | 0 <= m < |p.path| && p.path[m].id > p.selected.timeline ensures p.goal.AtLsn? ==> ForkAt(p.path[m]) <= p.goal.position {
      if m < k {
        IdsIncrease(p.path, m, k);
      }
      ForksAscend(p.path, m, |p.path| - 1);
    }
  }

  lemma {:induction false} WalkArrives(required: seq<Range>, pos: nat, pi: nat, path: seq<Fork>, first: nat)
    requires PathShape(path) && pi < |path| && Walk(required, pos, pi, path).Some? && (pi > first ==> ForkAt(path[pi]) <= pos)
    ensures var q := Walk(required, pos, pi, path).value;
            pi <= q < |path| && (q > first ==> ForkAt(path[q]) <= if required == [] then pos else required[|required| - 1].end)
    decreases |required|
  {
    if required != [] {
      var w := required[0];
      var next := if pi + 1 < |path| && w.end == path[pi + 1].at.value then pi + 1 else pi;
      if next > pi {
        assert Follows(path[pi], path[pi + 1]);
      }
      WalkArrives(required[1..], w.end, next, path, first);
    }
  }

  /** Unless the target is immediate and nothing is required, the frontier lies on the target
      timeline: the backup is on it, or the required WAL leads up to its fork. */
  lemma FrontierOnTarget(p: Plan)
    requires ValidPlan(p) && (p.required != [] || !p.goal.Immediate?)
    ensures p.selected.timeline == p.targetTimeline || Frontier(p) >= ForkAt(p.path[|p.path| - 1])
  {
    var first := IndexOf(p.path, p.selected.timeline);
    WalkArrives(p.required, p.selected.bundledEnd, first, p.path, first);
  }

  /** Plan.Validate: its target, path and required WAL. */
  method ValidatePlan(p: Plan) returns (ok: bool)
    ensures ok <==> ValidPlan(p)
  {
    if !SegmentSize(p.size) || |p.required| > 1024 || !GoalOK(p.goal, p.backup)
       || p.selected.bundledStart >= p.selected.bundledEnd || p.selected.bundledEnd >= TWO64 {
      return false;
    }
    var shape, pi := ValidatePath(p.path, p.selected.timeline);
    if !shape || p.path[|p.path| - 1].id != p.targetTimeline || pi == |p.path| || (p.backup.Some? && p.backup.value != p.selected.uid) {
      return false;
    }
    var eligible := Eligible(p.selected, p.goal, p.path, pi);
    if !eligible {
      return false;
    }
    var end := WalkRequired(p.required, p.selected.bundledEnd, pi, p.path);
    if end.None? || (|p.required| > 0 && end.value != |p.path| - 1) || (!p.goal.Immediate? && end.value != |p.path| - 1) {
      return false;
    }
    return true;
  }

  // ---------------------------------------------------------------- names and coverage

  predicate SegmentName(name: string) {
    |name| == 24 && AllUpperHex(name)
  }

  predicate HistoryName(name: string) {
    |name| == 16 && AllUpperHex(name[..8]) && name[8..] == ".history"
  }

  predicate PartialName(name: string) {
    |name| == 32 && AllUpperHex(name[..24]) && name[24..] == ".partial"
  }

  predicate BackupName(name: string) {
    |name| == 40 && AllUpperHex(name[..24]) && name[24] == '.' && AllUpperHex(name[25..33]) && name[33..] == ".backup"
  }

  /** walTimeline. */
  function WalTimeline(name: string, size: nat): Option<nat> {
    if !SegmentSize(size) || !(SegmentName(name) || HistoryName(name) || PartialName(name) || BackupName(name)) then None
    else if ParseHex32(name[..8]) == 0 then None
    else if HistoryName(name) then Some(ParseHex32(name[..8]))
    else if ParseHex32(name[16..24]) >= PerLog(size) then None
    else if BackupName(name) && ParseHex32(name[25..33]) >= size then None
    else Some(ParseHex32(name[..8]))
  }

  /** The intersects closure of Coverage, on a segment start. */
  predicate Intersects(timeline: nat, start: nat, size: nat, w: Range) {
    w.timeline == timeline && start < w.end && (w.start < start || w.start - start < size)
  }

  predicate Within(x: nat, w: Range) {
    w.start <= x < w.end
  }

  /** It is a genuine overlap of the segment's bytes with the interval. */
  lemma IntersectsIsOverlap(timeline: nat, start: nat, size: nat, w: Range)
    requires w.start < w.end && size > 0
    ensures Intersects(timeline, start, size, w)
            <==> w.timeline == timeline && exists x :: Within(x, Range(timeline, start, start + size)) && Within(x, w)
  {
    if Intersects(timeline, start, size, w) {
      var x := if w.start < start then start else w.start;
      assert Within(x, Range(timeline, start, start + size)) && Within(x, w);
    }
  }

  /** Coverage: (bundle, remote), or None for an error. */
  function Coverage(p: Plan, name: string): Option<(bool, bool)> {
    if !ValidPlan(p) then None
    else
      var t := WalTimeline(name, p.size);
      if t.None? then None
      else if HistoryName(name) then Some((false, t.value > 1 && exists i :: 0 <= i < |p.path| && p.path[i].id == t.value))
      else if |name| != 24 then Some((false, false))
      else
        var start := DecodeStart(name, p.size);
        var bundle := Intersects(t.value, start, p.size, Range(p.selected.timeline, p.selected.bundledStart, p.selected.bundledEnd));
        Some((bundle, exists i :: 0 <= i < |p.required| && Intersects(t.value, start, p.size, p.required[i])))
  }

  predicate OptionalFuture(p: Plan, name: string) {
    || HistoryName(name)
    || (|name| == 24 && DecodeTimeline(name) == p.targetTimeline && DecodeStart(name, p.size) >= Frontier(p))
  }

  // ---------------------------------------------------------------- the local bundle file

  datatype Integrity = Integrity(size: nat, sha256: string)
  datatype FileStat = FileStat(regular: bool, size: nat, modified: int)
  datatype ReadStatus = More | Eof | Fault
  datatype ReadReply = ReadReply(interrupted: bool, data: seq<bv8>, status: ReadStatus)
  datatype LocalFile = LocalFile(found: bool, before: Option<FileStat>, chunks: seq<ReadReply>, after: Option<FileStat>)

  datatype LocalVerdict = Verified | LocalCorrupt | LocalFault | Interrupted

  /** Everything the file delivers up to its end, or None when it never ends cleanly. */
  ghost function Content(chunks: seq<ReadReply>): Option<seq<bv8>> {
    if chunks == [] || chunks[0].interrupted || chunks[0].status == Fault then None
    else if chunks[0].status == Eof then Some(chunks[0].data)
    else
      match Content(chunks[1..])
      case None => None
      case Some(rest) => Some(chunks[0].data + rest)
  }

  ghost predicate Genuine(f: LocalFile, expected: Integrity, hash: Hash) {
    && f.found && f.before.Some? && f.before.value.regular && f.before.value.size == expected.size
    && Content(f.chunks).Some?
    && |Content(f.chunks).value| == expected.size
    && f.after.Some? && f.after.value.size == f.before.value.size && f.after.value.modified == f.before.value.modified
    && hash(Content(f.chunks).value) == expected.sha256
  }

  type Hash = seq<bv8> -> string

  /** The comparison after the last read. */
  function Compare(f: LocalFile, expected: Integrity, hash: Hash, seen: seq<bv8>): LocalVerdict {
    if f.before.None? || f.after.None? || |seen| != expected.size || f.after.value.size != f.before.value.size
       || f.after.value.modified != f.before.value.modified || hash(seen) != expected.sha256 then LocalCorrupt
    else Verified
  }

  /** What the read loop answers from here, with seen already read. */
  function ReadOn(f: LocalFile, expected: Integrity, hash: Hash, chunks: seq<ReadReply>, seen: seq<bv8>): LocalVerdict
    decreases |chunks|
  {
    if chunks == [] || chunks[0].interrupted then Interrupted
    else if |seen + chunks[0].data| > expected.size then LocalCorrupt
    else match chunks[0].status
      case Eof => Compare(f, expected, hash, seen + chunks[0].data)
      case Fault => LocalFault
      case More => ReadOn(f, expected, hash, chunks[1..], seen + chunks[0].data)
  }

  function BundleVerdict(f: LocalFile, expected: Integrity, hash: Hash): LocalVerdict {
    if !f.found || f.before.None? || !f.before.value.regular || f.before.value.size != expected.size then LocalCorrupt
    else ReadOn(f, expected, hash, f.chunks, [])
  }

  /** The loop verifies exactly the content that ends cleanly, has the size and the hash. */
  lemma {:induction false} ReadOnVerifies(f: LocalFile, expected: Integrity, hash: Hash, chunks: seq<ReadReply>, seen: seq<bv8>)
    ensures ReadOn(f, expected, hash, chunks, seen) == Verified
            <==> Content(chunks).Some? && Compare(f, expected, hash, seen + Content(chunks).value) == Verified
    decreases |chunks|
  {
    if chunks != [] && !chunks[0].interrupted && chunks[0].status == More {
      var rest := Content(chunks[1..]);
      ReadOnVerifies(f, expected, hash, chunks[1..], seen + chunks[0].data);
      assert rest.Some? ==> seen + (chunks[0].data + rest.value) == (seen + chunks[0].data) + rest.value;
    }
  }

  /** MAIN: the verdict is "verified" exactly for a genuine file. */
  lemma VerifiedIsGenuine(f: LocalFile, expected: Integrity, hash: Hash)
    ensures BundleVerdict(f, expected, hash) == Verified <==> Genuine(f, expected, hash)
  {
    ReadOnVerifies(f, expected, hash, f.chunks, []);
    assert Content(f.chunks).Some? ==> [] + Content(f.chunks).value == Content(f.chunks).value;
  }

  /** verifyLocalBundle: read the whole file, never more than expected, and compare. */
  method VerifyLocalBundle(f: LocalFile, expected: Integrity, hash: Hash) returns (r: LocalVerdict)
    ensures r == BundleVerdict(f, expected, hash)
    ensures r == Verified <==> Genuine(f, expected, hash)
  {
    VerifiedIsGenuine(f, expected, hash);
    if !f.found || f.before.None? || !f.before.value.regular || f.before.value.size != expected.size {
      return LocalCorrupt;
    }
    var seen: seq<bv8> := [];
    var i := 0;
    assert f.chunks[0..] == f.chunks;
    while true
      invariant i <= |f.chunks|
      invariant BundleVerdict(f, expected, hash) == ReadOn(f, expected, hash, f.chunks[i..], seen)
      decreases |f.chunks| - i
    {
      if i == |f.chunks| || f.chunks[i].interrupted {
        return Interrupted;
      }
      var reply := f.chunks[i];
      assert f.chunks[i..][1..] == f.chunks[i + 1..];
      seen := seen + reply.data;
      if |seen| > expected.size {
        return LocalCorrupt;
      }
      if reply.status == Eof {
        break;
      }
      if reply.status == Fault {
        return LocalFault;
      }
      i := i + 1;
    }
    return Compare(f, expected, hash, seen);
  }

  // ---------------------------------------------------------------- errors and exit codes

  datatype Kind = InvalidInput | NotFound | HeadMissing | Precondition | StoreConflict | Auth | TLS | Transient
                | StoreCanceled | StoreCorrupt | Limit | Unsupported | UnknownFailure | LocalIO

  /** The error classes walError distinguishes. */
  datatype Error =
    | Store(kind: Kind)
    | InvalidWal | ConflictWal | ExpiredWal | CorruptWal | LocalWal
    | Blocked | Closed | NoCapacity | DeadlineExceeded | Canceled

  datatype Code = OK | NotFoundCode | InvalidArgument | AlreadyExists | DataLoss | PermissionDenied
                | DeadlineCode | CanceledCode | Unavailable | ResourceExhausted | FailedPrecondition

  /** walError. */
  function WalError(e: Error): Code {
    match e
    case Store(NotFound) => NotFoundCode
    case InvalidWal => InvalidArgument
    case ConflictWal => AlreadyExists
    case CorruptWal => DataLoss
    case Store(StoreCorrupt) => DataLoss
    case Store(Auth) => PermissionDenied
    case DeadlineExceeded => DeadlineCode
    case Canceled => CanceledCode
    case Store(StoreCanceled) => CanceledCode
    case Store(Transient) => Unavailable
    case Store(TLS) => Unavailable
    case Store(UnknownFailure) => Unavailable
    case LocalWal => ResourceExhausted
    case Store(LocalIO) => ResourceExhausted
    case _ => FailedPrecondition
  }

  /** restoreSourceWAL: archive is the answer of source.Restore, file what the target volume
      has under the name; None is success. */
  function RestoreSource(p: Plan, bundled: map<string, Integrity>, hash: Hash, name: string, archive: Option<Error>, file: LocalFile): Option<Error> {
    var covered := Coverage(p, name);
    if covered.None? then Some(InvalidWal)
    else if archive != Some(Store(NotFound)) then archive
    else if covered.value.1 then Some(Blocked)
    else if covered.value.0 then
      if name !in bundled then Some(CorruptWal)
      else
        match BundleVerdict(file, bundled[name], hash)
        case Verified => Some(Store(NotFound))
        case LocalCorrupt => Some(CorruptWal)
        case LocalFault => Some(LocalWal)
        case Interrupted => Some(Canceled)
    else if OptionalFuture(p, name) then Some(Store(NotFound))
    else Some(Blocked)
  }

  /** What can go wrong in recoveryWAL.Restore before the source is read. */
  datatype Setup = Ready | BadRequest | NotAdmitted | SlotTimeout | SessionClosed | CapacityRefused | LayoutChanged | RootUnavailable

  function SetupCode(s: Setup): Code {
    match s
    case Ready => OK
    case BadRequest => WalError(InvalidWal)
    case NotAdmitted => FailedPrecondition
    case SlotTimeout => WalError(DeadlineExceeded)
    case SessionClosed => WalError(Closed)
    case CapacityRefused => WalError(NoCapacity)
    case LayoutChanged => WalError(InvalidWal)
    case RootUnavailable => WalError(LocalWal)
  }

  /** The world's answers to one request. gate is the outcome of the reader admission check
      in ReadSource, which may itself be a storage "not found". */
  datatype Answers = Answers(setup: Setup, gate: Option<Error>, archive: Option<Error>, file: LocalFile)

  /** recoveryWAL.Restore. */
  function RestoreCall(p: Plan, bundled: map<string, Integrity>, hash: Hash, name: string, a: Answers): Code {
    if a.setup != Ready then SetupCode(a.setup)
    else if a.gate.Some? then FailedPrecondition
    else
      match RestoreSource(p, bundled, hash, name, a.archive, a.file)
      case None => OK
      case Some(e) => WalError(e)
  }

  /** fetchWAL; the call itself may be lost or panic, which is fatal. */
  function Exit(reply: Option<Code>): nat {
    match reply
    case Some(OK) => 0
    case Some(NotFoundCode) => 1
    case _ => 255
  }

  /** Where PostgreSQL gets a segment from. */
  datatype Source = FromArchive | FromBundle | EndOfArchive | Fatal

  /** The bundle covers the name and the local copy is the recorded file. */
  ghost predicate BundleGenuine(p: Plan, bundled: map<string, Integrity>, hash: Hash, name: string, a: Answers) {
    Coverage(p, name).Some? && Coverage(p, name).value.0 && name in bundled && Genuine(a.file, bundled[name], hash)
  }

  ghost function Outcome(p: Plan, bundled: map<string, Integrity>, hash: Hash, name: string, a: Answers): Source {
    match Exit(Some(RestoreCall(p, bundled, hash, name, a)))
    case 0 => FromArchive
    case 1 => if BundleGenuine(p, bundled, hash, name, a) then FromBundle else EndOfArchive
    case _ => Fatal
  }

  /** Exit 1 characterised: an authenticated archive miss on a healthy, admitted session,
      no required overlap, and either a genuine bundle copy or an optional name. */
  lemma ExitOneMeans(p: Plan, bundled: map<string, Integrity>, hash: Hash, name: string, a: Answers)
    ensures Exit(Some(RestoreCall(p, bundled, hash, name, a))) == 1
            <==> && a.setup == Ready && a.gate.None? && a.archive == Some(Store(NotFound))
                 && Coverage(p, name).Some? && !Coverage(p, name).value.1
                 && if Coverage(p, name).value.0 then name in bundled && Genuine(a.file, bundled[name], hash)
                    else OptionalFuture(p, name)
    ensures Exit(Some(RestoreCall(p, bundled, hash, name, a))) == 0
            <==> a.setup == Ready && a.gate.None? && a.archive.None? && Coverage(p, name).Some?
  {
    assert forall e :: WalError(e) == NotFoundCode <==> e == Store(NotFound);
    assert forall e :: WalError(e) != OK;
    if name in bundled {
      VerifiedIsGenuine(a.file, bundled[name], hash);
    }
  }

  // ---------------------------------------------------------------- replay

  /** One request of a replay: the segment PostgreSQL asks for and the answers it meets. */
  datatype Request = Request(timeline: nat, start: nat, answers: Answers)

  ghost function NameOf(p: Plan, r: Request): string
    requires SegmentSize(p.size) && r.timeline < TWO32 && r.start < TWO64
  {
    NameRoundTrip(r.timeline, r.start, p.size);
    WalFilename(r.timeline, r.start, p.size).value
  }

  ghost predicate WellFormed(p: Plan, r: Request) {
    && SegmentSize(p.size) && 0 < r.timeline < TWO32 && r.start < TWO64
    && SegmentStart(r.start, p.size) == r.start
  }

  ghost function Served(p: Plan, bundled: map<string, Integrity>, hash: Hash, r: Request): Source
    requires WellFormed(p, r)
  {
    Outcome(p, bundled, hash, NameOf(p, r), r.answers)
  }

  /** Overlap of a request with a required interval of its own timeline. */
  ghost predicate NeedsArchive(p: Plan, r: Request) {
    exists i :: 0 <= i < |p.required| && Intersects(r.timeline, r.start, p.size, p.required[i])
  }

  /** x is a byte position of the requested segment. */
  ghost predicate Holds(r: Request, size: nat, x: nat) {
    r.start <= x < r.start + size
  }

  /** A replay asks for one segment after another, in any order and on any timelines, and
      goes on only while it gets a file. */
  ghost predicate IsReplay(p: Plan, bundled: map<string, Integrity>, hash: Hash, run: seq<Request>) {
    && ValidPlan(p)
    && (forall k :: 0 <= k < |run| ==> WellFormed(p, run[k]))
    && (forall k :: 0 <= k < |run| - 1 ==>
          Served(p, bundled, hash, run[k]) == FromArchive || Served(p, bundled, hash, run[k]) == FromBundle)
  }

  /** A printed segment name passes walTimeline with its own timeline. */
  lemma TimelineOfRequest(p: Plan, r: Request)
    requires WellFormed(p, r)
    ensures var name := NameOf(p, r);
            && SegmentName(name) && WalTimeline(name, p.size) == Some(r.timeline)
            && DecodeTimeline(name) == r.timeline && DecodeStart(name, p.size) == r.start
  {
    NameRoundTrip(r.timeline, r.start, p.size);
    var name := NameOf(p, r);
    assert name[16..24] == name[16..];
  }

  /** The classification of a printed name reads back the request's own coordinates. */
  lemma CoverageOfRequest(p: Plan, r: Request)
    requires ValidPlan(p) && WellFormed(p, r)
    ensures var name := NameOf(p, r);
            && Coverage(p, name).Some?
            && (Coverage(p, name).value.1 <==> NeedsArchive(p, r))
            && (OptionalFuture(p, name) <==> r.timeline == p.targetTimeline && r.start >= Frontier(p))
  {
    TimelineOfRequest(p, r);
  }

  // ---------------------------------------------------------------- exit 1, name by name

  /** A healthy, admitted session whose archive says "not found". */
  ghost predicate CleanMiss(a: Answers) {
    a.setup == Ready && a.gate.None? && a.archive == Some(Store(NotFound))
  }

  ghost predicate Ends(p: Plan, bundled: map<string, Integrity>, hash: Hash, name: string, a: Answers) {
    Exit(Some(RestoreCall(p, bundled, hash, name, a))) == 1
  }

  /** The requested segment and the interval have a position in common. */
  ghost predicate Shares(p: Plan, r: Request, w: Range) {
    r.timeline == w.timeline && exists x :: Holds(r, p.size, x) && Within(x, w)
  }

  ghost predicate RequiredShares(p: Plan, r: Request) {
    exists i :: 0 <= i < |p.required| && Shares(p, r, p.required[i])
  }

  function Bundle(p: Plan): Range {
    Range(p.selected.timeline, p.selected.bundledStart, p.selected.bundledEnd)
  }

  lemma SharesIsIntersects(p: Plan, r: Request, w: Range)
    requires w.start < w.end && p.size > 0
    ensures Shares(p, r, w) <==> Intersects(r.timeline, r.start, p.size, w)
  {
    IntersectsIsOverlap(r.timeline, r.start, p.size, w);
    assert forall x :: Holds(r, p.size, x) <==> Within(x, Range(r.timeline, r.start, r.start + p.size));
  }

  lemma RequiredSharesIs(p: Plan, r: Request)
    requires ValidPlan(p)
    ensures RequiredShares(p, r) <==> NeedsArchive(p, r)
  {
    forall i | 0 <= i < |p.required| ensures Shares(p, r, p.required[i]) <==> Intersects(r.timeline, r.start, p.size, p.required[i]) {
      RequiredBelowFrontier(p, i);
      SharesIsIntersects(p, r, p.required[i]);
    }
  }

  /** MAIN: for a segment, exit 1 is given exactly on a clean miss when no required position is in
      it and it is either bundled with a genuine copy or unbundled at or past the frontier of the
      target timeline. */
  lemma SegmentExit(p: Plan, bundled: map<string, Integrity>, hash: Hash, r: Request)
    requires ValidPlan(p) && WellFormed(p, r)
    ensures Ends(p, bundled, hash, NameOf(p, r), r.answers) <==>
              && CleanMiss(r.answers) && !RequiredShares(p, r)
              && if Shares(p, r, Bundle(p)) then NameOf(p, r) in bundled && Genuine(r.answers.file, bundled[NameOf(p, r)], hash)
                 else r.timeline == p.targetTimeline && r.start >= Frontier(p)
  {
    TimelineOfRequest(p, r);
    CoverageOfRequest(p, r);
    RequiredSharesIs(p, r);
    SharesIsIntersects(p, r, Bundle(p));
    ExitOneMeans(p, bundled, hash, NameOf(p, r), r.answers);
  }

  /** A segment wholly inside the bundle is never required from the archive: with a genuine
      copy a clean miss sends PostgreSQL to that copy. */
  lemma BundledSegmentIsUsed(p: Plan, bundled: map<string, Integrity>, hash: Hash, r: Request)
    requires ValidPlan(p) && WellFormed(p, r) && CleanMiss(r.answers)
    requires r.timeline == p.selected.timeline && p.selected.bundledStart < r.start + p.size <= p.selected.bundledEnd
    requires NameOf(p, r) in bundled && Genuine(r.answers.file, bundled[NameOf(p, r)], hash)
    ensures Ends(p, bundled, hash, NameOf(p, r), r.answers) && Served(p, bundled, hash, r) == FromBundle
  {
    forall i | 0 <= i < |p.required| ensures !Shares(p, r, p.required[i]) {
      RequiredBelowFrontier(p, i);
    }
    var x := r.start + p.size - 1;
    assert Holds(r, p.size, x) && Within(x, Bundle(p));
    SegmentExit(p, bundled, hash, r);
    TimelineOfRequest(p, r);
    SharesIsIntersects(p, r, Bundle(p));
  }

  /** The timeline of the plan's path with this id needs its history file. */
  ghost predicate HistoryNeeded(p: Plan, timeline: nat) {
    timeline > 1 && exists i :: 0 <= i < |p.path| && p.path[i].id == timeline
  }

  /** MAIN: for a history file, exit 1 is given exactly on a clean miss when its timeline is the
      first one or not on the path; a history file of the path is never said to be missing. */
  lemma HistoryExit(p: Plan, bundled: map<string, Integrity>, hash: Hash, name: string, a: Answers)
    requires ValidPlan(p) && HistoryName(name)
    ensures Ends(p, bundled, hash, name, a) <==>
              CleanMiss(a) && ParseHex32(name[..8]) > 0 && !HistoryNeeded(p, ParseHex32(name[..8]))
  {
    ExitOneMeans(p, bundled, hash, name, a);
  }

  /** The four forms of WAL names, of a timeline other than 0 and inside a log file. */
  ghost predicate RestorableName(name: string, size: nat)
    requires size > 0
  {
    || (HistoryName(name) && ParseHex32(name[..8]) > 0)
    || (|name| >= 24 && AllUpperHex(name[..24]) && ParseHex32(name[..8]) > 0 && ParseHex32(name[16..24]) < PerLog(size)
        && (|| name[24..] == "" || name[24..] == ".partial"
            || (|name| == 40 && name[24] == '.' && AllUpperHex(name[25..33]) && name[33..] == ".backup" && ParseHex32(name[25..33]) < size)))
  }

  /** A file is restored exactly under such a name, in a healthy admitted session whose archive
      has it. */
  lemma RestoredNames(p: Plan, bundled: map<string, Integrity>, hash: Hash, name: string, a: Answers)
    requires ValidPlan(p)
    ensures Exit(Some(RestoreCall(p, bundled, hash, name, a))) == 0 <==>
              a.setup == Ready && a.gate.None? && a.archive.None? && RestorableName(name, p.size)
  {
    ExitOneMeans(p, bundled, hash, name, a);
    if |name| == 24 {
      assert name[..24] == name && name[24..] == "";
    }
    assert |".partial"| == 8 && |".history"| == 8;
  }

  /** Any other name, and any name under an invalid plan, is answered 0 or 255. */
  lemma OtherNamesNeverEnd(p: Plan, bundled: map<string, Integrity>, hash: Hash, name: string, a: Answers)
    requires !ValidPlan(p) || !(HistoryName(name) || (SegmentName(name) && ParseHex32(name[..8]) > 0 && ParseHex32(name[16..]) < PerLog(p.size)))
    ensures !Ends(p, bundled, hash, name, a)
  {
    ExitOneMeans(p, bundled, hash, name, a);
    if SegmentName(name) {
      assert name[16..24] == name[16..];
    }
  }

  /** MAIN: whatever the name, exit 1 means a genuine bundle file, a segment of the target
      timeline at or past the frontier, or a history file that the path does not need. */
  lemma EndMeans(p: Plan, bundled: map<string, Integrity>, hash: Hash, name: string, a: Answers)
    requires Ends(p, bundled, hash, name, a)
    ensures ValidPlan(p) && CleanMiss(a)
    ensures || (name in bundled && Genuine(a.file, bundled[name], hash))
            || (SegmentName(name) && DecodeTimeline(name) == p.targetTimeline && DecodeStart(name, p.size) >= Frontier(p))
            || (HistoryName(name) && !HistoryNeeded(p, ParseHex32(name[..8])))
  {
    if !ValidPlan(p) {
      OtherNamesNeverEnd(p, bundled, hash, name, a);
    } else if HistoryName(name) {
      HistoryExit(p, bundled, hash, name, a);
    } else if SegmentName(name) && ParseHex32(name[..8]) > 0 && ParseHex32(name[16..]) < PerLog(p.size) {
      DecodeRoundTrip(name, p.size);
      var r := Request(DecodeTimeline(name), DecodeStart(name, p.size), a);
      assert NameOf(p, r) == name;
      SegmentExit(p, bundled, hash, r);
    } else {
      OtherNamesNeverEnd(p, bundled, hash, name, a);
    }
  }

  /** One request: what each outcome says about the segment. */
  lemma ServedMeans(p: Plan, bundled: map<string, Integrity>, hash: Hash, r: Request)
    requires ValidPlan(p) && WellFormed(p, r)
    ensures Served(p, bundled, hash, r) == EndOfArchive ==> r.timeline == p.targetTimeline && r.start >= Frontier(p)
    ensures Served(p, bundled, hash, r) == FromBundle ==>
              !NeedsArchive(p, r) && NameOf(p, r) in bundled && Genuine(r.answers.file, bundled[NameOf(p, r)], hash)
    ensures Served(p, bundled, hash, r) == FromArchive ==> r.answers.archive.None?
    ensures NeedsArchive(p, r) ==> Served(p, bundled, hash, r) == FromArchive || Served(p, bundled, hash, r) == Fatal
  {
    CoverageOfRequest(p, r);
    ExitOneMeans(p, bundled, hash, NameOf(p, r), r.answers);
  }

  /** From the archive without error, or from a bundle file of the recorded size and hash. */
  ghost predicate GenuinelyServed(p: Plan, bundled: map<string, Integrity>, hash: Hash, r: Request)
    requires WellFormed(p, r)
  {
    || (Served(p, bundled, hash, r) == FromArchive && r.answers.archive.None?)
    || (Served(p, bundled, hash, r) == FromBundle && NameOf(p, r) in bundled && Genuine(r.answers.file, bundled[NameOf(p, r)], hash))
  }

  /** MAIN: when a replay is told "end of archive", the segment is on the target timeline at
      or after the frontier; every earlier segment came from the archive or from a bundle
      copy of the recorded size and hash, and from the archive alone where a required
      interval overlaps. */
  lemma ReplayEndsOnlyPastFrontier(p: Plan, bundled: map<string, Integrity>, hash: Hash, run: seq<Request>)
    requires IsReplay(p, bundled, hash, run) && run != []
    requires Served(p, bundled, hash, run[|run| - 1]) == EndOfArchive
    ensures var end := run[|run| - 1]; end.timeline == p.targetTimeline && end.start >= Frontier(p)
    ensures forall k :: 0 <= k < |run| - 1 ==> GenuinelyServed(p, bundled, hash, run[k])
    ensures forall k :: 0 <= k < |run| - 1 && NeedsArchive(p, run[k]) ==> Served(p, bundled, hash, run[k]) == FromArchive
  {
    var last := |run| - 1;
    ServedMeans(p, bundled, hash, run[last]);
    forall k | 0 <= k < last
      ensures GenuinelyServed(p, bundled, hash, run[k]) && (NeedsArchive(p, run[k]) ==> Served(p, bundled, hash, run[k]) == FromArchive)
    {
      ServedMeans(p, bundled, hash, run[k]);
    }
  }

  // ---------------------------------------------------------------- replay along the path

  /** After segment a comes the next one of its timeline, or, once a reaches the fork, the
      segment of the next timeline that holds the fork. */
  ghost predicate Advances(p: Plan, a: Request, b: Request)
    requires PathShape(p.path) && p.size > 0
  {
    var q := IndexOf(p.path, a.timeline);
    if q + 1 < |p.path| && a.start + p.size >= ForkAt(p.path[q + 1])
    then b.timeline == p.path[q + 1].id && b.start == SegmentStart(ForkAt(p.path[q + 1]), p.size)
    else b.timeline == a.timeline && b.start == a.start + p.size
  }

  /** The replay begins with the backup's bundled WAL and walks the path. */
  ghost predicate FollowsPath(p: Plan, run: seq<Request>)
    requires PathShape(p.path) && p.size > 0
  {
    && (run != [] ==> run[0].timeline == p.selected.timeline && run[0].start <= p.selected.bundledStart)
    && forall k :: 0 < k < |run| ==> Advances(p, run[k - 1], run[k])
  }

  lemma {:induction false} IdsIncrease(path: seq<Fork>, i: nat, j: nat)
    requires PathShape(path) && i < j < |path|
    ensures path[i].id < path[j].id
  {
    assert Follows(path[j - 1], path[j]);
    if i < j - 1 {
      IdsIncrease(path, i, j - 1);
    }
  }

  lemma IndexOfId(path: seq<Fork>, q: nat)
    requires PathShape(path) && q < |path|
    ensures IndexOf(path, path[q].id) == q
  {
    var i := IndexOf(path, path[q].id);
    if i < q {
      IdsIncrease(path, i, q);
    }
  }

  lemma AdvanceIndex(p: Plan, a: Request, b: Request)
    requires PathShape(p.path) && p.size > 0 && Advances(p, a, b) && IndexOf(p.path, a.timeline) < |p.path|
    ensures IndexOf(p.path, a.timeline) <= IndexOf(p.path, b.timeline) < |p.path|
  {
    var q := IndexOf(p.path, a.timeline);
    if q + 1 < |p.path| {
      IndexOfId(p.path, q + 1);
    }
  }

  lemma {:induction false} RunOnPath(p: Plan, run: seq<Request>, k: nat)
    requires ValidPlan(p) && FollowsPath(p, run) && k < |run|
    ensures IndexOf(p.path, p.selected.timeline) <= IndexOf(p.path, run[k].timeline) < |p.path|
  {
    if k > 0 {
      RunOnPath(p, run, k - 1);
      AdvanceIndex(p, run[k - 1], run[k]);
    }
  }

  lemma SegmentHolds(x: nat, size: nat)
    requires size > 0
    ensures SegmentStart(x, size) <= x < SegmentStart(x, size) + size
  {
    Division(x, size);
  }

  /** Position x of the path's q-th timeline lies before the end of segment r. */
  ghost predicate Behind(p: Plan, r: Request, q: nat, x: nat) {
    var here := IndexOf(p.path, r.timeline);
    q < here || (q == here && x < r.start + p.size)
  }

  /** What lies behind b lies behind a, or is held by b. */
  lemma BehindStep(p: Plan, a: Request, b: Request, first: nat, q: nat, x: nat)
    requires PathShape(p.path) && p.size > 0 && Advances(p, a, b) && first <= IndexOf(p.path, a.timeline) < |p.path|
    requires OnTimeline(p.path, first, q, x) && Behind(p, b, q, x)
    ensures Behind(p, a, q, x) || (b.timeline == p.path[q].id && Holds(b, p.size, x))
  {
    var before := IndexOf(p.path, a.timeline);
    if before + 1 < |p.path| && a.start + p.size >= ForkAt(p.path[before + 1]) {
      IndexOfId(p.path, before + 1);
      SegmentHolds(ForkAt(p.path[before + 1]), p.size);
    }
  }

  /** Everything of the path that lies behind request k was requested, on its own timeline. */
  lemma {:induction false} PathWasRequested(p: Plan, run: seq<Request>, k: nat, q: nat, x: nat) returns (j: nat)
    requires ValidPlan(p) && FollowsPath(p, run) && k < |run| && run[0].start <= x
    requires OnTimeline(p.path, IndexOf(p.path, p.selected.timeline), q, x) && Behind(p, run[k], q, x)
    ensures j <= k && run[j].timeline == p.path[q].id && Holds(run[j], p.size, x)
  {
    if k == 0 {
      j := 0;
    } else if run[k].timeline == p.path[q].id && Holds(run[k], p.size, x) {
      j := k;
    } else {
      RunOnPath(p, run, k - 1);
      BehindStep(p, run[k - 1], run[k], IndexOf(p.path, p.selected.timeline), q, x);
      j := PathWasRequested(p, run, k - 1, q, x);
    }
  }

  /** A run that has come to the target timeline past the frontier asked for every required
      position before. */
  lemma RequiredWasRequested(p: Plan, run: seq<Request>, i: nat, x: nat) returns (j: nat)
    requires ValidPlan(p) && FollowsPath(p, run) && run != [] && i < |p.required| && Within(x, p.required[i])
    requires var end := run[|run| - 1]; end.timeline == p.targetTimeline && end.start >= Frontier(p)
    ensures j < |run| - 1 && run[j].timeline == p.required[i].timeline && Holds(run[j], p.size, x)
  {
    var last := |run| - 1;
    RequiredBelowFrontier(p, i);
    IndexOfId(p.path, |p.path| - 1);
    var q := RequiredOnPath(p, i, x);
    j := PathWasRequested(p, run, last, q, x);
    IndexOfId(p.path, q);
  }

  /** A replay along the path never passes an LSN target: the target was requested, on the
      target timeline, before anything beyond it. */
  lemma TargetWasRequested(p: Plan, run: seq<Request>) returns (j: nat)
    requires ValidPlan(p) && p.goal.AtLsn? && FollowsPath(p, run) && run != []
    requires var end := run[|run| - 1]; end.timeline == p.targetTimeline && p.goal.position < end.start + p.size
    ensures j < |run| && run[j].timeline == p.targetTimeline && Holds(run[j], p.size, p.goal.position)
  {
    var q := |p.path| - 1;
    IndexOfId(p.path, q);
    j := PathWasRequested(p, run, |run| - 1, q, p.goal.position);
  }

  /** MAIN: if a replay along the path is told "end of archive", every required position had
      been served before, from the archive, on its own timeline. */
  lemma RequiredWasServed(p: Plan, bundled: map<string, Integrity>, hash: Hash, run: seq<Request>, i: nat, x: nat) returns (j: nat)
    requires IsReplay(p, bundled, hash, run) && run != [] && FollowsPath(p, run)
    requires Served(p, bundled, hash, run[|run| - 1]) == EndOfArchive
    requires i < |p.required| && Within(x, p.required[i])
    ensures j < |run| - 1 && run[j].timeline == p.required[i].timeline && Holds(run[j], p.size, x)
    ensures Served(p, bundled, hash, run[j]) == FromArchive
  {
    ServedMeans(p, bundled, hash, run[|run| - 1]);
    j := RequiredWasRequested(p, run, i, x);
    assert Intersects(run[j].timeline, run[j].start, p.size, p.required[i]) by {
      IntersectsIsOverlap(run[j].timeline, run[j].start, p.size, p.required[i]);
    }
    ServedMeans(p, bundled, hash, run[j]);
  }

  // ---------------------------------------------------------------- a replay that ends

  const NO_FILE := LocalFile(false, None, [], None)
  const HEALTHY := Answers(Ready, None, None, NO_FILE)
  const MISSING := Answers(Ready, None, Some(Store(NotFound)), NO_FILE)

  /** Required WAL on two timelines, the second forking after one segment. */
  function TwoTimelines(size: nat): Plan {
    Plan(size, 2, Latest, None, [Fork(1, None), Fork(2, Some(size))], Selected(1, 0, 1, "", 0), [Range(1, 1, size), Range(2, size, 2 * size)])
  }

  lemma TwoTimelinesValid(size: nat)
    requires SegmentSize(size)
    ensures ValidPlan(TwoTimelines(size)) && Frontier(TwoTimelines(size)) == 2 * size
  {
    var p := TwoTimelines(size);
    assert Follows(p.path[0], p.path[1]);
    assert IndexOf(p.path, 1) == 0;
    var a, b := p.required[0], p.required[1];
    assert p.required[1..] == [b] && [b][1..] == [];
    assert Walk([], 2 * size, 1, p.path) == Some(1);
    assert Walk([b], size, 1, p.path) == Some(1);
    assert Walk(p.required, 1, 0, p.path) == Some(1);
  }

  lemma HealthyServed(size: nat, timeline: nat, start: nat)
    requires SegmentSize(size) && WellFormed(TwoTimelines(size), Request(timeline, start, HEALTHY))
    ensures forall hash: Hash :: Served(TwoTimelines(size), map[], hash, Request(timeline, start, HEALTHY)) == FromArchive
  {
    var p, r := TwoTimelines(size), Request(timeline, start, HEALTHY);
    TwoTimelinesValid(size);
    CoverageOfRequest(p, r);
    forall hash: Hash ensures Served(p, map[], hash, r) == FromArchive {
      ExitOneMeans(p, map[], hash, NameOf(p, r), r.answers);
    }
  }

  lemma MissEnds(size: nat, hash: Hash)
    requires SegmentSize(size) && WellFormed(TwoTimelines(size), Request(2, 2 * size, MISSING))
    ensures Served(TwoTimelines(size), map[], hash, Request(2, 2 * size, MISSING)) == EndOfArchive
  {
    var p, r := TwoTimelines(size), Request(2, 2 * size, MISSING);
    TwoTimelinesValid(size);
    CoverageOfRequest(p, r);
    TimelineOfRequest(p, r);
    ExitOneMeans(p, map[], hash, NameOf(p, r), r.answers);
  }

  function TwoTimelinesRun(size: nat): seq<Request> {
    [Request(1, 0, HEALTHY), Request(2, size, HEALTHY), Request(2, 2 * size, MISSING)]
  }

  lemma TwoTimelinesFollows(size: nat)
    requires SegmentSize(size)
    ensures forall k :: 0 <= k < 3 ==> WellFormed(TwoTimelines(size), TwoTimelinesRun(size)[k])
    ensures PathShape(TwoTimelines(size).path) && FollowsPath(TwoTimelines(size), TwoTimelinesRun(size))
  {
    var p, run := TwoTimelines(size), TwoTimelinesRun(size);
    TwoTimelinesValid(size);
    DivideUnique(0, size, 0, 0);
    DivideUnique(size, size, 1, 0);
    DivideUnique(2 * size, size, 2, 0);
    IndexOfId(p.path, 0);
    IndexOfId(p.path, 1);
    assert Advances(p, run[0], run[1]) && Advances(p, run[1], run[2]);
  }

  /** Replays do end: two archived segments across a fork, then a miss past the frontier. */
  lemma ReplayCanEnd(size: nat, hash: Hash)
    requires SegmentSize(size)
    ensures var p, run := TwoTimelines(size), TwoTimelinesRun(size);
            && IsReplay(p, map[], hash, run) && PathShape(p.path) && FollowsPath(p, run)
            && Served(p, map[], hash, run[2]) == EndOfArchive && p.required != []
  {
    TwoTimelinesValid(size);
    TwoTimelinesFollows(size);
    var p, run := TwoTimelines(size), TwoTimelinesRun(size);
    assert WellFormed(p, run[0]) && WellFormed(p, run[1]) && WellFormed(p, run[2]);
    HealthyServed(size, 1, 0);
    HealthyServed(size, 2, size);
    MissEnds(size, hash);
  }
}
