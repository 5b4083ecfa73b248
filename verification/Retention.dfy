/** The retention planner: which backups to keep, in which order to expire the others, and
    how far WAL may be trimmed. Models retention.Plan. */
module Retention {
  import opened Basics

  const MAX_WORD: int := 0xffff_ffff_ffff_ffff

  /** A WAL position: uint64. */
  type Word = x: int | 0 <= x <= MAX_WORD

  datatype Backup = Backup(id: string, parent: string, timeline: nat, completed: int, start: Word, redo: Word, end: Word)

  /** One step of a timeline path: the timeline and where it left its predecessor. */
  datatype Timeline = Timeline(id: nat, fork: Word)

  // ---------------------------------------------------------------- sorting

  /** sort.Slice by a strict order. */
  function InsertBy(before: (Backup, Backup) -> bool, b: Backup, s: seq<Backup>): (r: seq<Backup>)
    ensures multiset(r) == multiset(s) + multiset{b}
  {
    if s == [] then [b]
    else if before(b, s[0]) then [b] + s
    else
      assert s == [s[0]] + s[1..];
      [s[0]] + InsertBy(before, b, s[1..])
  }

  function SortBy(before: (Backup, Backup) -> bool, s: seq<Backup>): (r: seq<Backup>)
    ensures multiset(r) == multiset(s)
  {
    if s == [] then []
    else
      assert s == [s[0]] + s[1..];
      InsertBy(before, s[0], SortBy(before, s[1..]))
  }

  ghost predicate Strict(before: (Backup, Backup) -> bool) {
    && (forall a: Backup, b: Backup :: a.id != b.id ==> before(a, b) || before(b, a))
    && (forall a, b, c :: before(a, b) && before(b, c) ==> before(a, c))
  }

  ghost predicate OrderedBy(before: (Backup, Backup) -> bool, s: seq<Backup>) {
    forall i, j :: 0 <= i < j < |s| ==> before(s[i], s[j])
  }

  predicate IdsDistinct(s: seq<Backup>) {
    forall i, j :: 0 <= i < j < |s| ==> s[i].id != s[j].id
  }

  lemma {:induction false} InsertOrdered(before: (Backup, Backup) -> bool, b: Backup, s: seq<Backup>)
    requires Strict(before) && OrderedBy(before, s) && forall i :: 0 <= i < |s| ==> s[i].id != b.id
    ensures OrderedBy(before, InsertBy(before, b, s))
  {
    if s != [] && !before(b, s[0]) {
      var rest := InsertBy(before, b, s[1..]);
      InsertOrdered(before, b, s[1..]);
      forall j | 0 <= j < |rest| ensures before(s[0], rest[j]) {
        assert rest[j] in multiset(rest);
        assert rest[j] == b || rest[j] in s[1..];
      }
    }
  }

  lemma SortMembers(before: (Backup, Backup) -> bool, s: seq<Backup>, b: Backup)
    ensures b in SortBy(before, s) <==> b in s
  {
    assert b in SortBy(before, s) <==> b in multiset(SortBy(before, s));
    assert b in s <==> b in multiset(s);
  }

  lemma {:induction false} SortOrdered(before: (Backup, Backup) -> bool, s: seq<Backup>)
    requires Strict(before) && IdsDistinct(s)
    ensures OrderedBy(before, SortBy(before, s))
  {
    if s != [] {
      SortOrdered(before, s[1..]);
      var rest := SortBy(before, s[1..]);
      forall i | 0 <= i < |rest| ensures rest[i].id != s[0].id {
        SortMembers(before, s[1..], rest[i]);
        var k :| 0 <= k < |s[1..]| && s[1..][k] == rest[i];
        assert s[k + 1] == rest[i];
      }
      InsertOrdered(before, s[0], rest);
    }
  }

  // ---------------------------------------------------------------- the two orders

  predicate IdBefore(a: string, b: string) {
    a != b && AtMost(a, b)
  }

  /** newer: later completion first, the larger ID on a tie. */
  predicate Newer(a: Backup, b: Backup) {
    if a.completed == b.completed then IdBefore(b.id, a.id) else a.completed > b.completed
  }

  /** The expiry order: differentials first, then by ID. */
  predicate ExpiresBefore(a: Backup, b: Backup) {
    if (a.parent != "") != (b.parent != "") then a.parent != "" else IdBefore(a.id, b.id)
  }

  lemma IdOrder(a: string, b: string, c: string)
    ensures a != b ==> IdBefore(a, b) || IdBefore(b, a)
    ensures IdBefore(a, b) && IdBefore(b, c) ==> IdBefore(a, c)
    ensures IdBefore(a, b) ==> !IdBefore(b, a)
  {
    AtMostTotal(a, b);
    if AtMost(a, b) && AtMost(b, a) {
      AtMostAntisymmetric(a, b);
    }
    if AtMost(a, b) && AtMost(b, c) {
      AtMostTransitive(a, b, c);
      if a == c {
        AtMostAntisymmetric(a, b);
      }
    }
  }

  lemma NewerIsStrict()
    ensures Strict(Newer)
  {
    forall a: Backup, b: Backup | a.id != b.id ensures Newer(a, b) || Newer(b, a) {
      IdOrder(a.id, b.id, a.id);
    }
    forall a, b, c | Newer(a, b) && Newer(b, c) ensures Newer(a, c) {
      IdOrder(c.id, b.id, a.id);
    }
  }

  lemma ExpiryIsStrict()
    ensures Strict(ExpiresBefore)
  {
    forall a: Backup, b: Backup | a.id != b.id ensures ExpiresBefore(a, b) || ExpiresBefore(b, a) {
      IdOrder(a.id, b.id, a.id);
    }
    forall a, b, c | ExpiresBefore(a, b) && ExpiresBefore(b, c) ensures ExpiresBefore(a, c) {
      IdOrder(a.id, b.id, c.id);
    }
  }

  // ---------------------------------------------------------------- which backups a path can use

  /** The position of a timeline on a path, or the length. */
  function PlaceOf(path: seq<Timeline>, id: nat): (i: nat)
    ensures i <= |path| && (i < |path| ==> path[i].id == id)
    ensures forall k :: 0 <= k < i ==> path[k].id != id
  {
    if path == [] || path[0].id == id then 0
    else
      var r := PlaceOf(path[1..], id);
      assert forall k :: 0 < k < r + 1 ==> path[k] == path[1..][k - 1];
      r + 1
  }

  /** A backup serves a path if it ended before the path left its timeline. */
  predicate Reachable(b: Backup, path: seq<Timeline>) {
    var i := PlaceOf(path, b.timeline);
    i < |path| && (i == |path| - 1 || b.end < path[i + 1].fork)
  }

  predicate PathOK(path: seq<Timeline>) {
    && 1 <= |path| <= 1024 && path[0].fork == 0
    && (forall i :: 0 <= i < |path| ==> path[i].id > 0)
    && (forall i :: 0 < i < |path| ==> Precedes(path[i - 1], path[i]))
  }

  predicate Precedes(a: Timeline, b: Timeline) {
    a.id < b.id && a.fork <= b.fork
  }

  lemma {:induction false} IdsIncrease(path: seq<Timeline>, i: nat, j: nat)
    requires PathOK(path) && i < j < |path|
    ensures path[i].id < path[j].id && path[i].fork <= path[j].fork
  {
    assert Precedes(path[j - 1], path[j]);
    if i < j - 1 {
      IdsIncrease(path, i, j - 1);
    }
  }

  /** b can be replayed along the path: it lies on one of the path's timelines and ended before
      every later fork. */
  ghost predicate Serves(b: Backup, path: seq<Timeline>) {
    exists k :: 0 <= k < |path| && path[k].id == b.timeline && forall m :: k < m < |path| ==> b.end < path[m].fork
  }

  /** The test of the planner, which looks at the next fork only, means just that. */
  lemma ReachableIsServes(b: Backup, path: seq<Timeline>)
    requires PathOK(path)
    ensures Reachable(b, path) <==> Serves(b, path)
  {
    var i := PlaceOf(path, b.timeline);
    if Reachable(b, path) {
      forall m | i < m < |path| ensures b.end < path[m].fork {
        if i + 1 < m {
          IdsIncrease(path, i + 1, m);
        }
      }
    }
    if Serves(b, path) {
      var k :| 0 <= k < |path| && path[k].id == b.timeline && forall m :: k < m < |path| ==> b.end < path[m].fork;
      if i < k {
        IdsIncrease(path, i, k);
      }
    }
  }

  function Candidates(bs: seq<Backup>, path: seq<Timeline>): seq<Backup> {
    if bs == [] then []
    else (if Reachable(bs[0], path) then [bs[0]] else []) + Candidates(bs[1..], path)
  }

  lemma {:induction false} CandidatesAre(bs: seq<Backup>, path: seq<Timeline>, b: Backup)
    ensures b in Candidates(bs, path) <==> b in bs && Reachable(b, path)
  {
    if bs != [] {
      CandidatesAre(bs[1..], path, b);
      assert bs == [bs[0]] + bs[1..];
    }
  }

  lemma {:induction false} CandidatesDistinct(bs: seq<Backup>, path: seq<Timeline>)
    requires IdsDistinct(bs)
    ensures IdsDistinct(Candidates(bs, path))
  {
    if bs != [] {
      CandidatesDistinct(bs[1..], path);
      var rest := Candidates(bs[1..], path);
      forall j | 0 <= j < |rest| ensures rest[j].id != bs[0].id {
        CandidatesAre(bs[1..], path, rest[j]);
        var k :| 0 <= k < |bs[1..]| && bs[1..][k] == rest[j];
        assert bs[k + 1] == rest[j];
      }
    }
  }

  function Ranked(bs: seq<Backup>, path: seq<Timeline>): seq<Backup> {
    SortBy(Newer, Candidates(bs, path))
  }

  lemma RankedFacts(bs: seq<Backup>, path: seq<Timeline>)
    requires IdsDistinct(bs)
    ensures OrderedBy(Newer, Ranked(bs, path))
    ensures forall b :: b in Ranked(bs, path) <==> b in bs && Reachable(b, path)
  {
    NewerIsStrict();
    CandidatesDistinct(bs, path);
    SortOrdered(Newer, Candidates(bs, path));
    forall b ensures b in Ranked(bs, path) <==> b in bs && Reachable(b, path) {
      SortMembers(Newer, Candidates(bs, path), b);
      CandidatesAre(bs, path, b);
    }
  }

  // ---------------------------------------------------------------- what is kept on one path

  function Fulls(s: seq<Backup>): nat {
    if s == [] then 0 else Fulls(s[..|s| - 1]) + (if s[|s| - 1].parent == "" then 1 else 0)
  }

  /** Candidate k of a ranked path is inside the window, its anchor, or a minimum root. */
  ghost predicate Marked(s: seq<Backup>, k: nat, cutoff: int, minimum: nat)
    requires k < |s|
  {
    || s[k].completed >= cutoff
    || (s[k].completed <= cutoff && forall j :: 0 <= j < k ==> s[j].completed > cutoff)
    || (s[k].parent == "" && Fulls(s[..k]) < minimum)
  }

  ghost predicate Anchored(s: seq<Backup>, cutoff: int) {
    exists j :: 0 <= j < |s| && s[j].completed <= cutoff
  }

  ghost predicate Wanted(s: seq<Backup>, k: nat, cutoff: int, minimum: nat)
    requires k < |s|
  {
    Marked(s, k, cutoff, minimum) || k == 0 || (!Anchored(s, cutoff) && k == |s| - 1)
  }

  ghost predicate WantsId(s: seq<Backup>, id: string, cutoff: int, minimum: nat) {
    exists k :: 0 <= k < |s| && s[k].id == id && Wanted(s, k, cutoff, minimum)
  }

  /** The loop over the ranked candidates of one path. */
  method KeepOnPath(s: seq<Backup>, cutoff: int, minimum: nat, before: set<string>) returns (keep: set<string>, shortened: bool)
    ensures forall id :: id in keep <==> id in before || WantsId(s, id, cutoff, minimum)
    ensures shortened <==> s != [] && !Anchored(s, cutoff)
  {
    keep, shortened := before, false;
    if s == [] {
      return;
    }
    var roots, anchor := 0, false;
    for i := 0 to |s|
      invariant forall id :: id in keep <==> id in before || exists k :: 0 <= k < i && s[k].id == id && Marked(s, k, cutoff, minimum)
      invariant anchor <==> exists j :: 0 <= j < i && s[j].completed <= cutoff
      invariant roots == if Fulls(s[..i]) < minimum then Fulls(s[..i]) else minimum
    {
      var b := s[i];
      assert s[..i + 1][..i] == s[..i];
      var mark := false;
      if b.completed >= cutoff {
        mark := true;
      }
      if !anchor && b.completed <= cutoff {
        mark := true;
        anchor := true;
      }
      if b.parent == "" && roots < minimum {
        mark := true;
        roots := roots + 1;
      }
      assert mark <==> Marked(s, i, cutoff, minimum);
      if mark {
        keep := keep + {b.id};
      }
    }
    keep := keep + {s[0].id};
    if !anchor {
      shortened := true;
      keep := keep + {s[|s| - 1].id};
    }
  }

  // ---------------------------------------------------------------- the inventory

  datatype Segment = Segment(timeline: nat, start: Word, live: bool)

  datatype Inventory = Inventory(backups: seq<Backup>, paths: seq<seq<Timeline>>, segments: seq<Segment>, step: nat)

  predicate BackupOK(b: Backup) {
    b.id != "" && b.start < b.end && b.redo <= b.start
  }

  /** A differential has a full of its own timeline that was complete before it started. */
  predicate ParentOK(b: Backup, f: Backup) {
    f.id == b.parent && f.parent == "" && f.timeline == b.timeline && f.completed <= b.completed && f.end <= b.start
  }

  predicate BackupsOK(bs: seq<Backup>) {
    && IdsDistinct(bs)
    && (forall i :: 0 <= i < |bs| ==> BackupOK(bs[i]))
    && (forall i :: 0 <= i < |bs| && bs[i].parent != "" ==> exists j :: 0 <= j < |bs| && ParentOK(bs[i], bs[j]))
  }

  ghost predicate OnSomePath(inv: Inventory, id: string, cutoff: int, minimum: nat, n: nat)
    requires n <= |inv.paths|
  {
    exists i :: 0 <= i < n && WantsId(Ranked(inv.backups, inv.paths[i]), id, cutoff, minimum)
  }

  /** Kept for some path, or the full that such a differential needs. */
  ghost predicate Kept(inv: Inventory, id: string, cutoff: int, minimum: nat) {
    || OnSomePath(inv, id, cutoff, minimum, |inv.paths|)
    || exists k :: 0 <= k < |inv.backups| && inv.backups[k].parent == id && id != ""
                   && OnSomePath(inv, inv.backups[k].id, cutoff, minimum, |inv.paths|)
  }

  lemma WantedIsBackup(inv: Inventory, id: string, cutoff: int, minimum: nat, n: nat)
    requires n <= |inv.paths| && OnSomePath(inv, id, cutoff, minimum, n) && IdsDistinct(inv.backups)
    ensures exists k :: 0 <= k < |inv.backups| && inv.backups[k].id == id
  {
    var i :| 0 <= i < n && WantsId(Ranked(inv.backups, inv.paths[i]), id, cutoff, minimum);
    var s := Ranked(inv.backups, inv.paths[i]);
    RankedFacts(inv.backups, inv.paths[i]);
    var k :| 0 <= k < |s| && s[k].id == id && Wanted(s, k, cutoff, minimum);
    assert s[k] in inv.backups;
  }

  /** A path with backups but none as old as the window. */
  ghost predicate Shortened(inv: Inventory, i: nat, cutoff: int)
    requires i < |inv.paths|
  {
    Ranked(inv.backups, inv.paths[i]) != [] && !Anchored(Ranked(inv.backups, inv.paths[i]), cutoff)
  }

  ghost predicate ShortenedBefore(inv: Inventory, n: nat, cutoff: int)
    requires n <= |inv.paths|
  {
    exists i :: 0 <= i < n && Shortened(inv, i, cutoff)
  }

  lemma ShortenedStep(inv: Inventory, n: nat, cutoff: int)
    requires n < |inv.paths|
    ensures ShortenedBefore(inv, n + 1, cutoff) <==> ShortenedBefore(inv, n, cutoff) || Shortened(inv, n, cutoff)
  {
  }

  lemma OnePathMore(inv: Inventory, id: string, cutoff: int, minimum: nat, n: nat)
    requires n < |inv.paths|
    ensures OnSomePath(inv, id, cutoff, minimum, n + 1) <==>
            OnSomePath(inv, id, cutoff, minimum, n) || WantsId(Ranked(inv.backups, inv.paths[n]), id, cutoff, minimum)
  {
  }

  /** The loop over the paths. */
  method KeepOnPaths(inv: Inventory, cutoff: int, minimum: nat) returns (keep: set<string>, shortened: bool)
    ensures forall id :: id in keep <==> OnSomePath(inv, id, cutoff, minimum, |inv.paths|)
    ensures shortened <==> ShortenedBefore(inv, |inv.paths|, cutoff)
  {
    keep, shortened := {}, false;
    for i := 0 to |inv.paths|
      invariant shortened <==> ShortenedBefore(inv, i, cutoff)
      invariant forall id :: id in keep <==> OnSomePath(inv, id, cutoff, minimum, i)
    {
      var ranked := Ranked(inv.backups, inv.paths[i]);
      var more, short := KeepOnPath(ranked, cutoff, minimum, keep);
      forall id ensures OnSomePath(inv, id, cutoff, minimum, i + 1) <==> OnSomePath(inv, id, cutoff, minimum, i) || WantsId(ranked, id, cutoff, minimum) {
        OnePathMore(inv, id, cutoff, minimum, i);
      }
      ShortenedStep(inv, i, cutoff);
      keep, shortened := more, shortened || short;
    }
  }

  /** The loop that adds the parents of what is kept. */
  method KeepParents(bs: seq<Backup>, direct: set<string>) returns (keep: set<string>)
    ensures forall id :: id in keep <==> id in direct || (id != "" && exists k :: 0 <= k < |bs| && bs[k].parent == id && bs[k].id in direct)
  {
    keep := direct;
    for i := 0 to |bs|
      invariant forall id :: id in keep <==> id in direct || (id != "" && exists k :: 0 <= k < i && bs[k].parent == id && bs[k].id in direct)
    {
      if bs[i].id in direct && bs[i].parent != "" {
        keep := keep + {bs[i].parent};
      }
    }
  }

  method KeepAll(inv: Inventory, cutoff: int, minimum: nat) returns (keep: set<string>, shortened: bool)
    ensures forall id :: id in keep <==> Kept(inv, id, cutoff, minimum)
    ensures shortened <==> ShortenedBefore(inv, |inv.paths|, cutoff)
  {
    var direct;
    direct, shortened := KeepOnPaths(inv, cutoff, minimum);
    keep := KeepParents(inv.backups, direct);
    forall id ensures id in keep <==> Kept(inv, id, cutoff, minimum) {
    }
  }

  /** The kept backups as a set. */
  ghost function KeepSet(inv: Inventory, cutoff: int, minimum: nat): set<string> {
    set k | 0 <= k < |inv.backups| && Kept(inv, inv.backups[k].id, cutoff, minimum) :: inv.backups[k].id
  }

  /** Nothing but backups is kept: a wanted ID and a wanted differential's parent are both in
      the inventory. */
  lemma KeptIsBackup(inv: Inventory, id: string, cutoff: int, minimum: nat)
    requires BackupsOK(inv.backups) && Kept(inv, id, cutoff, minimum)
    ensures id in KeepSet(inv, cutoff, minimum)
  {
    if OnSomePath(inv, id, cutoff, minimum, |inv.paths|) {
      WantedIsBackup(inv, id, cutoff, minimum, |inv.paths|);
    } else {
      var k :| 0 <= k < |inv.backups| && inv.backups[k].parent == id && id != ""
               && OnSomePath(inv, inv.backups[k].id, cutoff, minimum, |inv.paths|);
      var j :| 0 <= j < |inv.backups| && ParentOK(inv.backups[k], inv.backups[j]);
      assert inv.backups[j].id == id;
    }
  }

  lemma KeptIsKeepSet(inv: Inventory, keep: set<string>, cutoff: int, minimum: nat)
    requires BackupsOK(inv.backups) && forall id :: id in keep <==> Kept(inv, id, cutoff, minimum)
    ensures keep == KeepSet(inv, cutoff, minimum)
  {
    forall id | id in keep ensures id in KeepSet(inv, cutoff, minimum) {
      KeptIsBackup(inv, id, cutoff, minimum);
    }
  }

  function Dropped(bs: seq<Backup>, keep: set<string>): seq<Backup> {
    if bs == [] then [] else (if bs[0].id in keep then [] else [bs[0]]) + Dropped(bs[1..], keep)
  }

  function Expired(bs: seq<Backup>, keep: set<string>): seq<Backup> {
    SortBy(ExpiresBefore, Dropped(bs, keep))
  }

  // ---------------------------------------------------------------- what is kept

  lemma RankOf(s: seq<Backup>, b: Backup) returns (k: nat)
    requires b in s
    ensures k < |s| && s[k] == b
  {
    k :| 0 <= k < |s| && s[k] == b;
  }

  /** c is b or older than b: earlier completion, the smaller ID on a tie. */
  predicate NoLater(c: Backup, b: Backup) {
    c.completed < b.completed || (c.completed == b.completed && AtMost(c.id, b.id))
  }

  ghost predicate PathsFormed(inv: Inventory) {
    forall i :: 0 <= i < |inv.paths| ==> PathOK(inv.paths[i])
  }

  /** b is the newest backup of the path completed by time t. */
  ghost predicate NewestBy(bs: seq<Backup>, path: seq<Timeline>, b: Backup, t: int) {
    && b in bs && Serves(b, path) && b.completed <= t
    && forall c :: c in bs && Serves(c, path) && c.completed <= t ==> NoLater(c, b)
  }

  ghost predicate Newest(bs: seq<Backup>, path: seq<Timeline>, b: Backup) {
    forall c :: c in bs && Serves(c, path) ==> NoLater(c, b)
  }

  /** The path reaches back less far than the window, and b is the oldest it has. */
  ghost predicate OldestOfShort(bs: seq<Backup>, path: seq<Timeline>, b: Backup, cutoff: int) {
    forall c :: c in bs && Serves(c, path) ==> c.completed > cutoff && NoLater(b, c)
  }

  ghost function NewerRoots(bs: seq<Backup>, path: seq<Timeline>, b: Backup): set<Backup> {
    set c | c in bs && Serves(c, path) && c.parent == "" && !NoLater(c, b)
  }

  /** What a backup of the path is kept for: the window, its anchor, the minimum number of full
      roots, being the newest, or being the oldest of a path shorter than the window. */
  ghost predicate Purpose(bs: seq<Backup>, path: seq<Timeline>, b: Backup, cutoff: int, minimum: nat) {
    && b in bs && Serves(b, path)
    && (|| b.completed >= cutoff
        || NewestBy(bs, path, b, cutoff)
        || (b.parent == "" && |NewerRoots(bs, path, b)| < minimum)
        || Newest(bs, path, b)
        || OldestOfShort(bs, path, b, cutoff))
  }

  lemma NewerIs(c: Backup, b: Backup)
    ensures c.id != b.id ==> (Newer(c, b) <==> !NoLater(c, b))
    ensures NoLater(b, b) && !Newer(b, b)
  {
    IdOrder(c.id, b.id, c.id);
    AtMostTotal(b.id, b.id);
    if AtMost(c.id, b.id) && AtMost(b.id, c.id) {
      AtMostAntisymmetric(c.id, b.id);
    }
    AtMostTotal(c.id, b.id);
  }

  /** The ranked candidates: exactly the backups that serve the path, newest first. */
  lemma RankedServes(bs: seq<Backup>, path: seq<Timeline>)
    requires IdsDistinct(bs) && PathOK(path)
    ensures var s := Ranked(bs, path);
            && (forall b :: b in s <==> b in bs && Serves(b, path))
            && (forall j, k :: 0 <= j < |s| && 0 <= k < |s| ==> (j < k <==> !NoLater(s[j], s[k])))
            && IdsDistinct(s)
  {
    var s := Ranked(bs, path);
    forall b ensures b in s <==> b in bs && Serves(b, path) {
      RankedFacts(bs, path);
      ReachableIsServes(b, path);
    }
    forall j, k | 0 <= j < k < |s| ensures s[j].id != s[k].id && !NoLater(s[j], s[k]) && NoLater(s[k], s[j]) {
      RankedPair(bs, path, j, k);
    }
    forall j | 0 <= j < |s| ensures NoLater(s[j], s[j]) {
      NewerIs(s[j], s[j]);
    }
  }

  lemma RankedPair(bs: seq<Backup>, path: seq<Timeline>, j: nat, k: nat)
    requires IdsDistinct(bs) && j < k < |Ranked(bs, path)|
    ensures var s := Ranked(bs, path); s[j].id != s[k].id && !NoLater(s[j], s[k]) && NoLater(s[k], s[j])
  {
    var s := Ranked(bs, path);
    RankedFacts(bs, path);
    assert Newer(s[j], s[k]);
    NewerIs(s[j], s[k]);
    assert s[j].id != s[k].id by {
      assert s[j] in s && s[k] in s;
      assert s[j] != s[k] by {
        NewerIs(s[j], s[j]);
      }
      var x := RankOf(bs, s[j]);
      var y := RankOf(bs, s[k]);
    }
    AtMostTotal(s[j].id, s[k].id);
  }

  ghost function RootsBefore(s: seq<Backup>, k: nat): set<Backup>
    requires k <= |s|
  {
    if k == 0 then {} else RootsBefore(s, k - 1) + if s[k - 1].parent == "" then {s[k - 1]} else {}
  }

  lemma {:induction false} RootsBeforeAre(s: seq<Backup>, k: nat, c: Backup)
    requires k <= |s|
    ensures c in RootsBefore(s, k) <==> exists j :: 0 <= j < k && s[j] == c && c.parent == ""
  {
    if k > 0 {
      RootsBeforeAre(s, k - 1, c);
    }
  }

  lemma {:induction false} FullsIsCount(s: seq<Backup>, k: nat)
    requires k <= |s| && IdsDistinct(s)
    ensures Fulls(s[..k]) == |RootsBefore(s, k)|
  {
    if k > 0 {
      FullsIsCount(s, k - 1);
      assert s[..k][..k - 1] == s[..k - 1];
      RootsBeforeAre(s, k - 1, s[k - 1]);
    }
  }

  lemma RootsAre(bs: seq<Backup>, path: seq<Timeline>, k: nat)
    requires IdsDistinct(bs) && PathOK(path) && k < |Ranked(bs, path)|
    ensures Fulls(Ranked(bs, path)[..k]) == |NewerRoots(bs, path, Ranked(bs, path)[k])|
  {
    var s := Ranked(bs, path);
    RankedServes(bs, path);
    FullsIsCount(s, k);
    var roots := NewerRoots(bs, path, s[k]);
    forall c ensures c in roots <==> c in RootsBefore(s, k) {
      RootsBeforeAre(s, k, c);
      if c in roots {
        var j := RankOf(s, c);
      }
      if c in RootsBefore(s, k) {
        assert c in s;
      }
    }
    assert roots == RootsBefore(s, k);
  }

  lemma MarkedMeans(bs: seq<Backup>, path: seq<Timeline>, k: nat, cutoff: int, minimum: nat)
    requires IdsDistinct(bs) && PathOK(path) && k < |Ranked(bs, path)|
    ensures var s := Ranked(bs, path);
            Marked(s, k, cutoff, minimum) <==>
              || s[k].completed >= cutoff
              || NewestBy(bs, path, s[k], cutoff)
              || (s[k].parent == "" && |NewerRoots(bs, path, s[k])| < minimum)
  {
    var s := Ranked(bs, path);
    RankedServes(bs, path);
    RootsAre(bs, path, k);
    assert s[k] in s;
    if s[k].completed <= cutoff && forall j :: 0 <= j < k ==> s[j].completed > cutoff {
      forall c | c in bs && Serves(c, path) && c.completed <= cutoff ensures NoLater(c, s[k]) {
        var j := RankOf(s, c);
      }
    }
    if NewestBy(bs, path, s[k], cutoff) {
      forall j | 0 <= j < k ensures s[j].completed > cutoff {
        assert s[j] in s;
      }
    }
  }

  lemma EndsMean(bs: seq<Backup>, path: seq<Timeline>, k: nat, cutoff: int)
    requires IdsDistinct(bs) && PathOK(path) && k < |Ranked(bs, path)|
    ensures var s := Ranked(bs, path);
            && (k == 0 <==> Newest(bs, path, s[k]))
            && (!Anchored(s, cutoff) && k == |s| - 1 <==> OldestOfShort(bs, path, s[k], cutoff))
  {
    var s := Ranked(bs, path);
    RankedServes(bs, path);
    assert s[0] in s && s[|s| - 1] in s && s[k] in s;
    forall c | c in bs && Serves(c, path) ensures exists j :: 0 <= j < |s| && s[j] == c {
      var j := RankOf(s, c);
    }
    if OldestOfShort(bs, path, s[k], cutoff) {
      forall j | 0 <= j < |s| ensures s[j].completed > cutoff {
        assert s[j] in s;
      }
    }
  }

  lemma WantedMeans(bs: seq<Backup>, path: seq<Timeline>, b: Backup, cutoff: int, minimum: nat)
    requires IdsDistinct(bs) && PathOK(path) && b in bs
    ensures WantsId(Ranked(bs, path), b.id, cutoff, minimum) <==> Purpose(bs, path, b, cutoff, minimum)
  {
    var s := Ranked(bs, path);
    RankedServes(bs, path);
    if WantsId(s, b.id, cutoff, minimum) {
      var k :| 0 <= k < |s| && s[k].id == b.id && Wanted(s, k, cutoff, minimum);
      assert s[k] in s;
      var x := RankOf(bs, s[k]);
      var y := RankOf(bs, b);
      assert x == y;
      MarkedMeans(bs, path, k, cutoff, minimum);
      EndsMean(bs, path, k, cutoff);
    }
    if Purpose(bs, path, b, cutoff, minimum) {
      var k := RankOf(s, b);
      MarkedMeans(bs, path, k, cutoff, minimum);
      EndsMean(bs, path, k, cutoff);
      assert Wanted(s, k, cutoff, minimum);
    }
  }

  ghost predicate HasPurpose(inv: Inventory, b: Backup, cutoff: int, minimum: nat) {
    exists i :: 0 <= i < |inv.paths| && Purpose(inv.backups, inv.paths[i], b, cutoff, minimum)
  }

  lemma HasPurposeIs(inv: Inventory, b: Backup, cutoff: int, minimum: nat)
    requires BackupsOK(inv.backups) && PathsFormed(inv) && b in inv.backups
    ensures OnSomePath(inv, b.id, cutoff, minimum, |inv.paths|) <==> HasPurpose(inv, b, cutoff, minimum)
  {
    forall i | 0 <= i < |inv.paths|
      ensures WantsId(Ranked(inv.backups, inv.paths[i]), b.id, cutoff, minimum) <==> Purpose(inv.backups, inv.paths[i], b, cutoff, minimum)
    {
      WantedMeans(inv.backups, inv.paths[i], b, cutoff, minimum);
    }
  }

  /** MAIN: a backup is kept if and only if it has a purpose on some path, or a differential of
      it has one; everything else expires. */
  lemma KeptMeans(inv: Inventory, b: Backup, cutoff: int, minimum: nat)
    requires BackupsOK(inv.backups) && PathsFormed(inv) && b in inv.backups
    ensures Kept(inv, b.id, cutoff, minimum) <==>
              HasPurpose(inv, b, cutoff, minimum)
              || exists d :: d in inv.backups && d.parent == b.id && HasPurpose(inv, d, cutoff, minimum)
  {
    HasPurposeIs(inv, b, cutoff, minimum);
    var x := RankOf(inv.backups, b);
    assert BackupOK(inv.backups[x]);
    forall k | 0 <= k < |inv.backups|
      ensures OnSomePath(inv, inv.backups[k].id, cutoff, minimum, |inv.paths|) <==> HasPurpose(inv, inv.backups[k], cutoff, minimum)
    {
      HasPurposeIs(inv, inv.backups[k], cutoff, minimum);
    }
    forall d | d in inv.backups && d.parent == b.id ensures exists k :: 0 <= k < |inv.backups| && inv.backups[k] == d {
      var k := RankOf(inv.backups, d);
    }
  }

  /** MAIN: for every path and every instant of the recovery window, the backup a recovery to
      that instant would start from is kept. */
  lemma WindowPreserved(inv: Inventory, i: nat, b: Backup, t: int, cutoff: int, minimum: nat)
    requires BackupsOK(inv.backups) && PathsFormed(inv) && i < |inv.paths| && t >= cutoff && NewestBy(inv.backups, inv.paths[i], b, t)
    ensures Kept(inv, b.id, cutoff, minimum)
  {
    KeptMeans(inv, b, cutoff, minimum);
    assert Purpose(inv.backups, inv.paths[i], b, cutoff, minimum);
  }

  /** MAIN: the newest backup of every path is kept, so no path becomes unrecoverable. */
  lemma LatestKept(inv: Inventory, i: nat, b: Backup, cutoff: int, minimum: nat)
    requires BackupsOK(inv.backups) && PathsFormed(inv) && i < |inv.paths|
    requires b in inv.backups && Serves(b, inv.paths[i]) && Newest(inv.backups, inv.paths[i], b)
    ensures Kept(inv, b.id, cutoff, minimum)
  {
    KeptMeans(inv, b, cutoff, minimum);
    assert Purpose(inv.backups, inv.paths[i], b, cutoff, minimum);
  }

  /** The plan reports a shortened window exactly when some path has backups, all of them younger
      than the window. */
  lemma ShortenedMeans(inv: Inventory, cutoff: int)
    requires BackupsOK(inv.backups) && PathsFormed(inv)
    ensures ShortenedBefore(inv, |inv.paths|, cutoff) <==>
              exists i, b :: 0 <= i < |inv.paths| && b in inv.backups && Serves(b, inv.paths[i])
                             && forall c :: c in inv.backups && Serves(c, inv.paths[i]) ==> c.completed > cutoff
  {
    forall i | 0 <= i < |inv.paths|
      ensures Shortened(inv, i, cutoff) <==>
                exists b :: b in inv.backups && Serves(b, inv.paths[i])
                            && forall c :: c in inv.backups && Serves(c, inv.paths[i]) ==> c.completed > cutoff
    {
      PathShortened(inv, i, cutoff);
    }
  }

  lemma PathShortened(inv: Inventory, i: nat, cutoff: int)
    requires BackupsOK(inv.backups) && PathsFormed(inv) && i < |inv.paths|
    ensures Shortened(inv, i, cutoff) <==>
              exists b :: b in inv.backups && Serves(b, inv.paths[i])
                          && forall c :: c in inv.backups && Serves(c, inv.paths[i]) ==> c.completed > cutoff
  {
    var s := Ranked(inv.backups, inv.paths[i]);
    RankedServes(inv.backups, inv.paths[i]);
    if Shortened(inv, i, cutoff) {
      assert s[0] in s;
      forall c | c in inv.backups && Serves(c, inv.paths[i]) ensures c.completed > cutoff {
        var j := RankOf(s, c);
      }
    }
    forall j | 0 <= j < |s| ensures s[j] in inv.backups && Serves(s[j], inv.paths[i]) {
      assert s[j] in s;
    }
  }

  /** MAIN: a kept differential never loses its full. */
  lemma ParentsKept(inv: Inventory, b: Backup, cutoff: int, minimum: nat)
    requires BackupsOK(inv.backups) && b in inv.backups && b.parent != "" && Kept(inv, b.id, cutoff, minimum)
    ensures Kept(inv, b.parent, cutoff, minimum)
  {
    var k := RankOf(inv.backups, b);
  }

  /** The newer full roots of the path that are kept. */
  ghost function KeptRoots(inv: Inventory, path: seq<Timeline>, b: Backup, cutoff: int, minimum: nat): set<Backup> {
    set c | c in inv.backups && Serves(c, path) && c.parent == "" && !NoLater(c, b) && Kept(inv, c.id, cutoff, minimum)
  }

  /** Ranked candidate j is a full root that the path wants. */
  ghost predicate WantedRoot(s: seq<Backup>, j: int, cutoff: int, minimum: nat) {
    0 <= j < |s| && s[j].parent == "" && Wanted(s, j, cutoff, minimum)
  }

  /** Among the first n candidates at least the minimum number of full roots is wanted, or all. */
  lemma {:induction false} EarlyRootsWanted(s: seq<Backup>, n: nat, cutoff: int, minimum: nat) returns (roots: set<Backup>)
    requires n <= |s| && IdsDistinct(s)
    ensures forall c :: c in roots ==> exists j :: 0 <= j < n && s[j] == c && WantedRoot(s, j, cutoff, minimum)
    ensures |roots| >= Min(Fulls(s[..n]), minimum)
  {
    if n == 0 {
      roots := {};
    } else {
      roots := EarlyRootsWanted(s, n - 1, cutoff, minimum);
      assert s[..n][..n - 1] == s[..n - 1];
      if s[n - 1].parent == "" && Fulls(s[..n - 1]) < minimum {
        assert WantedRoot(s, n - 1, cutoff, minimum);
        roots := roots + {s[n - 1]};
      }
    }
  }

  lemma SubsetIsSmaller<T>(a: set<T>, b: set<T>)
    requires a <= b
    ensures |a| <= |b|
  {
    assert b == a + (b - a);
  }

  /** MAIN: a full root of a path is dropped only if the path keeps at least the minimum
      number of newer full roots. */
  lemma MinimumRootsKept(inv: Inventory, i: nat, b: Backup, cutoff: int, minimum: nat)
    requires BackupsOK(inv.backups) && PathsFormed(inv) && i < |inv.paths| && b in inv.backups && Serves(b, inv.paths[i])
    requires b.parent == "" && !Kept(inv, b.id, cutoff, minimum)
    ensures |KeptRoots(inv, inv.paths[i], b, cutoff, minimum)| >= minimum
  {
    var s := Ranked(inv.backups, inv.paths[i]);
    RankedServes(inv.backups, inv.paths[i]);
    var k := RankOf(s, b);
    assert !WantsId(s, b.id, cutoff, minimum);
    var roots := EarlyRootsWanted(s, k, cutoff, minimum);
    var kept := KeptRoots(inv, inv.paths[i], b, cutoff, minimum);
    forall c | c in roots ensures c in kept {
      var j :| 0 <= j < k && s[j] == c && WantedRoot(s, j, cutoff, minimum);
      assert s[j] in s && WantsId(s, c.id, cutoff, minimum);
    }
    SubsetIsSmaller(roots, kept);
    assert !Marked(s, k, cutoff, minimum);
  }

  // ---------------------------------------------------------------- what is expired

  lemma {:induction false} DroppedAre(bs: seq<Backup>, keep: set<string>, b: Backup)
    ensures b in Dropped(bs, keep) <==> b in bs && b.id !in keep
  {
    if bs != [] {
      DroppedAre(bs[1..], keep, b);
      assert bs == [bs[0]] + bs[1..];
    }
  }

  lemma {:induction false} DroppedDistinct(bs: seq<Backup>, keep: set<string>)
    requires IdsDistinct(bs)
    ensures IdsDistinct(Dropped(bs, keep))
  {
    if bs != [] {
      DroppedDistinct(bs[1..], keep);
      var rest := Dropped(bs[1..], keep);
      forall j | 0 <= j < |rest| ensures rest[j].id != bs[0].id {
        DroppedAre(bs[1..], keep, rest[j]);
        var k := RankOf(bs[1..], rest[j]);
        assert bs[k + 1] == rest[j];
      }
    }
  }

  lemma ExpiredFacts(bs: seq<Backup>, keep: set<string>)
    requires IdsDistinct(bs)
    ensures OrderedBy(ExpiresBefore, Expired(bs, keep)) && forall b :: b in Expired(bs, keep) <==> b in bs && b.id !in keep
  {
    ExpiryIsStrict();
    DroppedDistinct(bs, keep);
    SortOrdered(ExpiresBefore, Dropped(bs, keep));
    forall b ensures b in Expired(bs, keep) <==> b in bs && b.id !in keep {
      SortMembers(ExpiresBefore, Dropped(bs, keep), b);
      DroppedAre(bs, keep, b);
    }
  }

  /** Expiry goes through all differentials and then all fulls, each by ascending ID. */
  lemma ExpiryOrder(bs: seq<Backup>, keep: set<string>, i: nat, j: nat)
    requires IdsDistinct(bs) && i < j < |Expired(bs, keep)|
    ensures var a, b := Expired(bs, keep)[i], Expired(bs, keep)[j];
            (b.parent != "" ==> a.parent != "") && ((a.parent != "" <==> b.parent != "") ==> a.id != b.id && AtMost(a.id, b.id))
  {
    ExpiredFacts(bs, keep);
    assert ExpiresBefore(Expired(bs, keep)[i], Expired(bs, keep)[j]);
  }

  /** MAIN: exactly the backups not kept expire, every one once, and when a full expires all
      its differentials have expired before it. */
  lemma FullsExpireLast(inv: Inventory, keep: set<string>, cutoff: int, minimum: nat, j: nat, d: Backup)
    requires BackupsOK(inv.backups) && (forall id :: id in keep <==> Kept(inv, id, cutoff, minimum))
    requires j < |Expired(inv.backups, keep)| && d in inv.backups && d.parent == Expired(inv.backups, keep)[j].id && d.parent != ""
    ensures exists i :: 0 <= i < j && Expired(inv.backups, keep)[i] == d
  {
    var e := Expired(inv.backups, keep);
    ExpiredFacts(inv.backups, keep);
    assert e[j] in e;
    if d.id in keep {
      ParentsKept(inv, d, cutoff, minimum);
    }
    var i := RankOf(e, d);
    var k := RankOf(inv.backups, d);
    var f :| 0 <= f < |inv.backups| && ParentOK(inv.backups[k], inv.backups[f]);
    var g := RankOf(inv.backups, e[j]);
    assert f == g;
    assert i < j || i == j || j < i;
  }
}
