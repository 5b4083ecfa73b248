/** The Backup failure observer and its metric series. Models observe, deleted and the two
    locked halves of process, the work queue they share, and configure, history, failure
    and pruning of the series. */
module BackupObserver {
  import opened Basics

  const PLUGIN := "cnpg-backup.djosh34.github.io"
  /** Five minutes, in nanoseconds. */
  const WARNING_GAP: int := 300_000_000_000

  // ---------------------------------------------------------------- values

  /** What compactBackup keeps of a Backup backup. */
  datatype Backup = Backup(uid: string, how: string, plugin: string, requested: string, phase: string)

  datatype Observation = Observation(backup: Backup, seenFailure: bool, pending: bool)

  datatype Labels = Labels(repository: string, namespace: string, cluster: string, kind: string)

  datatype Series = Series(failures: nat, success: int, known: bool, checked: int, maxAge: int, lastWarning: Option<int>)

  const NO_SERIES := Series(0, 0, false, 0, 0, None)

  /** backupType: the requested type of one of this plugin's Backups, or "". */
  function Kind(b: Backup): string {
    if b.how != "plugin" || b.plugin != PLUGIN then ""
    else if b.requested != "full" && b.requested != "differential" then "" else b.requested
  }

  function Lookup(series: map<Labels, Series>, l: Labels): Series {
    if l in series then series[l] else NO_SERIES
  }

  // ---------------------------------------------------------------- observing

  datatype Watch = Watch(observed: map<string, Observation>, dirty: set<string>)

  function Seen(w: Watch, b: Backup): Observation {
    if b.uid in w.observed then w.observed[b.uid] else Observation(b, false, false)
  }

  /** observe: the first failure fixes the backup and, if it is news, makes it pending. */
  function Observed(w: Watch, b: Backup, initial: bool): Watch {
    if b.uid == "" then w
    else
      var prior := Seen(w, b);
      if prior.seenFailure then Watch(w.observed[b.uid := prior], w.dirty)
      else
        var failed := b.phase == "failed";
        var news := failed && !initial && Kind(b) != "";
        Watch(w.observed[b.uid := Observation(b, failed, news || prior.pending)],
              if news then w.dirty + {b.uid} else w.dirty)
  }

  function Deleted(w: Watch, uid: string): Watch {
    w.(observed := w.observed - {uid})
  }

  predicate Pending(w: Watch, uid: string) {
    uid in w.observed && w.observed[uid].pending
  }

  function Settled(w: Watch, uid: string): Watch
    requires uid in w.observed
  {
    w.(observed := w.observed[uid := w.observed[uid].(pending := false)])
  }

  class Observer {
    var observed: map<string, Observation>
    var dirty: set<string>

    function View(): Watch
      reads this
    {
      Watch(observed, dirty)
    }

    constructor ()
      ensures View() == Watch(map[], {})
    {
      observed, dirty := map[], {};
    }

    method Observe(b: Backup, initial: bool)
      modifies this
      ensures View() == Observed(old(View()), b, initial)
    {
      if b.uid == "" {
        return;
      }
      var state := Seen(View(), b);
      var failed := b.phase == "failed";
      if !state.seenFailure {
        state := state.(backup := b);
        if failed {
          state := state.(seenFailure := true);
          if !initial && Kind(b) != "" {
            state := state.(pending := true);
            dirty := dirty + {b.uid};
          }
        }
      }
      observed := observed[b.uid := state];
    }

    method Forget(uid: string)
      modifies this
      ensures View() == Deleted(old(View()), uid)
    {
      observed := observed - {uid};
    }

    /** The first locked half of process: what to report, if anything is pending. */
    method Peek(uid: string) returns (r: Option<Backup>)
      ensures r == if Pending(View(), uid) then Some(observed[uid].backup) else None
    {
      if uid in observed && observed[uid].pending {
        return Some(observed[uid].backup);
      }
      return None;
    }

    /** The second locked half: whoever clears the flag reports the failure. */
    method Claim(uid: string) returns (mine: bool)
      modifies this
      ensures mine == old(Pending(View(), uid))
      ensures View() == if mine then Settled(old(View()), uid) else old(View())
    {
      if uid !in observed || !observed[uid].pending {
        return false;
      }
      observed := observed[uid := observed[uid].(pending := false)];
      return true;
    }
  }

  // ---------------------------------------------------------------- series

  function Aged(series: map<Labels, Series>, l: Labels, age: int): map<Labels, Series> {
    series[l := Lookup(series, l).(maxAge := age)]
  }

  function Configured(series: map<Labels, Series>, base: Labels, full: int, differential: int): map<Labels, Series> {
    Aged(Aged(series, base.(kind := "full"), full), base.(kind := "differential"), differential)
  }

  function Checked(series: map<Labels, Series>, l: Labels, success: Option<int>, now: int): map<Labels, Series> {
    series[l := Lookup(series, l).(checked := now, known := success.Some?, success := if success.Some? then success.value else 0)]
  }

  function History(series: map<Labels, Series>, base: Labels, full: Option<int>, differential: Option<int>, now: int): map<Labels, Series> {
    Checked(Checked(series, base.(kind := "full"), full, now), base.(kind := "differential"), differential, now)
  }

  predicate Warns(series: map<Labels, Series>, l: Labels, now: int) {
    var last := Lookup(series, l).lastWarning;
    last.None? || now >= last.value + WARNING_GAP
  }

  function Failed(series: map<Labels, Series>, l: Labels, now: int): map<Labels, Series> {
    var s := Lookup(series, l);
    series[l := s.(failures := s.failures + 1, lastWarning := if Warns(series, l, now) then Some(now) else s.lastWarning)]
  }

  class Metrics {
    var series: map<Labels, Series>

    constructor ()
      ensures series == map[]
    {
      series := map[];
    }

    method Configure(base: Labels, full: int, differential: int)
      modifies this
      ensures series == Configured(old(series), base, full, differential)
    {
      var kinds := [("full", full), ("differential", differential)];
      for i := 0 to 2
        invariant i == 0 ==> series == old(series)
        invariant i == 1 ==> series == Aged(old(series), base.(kind := "full"), full)
        invariant i == 2 ==> series == Configured(old(series), base, full, differential)
      {
        var l := base.(kind := kinds[i].0);
        series := series[l := Lookup(series, l).(maxAge := kinds[i].1)];
      }
    }

    method Failure(l: Labels, now: int) returns (warn: bool)
      modifies this
      ensures warn == Warns(old(series), l, now)
      ensures series == Failed(old(series), l, now)
    {
      var s := Lookup(series, l);
      s := s.(failures := s.failures + 1);
      warn := s.lastWarning.None? || !(now < s.lastWarning.value + WARNING_GAP);
      if warn {
        s := s.(lastWarning := Some(now));
      }
      series := series[l := s];
    }
  }

  // ---------------------------------------------------------------- runs

  /** The observer, the Backups being reported by workers, and the series. */
  datatype System = System(watch: Watch, inflight: map<nat, Backup>, series: map<Labels, Series>)

  datatype Step =
    | Observe(b: Backup, initial: bool)
    | Delete(uid: string)
    | Begin(worker: nat, uid: string)
    | Retry(worker: nat)
    | Commit(worker: nat, base: Labels, full: int, differential: int, now: int)
    | Read(base: Labels, lastFull: Option<int>, lastDifferential: Option<int>, now: int)
    | Prune(gone: set<Labels>)

  ghost predicate Idle(s: System, uid: string) {
    forall w :: w in s.inflight ==> s.inflight[w].uid != uid
  }

  /** The queue hands out a queued key that no worker is processing. */
  ghost predicate Enabled(s: System, step: Step) {
    match step
    case Begin(w, uid) => uid in s.watch.dirty && w !in s.inflight && Idle(s, uid)
    case Retry(w) => w in s.inflight
    case Commit(w, _, _, _, _) => w in s.inflight
    case _ => true
  }

  predicate Reports(s: System, step: Step) {
    step.Commit? && step.worker in s.inflight && Pending(s.watch, s.inflight[step.worker].uid)
  }

  function ReportedLabels(s: System, step: Step): Labels
    requires Reports(s, step)
  {
    step.base.(kind := Kind(s.inflight[step.worker]))
  }

  function Started(s: System, w: nat, uid: string): System {
    var s1 := s.(watch := s.watch.(dirty := s.watch.dirty - {uid}));
    if Pending(s.watch, uid) then s1.(inflight := s.inflight[w := s.watch.observed[uid].backup]) else s1
  }

  function Committed(s: System, step: Step): System
    requires step.Commit? && step.worker in s.inflight
  {
    var uid := s.inflight[step.worker].uid;
    var rest := s.inflight - {step.worker};
    if !Reports(s, step) then s.(inflight := rest)
    else System(Settled(s.watch, uid), rest,
                Failed(Configured(s.series, step.base, step.full, step.differential), ReportedLabels(s, step), step.now))
  }

  function Apply(s: System, step: Step): System
    requires step.Retry? || step.Commit? ==> step.worker in s.inflight
  {
    match step
    case Observe(b, initial) => s.(watch := Observed(s.watch, b, initial))
    case Delete(uid) => s.(watch := Deleted(s.watch, uid))
    case Begin(w, uid) => Started(s, w, uid)
    case Retry(w) =>
      s.(watch := s.watch.(dirty := s.watch.dirty + {s.inflight[w].uid}), inflight := s.inflight - {w})
    case Commit(_, _, _, _, _) => Committed(s, step)
    case Read(base, full, differential, now) => s.(series := History(s.series, base, full, differential, now))
    case Prune(gone) => s.(series := s.series - gone)
  }

  const START := System(Watch(map[], {}), map[], map[])

  ghost predicate IsRun(states: seq<System>, steps: seq<Step>) {
    && |states| == |steps| + 1 && states[0] == START
    && forall i :: 0 <= i < |steps| ==> Enabled(states[i], steps[i]) && states[i + 1] == Apply(states[i], steps[i])
  }

  lemma StepOf(states: seq<System>, steps: seq<Step>, k: nat)
    requires IsRun(states, steps) && k < |steps|
    ensures Enabled(states[k], steps[k]) && states[k + 1] == Apply(states[k], steps[k])
  {
  }

  /** Step i reports a failure of uid. */
  ghost predicate ReportsAt(states: seq<System>, steps: seq<Step>, i: nat, uid: string)
    requires IsRun(states, steps)
  {
    i < |steps| && Reports(states[i], steps[i]) && states[i].inflight[steps[i].worker].uid == uid
  }

  /** uid is not deleted by the steps from i up to j. */
  ghost predicate Lives(steps: seq<Step>, i: nat, j: nat, uid: string) {
    forall k :: i <= k < j && k < |steps| ==> steps[k] != Delete(uid)
  }

  // ---------------------------------------------------------------- invariant

  /** An observed failure is what makes something pending, under its own name and type. */
  ghost predicate ObservationOK(w: Watch, uid: string)
    requires uid in w.observed
  {
    var o := w.observed[uid];
    && o.backup.uid == uid
    && (o.pending ==> o.seenFailure && o.backup.phase == "failed" && Kind(o.backup) != "")
  }

  /** No pending failure is ever stranded: it is queued or some worker has it. */
  ghost predicate Covered(s: System, uid: string) {
    uid in s.watch.dirty || exists w :: w in s.inflight && s.inflight[w].uid == uid
  }

  ghost predicate Inv(s: System) {
    && (forall u :: u in s.watch.observed ==> ObservationOK(s.watch, u))
    && (forall w :: w in s.inflight ==> Kind(s.inflight[w]) != "" && s.inflight[w].phase == "failed")
    && (forall u :: Pending(s.watch, u) ==> Covered(s, u))
    && (forall w, v :: w in s.inflight && v in s.inflight && s.inflight[w].uid == s.inflight[v].uid ==> w == v)
  }

  lemma ObserveKeeps(s: System, step: Step)
    requires Inv(s) && step.Observe?
    ensures Inv(Apply(s, step))
  {
    var s' := Apply(s, step);
    forall u | Pending(s'.watch, u) ensures Covered(s', u) {
      if u in s.watch.observed && s.watch.observed[u].pending {
        assert Covered(s, u);
      }
    }
  }

  lemma BeginKeeps(s: System, step: Step)
    requires Inv(s) && step.Begin? && Enabled(s, step)
    ensures Inv(Apply(s, step))
  {
    var s' := Apply(s, step);
    forall u | Pending(s'.watch, u) ensures Covered(s', u) {
      assert Pending(s.watch, u) && Covered(s, u);
      if u == step.uid {
        assert ObservationOK(s.watch, u);
        assert step.worker in s'.inflight && s'.inflight[step.worker].uid == u;
      } else if u !in s.watch.dirty {
        var w :| w in s.inflight && s.inflight[w].uid == u;
        assert w in s'.inflight && s'.inflight[w].uid == u;
      }
    }
  }

  lemma RetryKeeps(s: System, step: Step)
    requires Inv(s) && step.Retry? && Enabled(s, step)
    ensures Inv(Apply(s, step))
  {
    var s' := Apply(s, step);
    forall u | Pending(s'.watch, u) ensures Covered(s', u) {
      assert Pending(s.watch, u) && Covered(s, u);
      if u !in s'.watch.dirty {
        var w :| w in s.inflight && s.inflight[w].uid == u;
        assert w in s'.inflight && s'.inflight[w].uid == u;
      }
    }
  }

  lemma CommitKeeps(s: System, step: Step)
    requires Inv(s) && step.Commit? && Enabled(s, step)
    ensures Inv(Apply(s, step))
  {
    var s' := Apply(s, step);
    forall u | Pending(s'.watch, u) ensures Covered(s', u) {
      assert Pending(s.watch, u) && Covered(s, u);
      if u !in s'.watch.dirty {
        var w :| w in s.inflight && s.inflight[w].uid == u;
        assert w in s'.inflight && s'.inflight[w].uid == u;
      }
    }
  }

  lemma DeleteKeeps(s: System, step: Step)
    requires Inv(s) && (step.Delete? || step.Read? || step.Prune?)
    ensures Inv(Apply(s, step))
  {
    var s' := Apply(s, step);
    forall u | Pending(s'.watch, u) ensures Covered(s', u) {
      assert Covered(s, u);
    }
  }

  lemma StepKeeps(s: System, step: Step)
    requires Inv(s) && Enabled(s, step)
    ensures Inv(Apply(s, step))
  {
    match step
    case Observe(_, _) => ObserveKeeps(s, step);
    case Begin(_, _) => BeginKeeps(s, step);
    case Retry(_) => RetryKeeps(s, step);
    case Commit(_, _, _, _, _) => CommitKeeps(s, step);
    case _ => DeleteKeeps(s, step);
  }

  lemma {:induction false} RunKeeps(states: seq<System>, steps: seq<Step>, i: nat)
    requires IsRun(states, steps) && i < |states|
    ensures Inv(states[i])
  {
    if i > 0 {
      RunKeeps(states, steps, i - 1);
      StepKeeps(states[i - 1], steps[i - 1]);
    }
  }

  // ---------------------------------------------------------------- at most once

  /** The failure has been seen and there is nothing left to report. */
  predicate Quiet(w: Watch, uid: string) {
    uid in w.observed && w.observed[uid].seenFailure && !w.observed[uid].pending
  }

  lemma QuietStep(s: System, step: Step, uid: string)
    requires Enabled(s, step) && Quiet(s.watch, uid) && step != Delete(uid)
    ensures Quiet(Apply(s, step).watch, uid)
  {
  }

  lemma {:induction false} QuietStays(states: seq<System>, steps: seq<Step>, i: nat, j: nat, uid: string)
    requires IsRun(states, steps) && i <= j < |states| && Quiet(states[i].watch, uid) && Lives(steps, i, j, uid)
    ensures Quiet(states[j].watch, uid)
    decreases j
  {
    if i < j {
      QuietStays(states, steps, i, j - 1, uid);
      QuietStep(states[j - 1], steps[j - 1], uid);
    }
  }

  lemma ReportedIsQuiet(states: seq<System>, steps: seq<Step>, i: nat, uid: string)
    requires IsRun(states, steps) && ReportsAt(states, steps, i, uid)
    ensures Quiet(states[i + 1].watch, uid)
  {
    RunKeeps(states, steps, i);
    assert ObservationOK(states[i].watch, uid);
    assert states[i + 1] == Apply(states[i], steps[i]);
  }

  /** MAIN: between two reported failures of one UID there is a deletion of that UID. */
  lemma AtMostOneFailure(states: seq<System>, steps: seq<Step>, i: nat, j: nat, uid: string)
    requires IsRun(states, steps) && i < j && ReportsAt(states, steps, i, uid) && ReportsAt(states, steps, j, uid)
    ensures exists k :: i < k < j && steps[k] == Delete(uid)
  {
    ReportedIsQuiet(states, steps, i, uid);
    if Lives(steps, i + 1, j, uid) {
      QuietStays(states, steps, i + 1, j, uid);
    }
  }

  /** MAIN: a Backup already failed in the initial list is never reported while it lives. */
  lemma InitialFailureSilent(states: seq<System>, steps: seq<Step>, i: nat, j: nat, b: Backup)
    requires IsRun(states, steps) && i < j && i < |steps| && b.uid != ""
    requires steps[i] == Observe(b, true) && b.phase == "failed" && !Seen(states[i].watch, b).seenFailure
    requires Lives(steps, i + 1, j, b.uid)
    ensures !ReportsAt(states, steps, j, b.uid)
  {
    RunKeeps(states, steps, i);
    if b.uid in states[i].watch.observed {
      assert ObservationOK(states[i].watch, b.uid);
    }
    assert states[i + 1] == Apply(states[i], steps[i]);
    if j < |states| {
      QuietStays(states, steps, i + 1, j, b.uid);
    }
  }

  // ---------------------------------------------------------------- the first failure

  /** Step i is the first sight of uid failing, with backup b. */
  ghost predicate FirstFailureAt(states: seq<System>, steps: seq<Step>, i: nat, b: Backup)
    requires IsRun(states, steps)
  {
    && i < |steps| && steps[i] == Observe(b, false) && b.uid != "" && b.phase == "failed" && Kind(b) != ""
    && !Seen(states[i].watch, b).seenFailure
  }

  lemma PendingStep(s: System, step: Step, uid: string)
    requires Inv(s) && Enabled(s, step) && Pending(Apply(s, step).watch, uid)
    ensures if Pending(s.watch, uid)
            then step != Delete(uid) && Apply(s, step).watch.observed[uid].backup == s.watch.observed[uid].backup
            else step.Observe? && !step.initial && step.b.uid == uid && uid != "" && step.b.phase == "failed" && Kind(step.b) != ""
                 && !Seen(s.watch, step.b).seenFailure && Apply(s, step).watch.observed[uid].backup == step.b
  {
    if uid in s.watch.observed {
      assert ObservationOK(s.watch, uid);
    }
  }

  /** What is pending comes from one first failure, not deleted since. */
  lemma {:induction false} PendingHasCause(states: seq<System>, steps: seq<Step>, j: nat, uid: string) returns (i: nat)
    requires IsRun(states, steps) && j < |states| && Pending(states[j].watch, uid)
    ensures i < j && FirstFailureAt(states, steps, i, states[j].watch.observed[uid].backup)
    ensures states[j].watch.observed[uid].backup.uid == uid && Lives(steps, i, j, uid)
  {
    assert j > 0;
    var s, step := states[j - 1], steps[j - 1];
    RunKeeps(states, steps, j - 1);
    StepOf(states, steps, j - 1);
    PendingStep(s, step, uid);
    if Pending(s.watch, uid) {
      i := PendingHasCause(states, steps, j - 1, uid);
      LivesOn(steps, i, j - 1, uid);
    } else {
      i := j - 1;
      LivesOn(steps, i, i, uid);
    }
  }

  lemma LivesOn(steps: seq<Step>, i: nat, j: nat, uid: string)
    requires i <= j < |steps| && Lives(steps, i, j, uid) && steps[j] != Delete(uid)
    ensures Lives(steps, i, j + 1, uid)
  {
  }

  /** A worker's backup is what was pending when the worker began. */
  lemma {:induction false} WorkerBegan(states: seq<System>, steps: seq<Step>, j: nat, w: nat) returns (m: nat)
    requires IsRun(states, steps) && j < |states| && w in states[j].inflight
    ensures var b := states[j].inflight[w];
            && m < j && steps[m] == Begin(w, b.uid)
            && Pending(states[m].watch, b.uid) && states[m].watch.observed[b.uid].backup == b
  {
    assert j > 0;
    RunKeeps(states, steps, j - 1);
    StepOf(states, steps, j - 1);
    WorkerStep(states[j - 1], steps[j - 1], w);
    if w in states[j - 1].inflight && states[j - 1].inflight[w] == states[j].inflight[w] {
      m := WorkerBegan(states, steps, j - 1, w);
    } else {
      m := j - 1;
    }
  }

  lemma WorkerStep(s: System, step: Step, w: nat)
    requires Inv(s) && Enabled(s, step) && w in Apply(s, step).inflight
    ensures var b := Apply(s, step).inflight[w];
            || (w in s.inflight && s.inflight[w] == b)
            || (step == Begin(w, b.uid) && Pending(s.watch, b.uid) && s.watch.observed[b.uid].backup == b)
  {
    if step.Begin? && Pending(s.watch, step.uid) {
      assert ObservationOK(s.watch, step.uid);
    }
  }

  lemma SeenObjectStep(s: System, step: Step, uid: string)
    requires Enabled(s, step) && step != Delete(uid) && uid in s.watch.observed && s.watch.observed[uid].seenFailure
    ensures uid in Apply(s, step).watch.observed && Apply(s, step).watch.observed[uid].seenFailure
    ensures Apply(s, step).watch.observed[uid].backup == s.watch.observed[uid].backup
  {
  }

  /** The first failure's backup stays until deletion, whatever is observed later. */
  lemma {:induction false} ObjectStays(states: seq<System>, steps: seq<Step>, i: nat, j: nat, uid: string)
    requires IsRun(states, steps) && i <= j < |states| && Lives(steps, i, j, uid)
    requires uid in states[i].watch.observed && states[i].watch.observed[uid].seenFailure
    ensures uid in states[j].watch.observed && states[j].watch.observed[uid].seenFailure
    ensures states[j].watch.observed[uid].backup == states[i].watch.observed[uid].backup
    decreases j
  {
    if i < j {
      ObjectStays(states, steps, i, j - 1, uid);
      SeenObjectStep(states[j - 1], steps[j - 1], uid);
    }
  }

  /** MAIN: a report belongs to the life whose first failure, at step now, is still
      undeleted, and carries the type of the first failure, at step i, that was undeleted
      when its worker began at step m. The types agree exactly when the UID was not deleted
      while the worker ran, or both failures are of one type; and if it was deleted, the
      life being reported began only after the worker. */
  lemma ReportedUnderFirstType(states: seq<System>, steps: seq<Step>, j: nat, uid: string) returns (i: nat, m: nat, now: nat)
    requires IsRun(states, steps) && ReportsAt(states, steps, j, uid)
    ensures i < m < j && now < j && steps[m] == Begin(steps[j].worker, uid)
    ensures steps[i].Observe? && steps[i].b.uid == uid && FirstFailureAt(states, steps, i, steps[i].b) && Lives(steps, i, m, uid)
    ensures steps[now].Observe? && steps[now].b.uid == uid && FirstFailureAt(states, steps, now, steps[now].b) && Lives(steps, now, j, uid)
    ensures ReportedLabels(states[j], steps[j]).kind == Kind(steps[i].b)
    ensures !Lives(steps, m, j, uid) ==> m < now
    ensures Lives(steps, m, j, uid) ==> steps[i].b == steps[now].b
    ensures ReportedLabels(states[j], steps[j]).kind == Kind(steps[now].b)
            <==> Lives(steps, m, j, uid) || Kind(steps[i].b) == Kind(steps[now].b)
  {
    m := WorkerBegan(states, steps, j, steps[j].worker);
    i := PendingHasCause(states, steps, m, uid);
    now := PendingHasCause(states, steps, j, uid);
    RunKeeps(states, steps, m);
    assert ObservationOK(states[m].watch, uid);
    if Lives(steps, m, j, uid) {
      ObjectStays(states, steps, m, j, uid);
    }
  }

  // ---------------------------------------------------------------- nothing is lost

  lemma OweStep(s: System, step: Step, uid: string)
    requires Inv(s) && Enabled(s, step) && Pending(s.watch, uid) && step != Delete(uid)
    requires !(Reports(s, step) && s.inflight[step.worker].uid == uid)
    ensures Pending(Apply(s, step).watch, uid)
  {
    assert ObservationOK(s.watch, uid);
  }

  /** MAIN: a first failure that is not in the initial list is reported, or is still pending
      and queued or with a worker, for as long as the Backup is not deleted. Together with
      AtMostOneFailure it is reported at most once. */
  lemma {:induction false} FailureOwedOrReported(states: seq<System>, steps: seq<Step>, i: nat, j: nat, b: Backup)
    requires IsRun(states, steps) && i < j < |states| && FirstFailureAt(states, steps, i, b) && Lives(steps, i, j, b.uid)
    ensures || (Pending(states[j].watch, b.uid) && Covered(states[j], b.uid) && forall k :: i <= k < j ==> !ReportsAt(states, steps, k, b.uid))
            || exists k :: i < k < j && ReportsAt(states, steps, k, b.uid)
    decreases j
  {
    RunKeeps(states, steps, j);
    RunKeeps(states, steps, i);
    assert Enabled(states[i], steps[i]) && states[i + 1] == Apply(states[i], steps[i]);
    if i + 1 < j {
      FailureOwedOrReported(states, steps, i, j - 1, b);
      if Pending(states[j - 1].watch, b.uid) && !ReportsAt(states, steps, j - 1, b.uid) {
        RunKeeps(states, steps, j - 1);
        OweStep(states[j - 1], steps[j - 1], b.uid);
      }
    }
  }

  // ---------------------------------------------------------------- warnings and counters

  lemma ConfigureKeepsCounters(series: map<Labels, Series>, base: Labels, full: int, differential: int, l: Labels)
    ensures var s := Lookup(Configured(series, base, full, differential), l);
            s.failures == Lookup(series, l).failures && s.lastWarning == Lookup(series, l).lastWarning
  {
  }

  lemma HistoryKeepsCounters(series: map<Labels, Series>, base: Labels, full: Option<int>, differential: Option<int>, now: int, l: Labels)
    ensures var s := Lookup(History(series, base, full, differential, now), l);
            s.failures == Lookup(series, l).failures && s.lastWarning == Lookup(series, l).lastWarning
  {
  }

  predicate ReportsUnder(s: System, step: Step, l: Labels) {
    Reports(s, step) && ReportedLabels(s, step) == l
  }

  /** The series that failure sees: configure has just run. */
  function SeriesAt(s: System, step: Step): map<Labels, Series>
    requires step.Commit?
  {
    Configured(s.series, step.base, step.full, step.differential)
  }

  predicate WarnsUnder(s: System, step: Step, l: Labels) {
    ReportsUnder(s, step, l) && Warns(SeriesAt(s, step), l, step.now)
  }

  lemma CounterStep(s: System, step: Step, l: Labels)
    requires Enabled(s, step)
    ensures var now, after := Lookup(s.series, l), Lookup(Apply(s, step).series, l);
            if step.Prune? && l in step.gone then after == NO_SERIES
            else && after.failures == now.failures + (if ReportsUnder(s, step, l) then 1 else 0)
                 && after.lastWarning == if WarnsUnder(s, step, l) then Some(step.now) else now.lastWarning
  {
    if step.Commit? {
      ConfigureKeepsCounters(s.series, step.base, step.full, step.differential, l);
    } else if step.Read? {
      HistoryKeepsCounters(s.series, step.base, step.lastFull, step.lastDifferential, step.now, l);
    }
  }

  /** Reports under l since its series was last pruned. */
  ghost function Tally(states: seq<System>, steps: seq<Step>, j: nat, l: Labels): nat
    requires IsRun(states, steps) && j < |states|
  {
    if j == 0 then 0
    else if steps[j - 1].Prune? && l in steps[j - 1].gone then 0
    else Tally(states, steps, j - 1, l) + (if ReportsUnder(states[j - 1], steps[j - 1], l) then 1 else 0)
  }

  /** MAIN: a series counts exactly the reports made under its labels while it lives. */
  lemma {:induction false} CounterIsTally(states: seq<System>, steps: seq<Step>, j: nat, l: Labels)
    requires IsRun(states, steps) && j < |states|
    ensures Lookup(states[j].series, l).failures == Tally(states, steps, j, l)
  {
    if j > 0 {
      CounterIsTally(states, steps, j - 1, l);
      assert Enabled(states[j - 1], steps[j - 1]) && states[j] == Apply(states[j - 1], steps[j - 1]);
      CounterStep(states[j - 1], steps[j - 1], l);
    }
  }

  ghost predicate Unpruned(steps: seq<Step>, i: nat, j: nat, l: Labels) {
    forall k :: i <= k < j && k < |steps| ==> !(steps[k].Prune? && l in steps[k].gone)
  }

  /** Clock readings of the worker never go back. */
  ghost predicate TimeFlows(steps: seq<Step>) {
    forall i, j :: 0 <= i < j < |steps| && steps[i].Commit? && steps[j].Commit? ==> steps[i].now <= steps[j].now
  }

  /** The series remembers a warning no older than t. */
  predicate Warned(s: System, l: Labels, t: int) {
    Lookup(s.series, l).lastWarning.Some? && Lookup(s.series, l).lastWarning.value >= t
  }

  lemma WarnedStep(s: System, step: Step, l: Labels, t: int)
    requires Enabled(s, step) && !(step.Prune? && l in step.gone) && (step.Commit? ==> step.now >= t)
    requires Warned(s, l, t) || WarnsUnder(s, step, l)
    ensures Warned(Apply(s, step), l, t)
  {
    CounterStep(s, step, l);
  }

  /** The last warning is remembered. */
  lemma {:induction false} WarningRemembered(states: seq<System>, steps: seq<Step>, i: nat, j: nat, l: Labels)
    requires IsRun(states, steps) && TimeFlows(steps) && i < j < |states|
    requires WarnsUnder(states[i], steps[i], l) && Unpruned(steps, i, j, l)
    ensures Warned(states[j], l, steps[i].now)
    decreases j
  {
    if i + 1 < j {
      WarningRemembered(states, steps, i, j - 1, l);
    }
    StepOf(states, steps, j - 1);
    WarnedStep(states[j - 1], steps[j - 1], l, steps[i].now);
  }

  /** MAIN: two warnings under the same labels are at least five minutes apart unless the
      series was pruned between them. */
  lemma WarningsApart(states: seq<System>, steps: seq<Step>, i: nat, j: nat, l: Labels)
    requires IsRun(states, steps) && TimeFlows(steps) && i < j < |steps|
    requires WarnsUnder(states[i], steps[i], l) && WarnsUnder(states[j], steps[j], l) && Unpruned(steps, i, j, l)
    ensures steps[j].now - steps[i].now >= WARNING_GAP
  {
    WarningRemembered(states, steps, i, j, l);
    ConfigureKeepsCounters(states[j].series, steps[j].base, steps[j].full, steps[j].differential, l);
  }

  /** Some report of the last five minutes under these labels warned, and the series has lived
      since. */
  ghost predicate RecentlyWarned(states: seq<System>, steps: seq<Step>, j: nat, l: Labels)
    requires IsRun(states, steps) && j < |steps| && steps[j].Commit?
  {
    exists i :: 0 <= i < j && WarnsUnder(states[i], steps[i], l) && Unpruned(steps, i, j, l) && steps[j].now < steps[i].now + 300_000_000_000
  }

  /** What the series remembers is a warning that was given. */
  lemma {:induction false} RememberedWasGiven(states: seq<System>, steps: seq<Step>, j: nat, l: Labels) returns (i: nat)
    requires IsRun(states, steps) && j < |states| && Lookup(states[j].series, l).lastWarning.Some?
    ensures i < j && WarnsUnder(states[i], steps[i], l) && Unpruned(steps, i, j, l)
    ensures Lookup(states[j].series, l).lastWarning == Some(steps[i].now)
    decreases j
  {
    assert j > 0;
    StepOf(states, steps, j - 1);
    CounterStep(states[j - 1], steps[j - 1], l);
    if WarnsUnder(states[j - 1], steps[j - 1], l) {
      i := j - 1;
    } else {
      i := RememberedWasGiven(states, steps, j - 1, l);
    }
  }

  /** MAIN: a report warns if and only if none under its labels warned in the five minutes before,
      as long as the series lives. */
  lemma WarnsWhenDue(states: seq<System>, steps: seq<Step>, j: nat, l: Labels)
    requires IsRun(states, steps) && TimeFlows(steps) && j < |steps| && ReportsUnder(states[j], steps[j], l)
    ensures WarnsUnder(states[j], steps[j], l) <==> !RecentlyWarned(states, steps, j, l)
  {
    ConfigureKeepsCounters(states[j].series, steps[j].base, steps[j].full, steps[j].differential, l);
    if !WarnsUnder(states[j], steps[j], l) {
      var i := RememberedWasGiven(states, steps, j, l);
    } else if RecentlyWarned(states, steps, j, l) {
      var i :| 0 <= i < j && WarnsUnder(states[i], steps[i], l) && Unpruned(steps, i, j, l) && steps[j].now < steps[i].now + 300_000_000_000;
      WarningsApart(states, steps, i, j, l);
    }
  }

  /** MAIN: only failed Backups of this plugin, full or differential, are ever reported, under that
      type. */
  lemma OnlyOwnBackupsReported(states: seq<System>, steps: seq<Step>, j: nat, uid: string)
    requires IsRun(states, steps) && ReportsAt(states, steps, j, uid)
    ensures var b := states[j].inflight[steps[j].worker];
            && b.how == "plugin" && b.plugin == "cnpg-backup.djosh34.github.io" && b.phase == "failed"
            && (b.requested == "full" || b.requested == "differential")
            && ReportedLabels(states[j], steps[j]) == steps[j].base.(kind := b.requested)
  {
    RunKeeps(states, steps, j);
  }

  // ---------------------------------------------------------------- a stale type

  lemma Extend(states: seq<System>, steps: seq<Step>, step: Step) returns (s: System, more: seq<System>, moreSteps: seq<Step>)
    requires IsRun(states, steps) && Enabled(states[|steps|], step)
    ensures more == states + [s] && moreSteps == steps + [step] && s == Apply(states[|steps|], step)
    ensures IsRun(more, moreSteps) && more[|moreSteps|] == s
  {
    s := Apply(states[|steps|], step);
    more, moreSteps := states + [s], steps + [step];
  }

  /** If the UID is deleted and seen again while a worker runs, the worker reports the new
      failure under the type of the old one. */
  lemma TypeCanBeStale() returns (states: seq<System>, steps: seq<Step>, j: nat)
    ensures IsRun(states, steps) && ReportsAt(states, steps, j, "u")
    ensures ReportedLabels(states[j], steps[j]).kind == "full" && Kind(states[j].watch.observed["u"].backup) == "differential"
  {
    var earlier := Backup("u", "plugin", PLUGIN, "full", "failed");
    var later := Backup("u", "plugin", PLUGIN, "differential", "failed");
    var s;
    states, steps := [START], [];
    s, states, steps := Extend(states, steps, Observe(earlier, false));
    s, states, steps := Extend(states, steps, Begin(0, "u"));
    s, states, steps := Extend(states, steps, Delete("u"));
    s, states, steps := Extend(states, steps, Observe(later, false));
    j := 4;
    s, states, steps := Extend(states, steps, Commit(0, Labels("r", "n", "c", ""), 0, 0, 0));
  }
}
