/** What the recovery protocol gets done: which continuation every reachable state has. Safety
    alone would allow a manager that never acts. */
module RecoveryProgress {
  import opened Basics
  import T = RecoveryTermination
  import opened RecoveryProtocol
  import opened RecoverySafety

  ghost function Last(run: seq<State>): State
    requires run != []
  {
    run[|run| - 1]
  }

  /** Nothing but the record and the traffic about it differ: w was sent and applied. */
  ghost function Written(s: State, w: Write): State {
    s.(history := s.history + [w.record], authors := s.authors + [w.author], sent := s.sent + {w}, applied := s.applied + {w})
  }

  lemma DeliverAtOnce(run: seq<State>, s: State, w: Write) returns (more: seq<State>)
    requires IsRun(run) && Last(run) == Send(s, w) && w.Update? && s.history != [] && w.base == |s.history|
    ensures IsRun(more) && run <= more && Last(more) == Written(s, w)
  {
    var t;
    more, t := Go(run, Managing(Deliver(w)));
  }

  // ---------------------------------------------------------------- the reconcile pass

  /** MAIN: an active record of another process does not stay open. In every reachable state
      one reconcile pass by any live resting process sends exactly one write, and its delivery
      makes the record uncertain and changes nothing else. */
  lemma OrphanIsClosed(run: seq<State>, p: Pid, c: Cluster) returns (more: seq<State>, w: Write)
    requires IsRun(run) && p in Last(run).processes && Last(run).processes[p].reconciler.Resting?
    requires Durable(Last(run)).Some?
    requires var r := Durable(Last(run)).value;
             && r.phase == Active && r.observer != p
             && r.placement.clusterUID == c.uid && r.placement.operationID == c.operation && r.targets.valid
    ensures Enabled(Last(run), Managing(Reconcile(p, c)))
    ensures Apply(Last(run), Managing(Reconcile(p, c))) == Last(run).(sent := Last(run).sent + {w})
    ensures IsRun(more) && run <= more && Last(more) == Written(Last(run), w)
    ensures w.author == p && w.record == Durable(Last(run)).value.(phase := Uncertain)
  {
    var s := Last(run);
    var t;
    more, t := Go(run, Managing(Reconcile(p, c)));
    w := Update(|s.history|, Durable(s).value.(phase := Uncertain), p);
    more := DeliverAtOnce(more, s, w);
  }

  /** Any other record is left alone: one of another Cluster, an own active one, an uncertain one,
      or one already released. */
  lemma ReconcileLeavesAlone(run: seq<State>, p: Pid, c: Cluster)
    requires IsRun(run) && p in Last(run).processes && Durable(Last(run)).Some?
    requires var r := Durable(Last(run)).value;
             || r.placement.clusterUID != c.uid || r.placement.operationID != c.operation || !r.targets.valid
             || (r.phase == Active && r.observer == p) || r.phase == Uncertain || r.released
    ensures AfterReconcile(Last(run), p, c) == Last(run)
  {
    var s := Last(run);
    RunKeeps(run, |run| - 1);
    ReleasedIsCompleted(s, |s.history| - 1);
  }

  lemma {:induction false} ReleasedIsCompleted(s: State, k: nat)
    requires HistoryInv(s) && k < |s.history|
    ensures s.history[k].released ==> s.history[k].phase == Completed
  {
    if k > 0 {
      ReleasedIsCompleted(s, k - 1);
      assert Move(s.history[k - 1], s.history[k], s.authors[k]);
    }
  }

  /** A certificate always names its Job and at least one Pod. */
  lemma CertificateNamesPods(c: Certificate)
    requires CertificateSound(c)
    ensures c.job != "" && c.pods != []
  {
    var op := c.cluster.operation;
    T.CertificateFacts(c.jobs, c.listed, op, c.cluster.uid, c.reported);
    var uids := T.Uids(T.PodsOf(c.listed, op));
    assert |uids| > 0;
    assert |multiset(c.pods)| == |multiset(uids)|;
  }

  lemma CompletedIsReleasable(run: seq<State>)
    requires IsRun(run) && Durable(Last(run)).Some? && Durable(Last(run)).value.phase == Completed
    ensures Durable(Last(run)).value.job != "" && Durable(Last(run)).value.pods != []
  {
    var s := Last(run);
    RunKeeps(run, |run| - 1);
    CompletedIsCertified(s);
    var c :| c in s.certificates && CertificateSound(c) && Backs(c, Durable(s).value);
    CertificateNamesPods(c);
  }

  /** The release is called under the durable record; then the record is marked released. */
  ghost function Called(s: State, p: Pid, op: string): State {
    s.(log := s.log + [Released(p, op, Durable(s))])
  }

  lemma ResumeSteps(s: State, p: Pid, c: Cluster)
    requires p in s.processes && s.processes[p].reconciler.Resting? && s.history != []
    requires OperationFrom(Durable(s).value, c) && Releasable(Durable(s).value)
    ensures ManagerEnabled(s, Reconcile(p, c))
    ensures var t := ManagerApply(s, Reconcile(p, c));
            && ManagerEnabled(t, ReconcileCall(p, true))
            && ManagerApply(t, ReconcileCall(p, true)) ==
               Send(Called(s, p, c.operation), Update(|s.history|, Durable(s).value.(released := true), p))
  {
    var u := ManagerApply(ManagerApply(s, Reconcile(p, c)), ReconcileCall(p, true));
    assert u.processes == s.processes;
  }

  /** MAIN: a completed record that is not yet released is resumed by any live resting process
      of any run: it calls the release for this operation under that very record and then
      marks it released; nothing else changes. */
  lemma CompletionIsResumed(run: seq<State>, p: Pid, c: Cluster) returns (more: seq<State>, w: Write)
    requires IsRun(run) && p in Last(run).processes && Last(run).processes[p].reconciler.Resting?
    requires Durable(Last(run)).Some?
    requires var r := Durable(Last(run)).value;
             && r.phase == Completed && !r.released
             && r.placement.clusterUID == c.uid && r.placement.operationID == c.operation && r.targets.valid
    ensures IsRun(more) && run <= more
    ensures w.author == p && w.record == Durable(Last(run)).value.(released := true)
    ensures Last(more) == Written(Called(Last(run), p, c.operation), w)
  {
    var s := Last(run);
    CompletedIsReleasable(run);
    ResumeSteps(s, p, c);
    w := Update(|s.history|, Durable(s).value.(released := true), p);
    var t;
    more, t := Go(run, Managing(Reconcile(p, c)));
    more, t := Go(more, Managing(ReconcileCall(p, true)));
    more := DeliverAtOnce(more, Called(s, p, c.operation), w);
  }

  // ---------------------------------------------------------------- ensureRecovery

  /** The record is the one the call asks for. */
  ghost predicate Matches(r: Record, c: Cluster, want: Wanted) {
    && r.placement == want.placement && r.targets == want.targets && r.targets.valid
    && r.placement.clusterUID == c.uid && r.placement.operationID == c.operation
  }

  /** From s to t a call was answered: the source lifetime was established or an observer began. */
  ghost predicate Answered(s: State, t: State) {
    |s.observers| < |t.observers| || (|s.log| < |t.log| && t.log[|s.log|].Established?)
  }

  /** p's call found its own record, and it is still the durable one in all that identifies it. */
  ghost predicate FoundOwn(s: State, p: Pid) {
    && CallerAt(s, p) && Durable(s).Some? && Durable(s).value.observer == p
    && Matches(Durable(s).value, s.processes[p].caller.cluster, s.processes[p].caller.wanted)
  }

  /** What an answer does. */
  ghost predicate AnswerOf(s: State, t: State, p: Pid)
    requires CallerAt(s, p)
  {
    var c := s.processes[p].caller.cluster;
    && t.log == s.log + [Established(p, c.operation)]
    && (t.observers == s.observers || t.observers == s.observers + [Observer(p, c, Watching([], map[]))])
  }

  lemma CallerAnswers(s: State, step: CallerStep)
    requires CallerEnabled(s, step) && Answered(s, CallerApply(s, step))
    ensures CallerAt(s, step.pid) && AnswerOf(s, CallerApply(s, step), step.pid)
    ensures var k := s.processes[step.pid].caller; Matches(k.record, k.cluster, k.wanted) && k.record.observer == step.pid
  {
  }

  lemma StepAnswers(s: State, step: Step) returns (p: Pid)
    requires Inv(s) && Enabled(s, step) && Answered(s, Apply(s, step))
    ensures FoundOwn(s, p) && AnswerOf(s, Apply(s, step), p)
  {
    match step {
      case Managing(m) => ManagerAnswersNobody(s, m);
      case Calling(c) =>
        CallerAnswers(s, c);
        p := c.pid;
        var k := s.processes[p].caller;
        assert CallerSound(s, p, s.processes[p].monitors, k);
        HistoryStable(s, k.version - 1, |s.history| - 1);
      case Observing(w) => WatchAnswersNobody(s, w);
      case Freeing(r) => ReleaseAnswersNobody(s, r);
    }
  }

  /** MAIN: in every run, whenever a call is answered by establishing the source lifetime, or an
      observer is started, the durable record is the caller's own: its placement and targets are
      those asked for, and this process created it. */
  lemma AnsweredForItsOwn(run: seq<State>, i: nat) returns (p: Pid)
    requires IsRun(run) && i + 1 < |run| && Answered(run[i], run[i + 1])
    ensures FoundOwn(run[i], p) && AnswerOf(run[i], run[i + 1], p)
  {
    RunKeeps(run, i);
    assert Next(run[i], run[i + 1]);
    var step :| Enabled(run[i], step) && run[i + 1] == Apply(run[i], step);
    p := StepAnswers(run[i], step);
  }

  lemma ManagerAnswersNobody(s: State, step: ManagerStep)
    requires ManagerEnabled(s, step)
    ensures var t := ManagerApply(s, step); |t.observers| == |s.observers| && (|s.log| < |t.log| ==> t.log[|s.log|].Released?)
  {
  }

  lemma WatchAnswersNobody(s: State, step: WatchStep)
    requires WatchEnabled(s, step)
    ensures var t := WatchApply(s, step); |t.observers| == |s.observers| && |t.log| == |s.log|
  {
  }

  lemma ReleaseAnswersNobody(s: State, step: ReleaseStep)
    requires ReleaseEnabled(s, step)
    ensures var t := ReleaseApply(s, step); |t.observers| == |s.observers| && (|s.log| < |t.log| ==> t.log[|s.log|].Released?)
  {
  }

  /** A call that finds another operation, or a closed one, changes nothing. */
  lemma MismatchIsRefused(s: State, step: CallerStep)
    requires CallerEnabled(s, step) && CallerAt(s, step.pid)
    requires var k := s.processes[step.pid].caller; !Matches(k.record, k.cluster, k.wanted) || k.record.phase != Active
    ensures CallerApply(s, step) == s.(processes := s.processes[step.pid := s.processes[step.pid].(caller := Idle)])
  {
  }

  /** p's call has just read an active record of another process. */
  ghost predicate FoundForeign(s: State, p: Pid) {
    && CallerAt(s, p) && s.processes[p].caller.version == |s.history|
    && var k := s.processes[p].caller;
       Matches(k.record, k.cluster, k.wanted) && k.record.phase == Active && k.record.observer != p
  }

  lemma ForeignCallSends(s: State, p: Pid)
    requires FoundForeign(s, p)
    ensures var k := s.processes[p].caller;
            && CallerEnabled(s, EnsurePoison(p))
            && CallerApply(s, EnsurePoison(p)) == Send(SetCaller(s, p, Idle), Update(|s.history|, k.record.(phase := Uncertain), p))
  {
  }

  /** A call that finds the active record of another process closes it: it never adopts. */
  lemma ForeignCallCloses(run: seq<State>, p: Pid) returns (more: seq<State>, w: Write)
    requires IsRun(run) && FoundForeign(Last(run), p)
    ensures IsRun(more) && run <= more && Durable(Last(run)).Some?
    ensures w.author == p && w.record == Durable(Last(run)).value.(phase := Uncertain)
    ensures Last(more) == Written(SetCaller(Last(run), p, Idle), w)
  {
    var s := Last(run);
    RunKeeps(run, |run| - 1);
    var k := s.processes[p].caller;
    assert CallerSound(s, p, s.processes[p].monitors, k);
    assert At(s, |s.history|, k.record);
    ForeignCallSends(s, p);
    w := Update(|s.history|, k.record.(phase := Uncertain), p);
    var t;
    more, t := Go(run, Calling(EnsurePoison(p)));
    more := DeliverAtOnce(more, SetCaller(s, p, Idle), w);
  }

  /** A call that finds its own active record and no monitor starts the observer, unless 16
      monitors exist. */
  lemma OwnCallObserves(s: State, p: Pid)
    requires CallerAt(s, p)
    requires var k := s.processes[p].caller;
             Matches(k.record, k.cluster, k.wanted) && k.record.phase == Active && k.record.observer == p
    ensures var k, monitors := s.processes[p].caller, s.processes[p].monitors;
            && (CallerEnabled(s, EnsureObserve(p)) <==> k.cluster.operation !in monitors && |monitors| < 16)
            && (CallerEnabled(s, EnsureAgain(p)) <==> k.cluster.operation in monitors)
            && !CallerEnabled(s, EnsurePoison(p))
    ensures CallerEnabled(s, EnsureObserve(p)) ==>
              var k := s.processes[p].caller;
              var t := CallerApply(s, EnsureObserve(p));
              && t.observers == s.observers + [Observer(p, k.cluster, Watching([], map[]))]
              && t.processes == s.processes[p := s.processes[p].(caller := Idle, monitors := s.processes[p].monitors[k.cluster.operation := false])]
  {
  }

  // ---------------------------------------------------------------- observeRecovery

  /** The watch is lost exactly by a broken stream, by a removed, nameless or unversioned Pod of
      the operation, or by one Pod too many; any other event is followed. */
  lemma WatchDecides(s: State, i: nat, e: Event)
    requires Inv(s) && WatchEnabled(s, Watch(i, e))
    ensures var o, t := s.observers[i], WatchApply(s, Watch(i, e));
            var own := e.PodEvent? && e.operation == o.cluster.operation;
            var lost := e.Broken? || (own && (e.removed || e.uid == "" || e.version == "" || |o.stage.pods| >= 1024));
            && (lost ==> t == SetStage(s, i, Poisoning))
            && (!lost ==> && t.observers[i].stage.Watching? && t == SetStage(s, i, t.observers[i].stage)
                          && t.observers[i].stage.events == o.stage.events + [e]
                          && Reflects(t.observers[i].stage.pods, o.stage.events + [e], o.cluster.operation))
  {
    WatchKeeps(s, i, e);
    var o, t := s.observers[i], WatchApply(s, Watch(i, e));
    assert ObserverSound(t, t.observers[i]);
  }

  /** MAIN: a check of the listings gives up exactly on a fault, goes on watching unchanged while
      something is pending (the Job has not appeared, is not complete, or the watch is behind),
      and otherwise certifies. */
  lemma CheckDecides(s: State, i: nat, jobs: seq<T.Job>, listed: seq<T.Pod>)
    requires WatchEnabled(s, Check(i, jobs, listed))
    ensures var o, t := s.observers[i], WatchApply(s, Check(i, jobs, listed));
            var op, watched := o.cluster.operation, o.stage.pods;
            var fault, pending := T.Fault(jobs, listed, op, o.cluster.uid, watched), T.Pending(jobs, listed, op, watched);
            && (fault ==> t == SetStage(s, i, Poisoning))
            && (!fault && pending ==> t == s)
            && (!fault && !pending ==> t.observers[i].stage.Certifying? && t.observers[i].stage.certificate.reported == watched
                                       && t.observers[i].stage.certificate.events == o.stage.events)
  {
    var o := s.observers[i];
    T.VerdictMeans(jobs, listed, o.cluster.operation, o.cluster.uid, o.stage.pods);
  }

  /** The record an observer was started for stays its own. */
  lemma ObservedRecord(run: seq<State>, i: nat)
    requires IsRun(run) && i < |Last(run).observers|
    ensures Durable(Last(run)).Some? && OperationFrom(Durable(Last(run)).value, Last(run).observers[i].cluster)
    ensures Durable(Last(run)).value.observer == Last(run).observers[i].pid
  {
    var s := Last(run);
    RunKeeps(run, |run| - 1);
    assert ObserverSound(s, s.observers[i]);
    HistoryStable(s, 0, |s.history| - 1);
  }

  lemma PoisonSteps(s: State, i: nat)
    requires ObserverAt(s, i) && s.observers[i].stage.Poisoning? && s.history != []
    requires OperationFrom(Durable(s).value, s.observers[i].cluster) && Durable(s).value.observer == s.observers[i].pid
    ensures WatchEnabled(s, PoisonRead(i))
    ensures var r, t := Durable(s).value, WatchApply(s, PoisonRead(i));
            var w := Update(|s.history|, r.(phase := Uncertain), s.observers[i].pid);
            t == if r.phase == Active then Send(SetStage(s, i, Closing(w)), w) else SetStage(s, i, Leaving(true))
  {
  }

  /** MAIN: an observation that gives up closes the record. From every reachable state with such
      an observer in a live process the record can be read, made uncertain if it was still active,
      and acknowledged, and then it is closed for good. */
  lemma AbandonedIsClosed(run: seq<State>, i: nat) returns (more: seq<State>)
    requires IsRun(run) && ObserverAt(Last(run), i) && Last(run).observers[i].stage.Poisoning?
    ensures IsRun(more) && run <= more && Durable(Last(run)).Some? && Durable(Last(more)).Some?
    ensures var r := Durable(Last(run)).value;
            Durable(Last(more)).value == if r.phase == Active then r.(phase := Uncertain) else r
    ensures i < |Last(more).observers| && Last(more).observers[i].stage == Leaving(true)
    ensures Last(more).processes == Last(run).processes && Last(more).log == Last(run).log
  {
    var s := Last(run);
    ObservedRecord(run, i);
    PoisonSteps(s, i);
    var t;
    more, t := Go(run, Observing(PoisonRead(i)));
    if Durable(s).value.phase == Active {
      var w := Update(|s.history|, Durable(s).value.(phase := Uncertain), s.observers[i].pid);
      more := DeliverAtOnce(more, SetStage(s, i, Closing(w)), w);
      more, t := Go(more, Observing(PoisonAcknowledged(i)));
    }
  }

  /** An observer that leaves a closed record frees its monitor; otherwise the monitor stays, marked
      done, so that this process never observes again. Other monitors are untouched. */
  lemma MonitorAfterLeave(s: State, i: nat)
    requires Inv(s) && WatchEnabled(s, Leave(i))
    ensures var o := s.observers[i];
            var before, after := s.processes[o.pid].monitors, WatchApply(s, Leave(i)).processes[o.pid].monitors;
            && (o.stage.closed ==> after == before - {o.cluster.operation})
            && (!o.stage.closed ==> after == before[o.cluster.operation := true])
  {
    assert ObserverSound(s, s.observers[i]);
  }
}
