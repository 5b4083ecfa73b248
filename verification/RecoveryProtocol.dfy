/** The recovery-operation protocol as a state machine. Several manager processes share
    one ConfigMap; every write is a compare-and-swap on its resourceVersion that may be
    delivered late or never, whether or not its sender still waits for the reply. */
module RecoveryProtocol {
  import opened Basics
  import T = RecoveryTermination

  /** coordinator.process: a fresh UUID for every manager process. */
  type Pid = nat

  datatype Placement = Placement(clusterUID: string, operationID: string, details: string)
  datatype Targets = Targets(valid: bool, text: string)
  datatype Phase = Active | Uncertain | Completed

  /** recoveryOperation, the durable record. */
  datatype Record = Record(
    placement: Placement, targets: Targets, observer: Pid, phase: Phase,
    job: string, pods: seq<string>, released: bool, warnedAt: nat)

  /** What one call knows about its Cluster: its UID and OperationUID(). */
  datatype Cluster = Cluster(uid: string, operation: string)
  datatype Wanted = Wanted(placement: Placement, targets: Targets)

  /** operationFrom accepts the record for this Cluster. */
  predicate OperationFrom(r: Record, c: Cluster) {
    r.placement.clusterUID == c.uid && r.placement.operationID == c.operation && r.targets.valid
  }

  /** A request to the API server, with the process that sent it. */
  datatype Write =
    | Create(record: Record, author: Pid)
    | Update(base: nat, record: Record, author: Pid)

  // ---------------------------------------------------------------- the watch

  /** An event of the Pod watch. Broken is a closed stream, an error event, an undecodable
      object or a cancelled context. */
  datatype Event =
    | Broken
    | Bookmark
    | PodEvent(operation: string, removed: bool, uid: string, version: string)

  const MAX_PODS := 1024

  /** The pods map after one event, or None when the observation must be abandoned. */
  function Absorb(op: string, pods: map<string, string>, e: Event): Option<map<string, string>> {
    match e
    case Broken => None
    case Bookmark => Some(pods)
    case PodEvent(operation, removed, uid, version) =>
      if operation != op then Some(pods)
      else if removed || uid == "" || version == "" || |pods| >= MAX_PODS then None
      else Some(pods[uid := version])
  }

  /** The evidence behind one completed write: a watch prefix, what it reported, and the
      listings that were assessed against it. */
  datatype Certificate = Certificate(
    pid: Pid, cluster: Cluster, events: seq<Event>, reported: map<string, string>,
    jobs: seq<T.Job>, listed: seq<T.Pod>, job: string, pods: seq<string>)

  // ---------------------------------------------------------------- processes

  /** ensureRecovery, which holds coordinator.mu in every stage but Idle. */
  datatype Caller =
    | Idle
    | Creating(cluster: Cluster, wanted: Wanted, write: Write)
    | Holding(cluster: Cluster, wanted: Wanted, version: nat, record: Record)

  /** reconcileRecoveryOperation between its read and the resumed release. */
  datatype Reconciler = Resting | Resuming(cluster: Cluster, version: nat, record: Record)

  /** In-memory state of one manager process; monitors maps an operation to its done flag. */
  datatype Process = Process(caller: Caller, monitors: map<string, bool>, reconciler: Reconciler)

  /** Where observeRecovery is. */
  datatype Stage =
    | Watching(events: seq<Event>, pods: map<string, string>)
    | Certifying(certificate: Certificate)
    | Completing(write: Write)
    | Poisoning
    | Closing(write: Write)
    | Releasing
    | ReleaseReady(version: nat, record: Record)
    | ReleaseWriting(write: Write)
    | Leaving(closed: bool)
    | Gone(closed: bool)

  datatype Observer = Observer(pid: Pid, cluster: Cluster, stage: Stage)

  /** Calls of changeRecoveryLifetime; Released also keeps the durable record at that moment. */
  datatype LifetimeCall =
    | Established(pid: Pid, operation: string)
    | Released(pid: Pid, operation: string, durable: Option<Record>)

  datatype State = State(
    history: seq<Record>,           // contents of the ConfigMap; resourceVersion is the length
    authors: seq<Pid>,              // who wrote each of them
    sent: set<Write>,
    applied: set<Write>,
    processes: map<Pid, Process>,
    used: set<Pid>,
    observers: seq<Observer>,       // every observer ever started
    certificates: set<Certificate>,
    log: seq<LifetimeCall>)

  ghost predicate Init(s: State) {
    s == State([], [], {}, {}, map[], {}, [], {}, [])
  }

  function Durable(s: State): Option<Record> {
    if s.history == [] then None else Some(s.history[|s.history| - 1])
  }

  // ---------------------------------------------------------------- steps

  /** Processes start and die, the API server applies a request, the reconcile loop runs. */
  datatype ManagerStep =
    | StartProcess(pid: Pid)
    | CrashProcess(pid: Pid)
    | Deliver(write: Write)
    | Reconcile(pid: Pid, cluster: Cluster)
    | ReconcileStop(pid: Pid)
    | ReconcileCall(pid: Pid, ok: bool)

  /** ensureRecovery, between its external calls. */
  datatype CallerStep =
    | EnsureRead(pid: Pid, cluster: Cluster, wanted: Wanted)
    | EnsureCreate(pid: Pid, cluster: Cluster, wanted: Wanted)
    | EnsureCreated(pid: Pid)
    | EnsureAlreadyExists(pid: Pid)
    | EnsureRefuse(pid: Pid)
    | EnsurePoison(pid: Pid)
    | EnsureWarn(pid: Pid, now: nat)
    | EnsureAgain(pid: Pid)
    | EnsureObserve(pid: Pid)

  /** observeRecovery up to its deferred exit. */
  datatype WatchStep =
    | Watch(i: nat, event: Event)
    | Check(i: nat, jobs: seq<T.Job>, listed: seq<T.Pod>)
    | GiveUp(i: nat)
    | Complete(i: nat)
    | CompleteAcknowledged(i: nat)
    | PoisonUnread(i: nat)
    | PoisonRead(i: nat)
    | PoisonAcknowledged(i: nat)
    | PoisonUnacknowledged(i: nat)
    | Leave(i: nat)

  /** releaseCompletedRecovery inside the observer. */
  datatype ReleaseStep =
    | ReleaseRead(i: nat)
    | ReleaseStop(i: nat)
    | ReleaseCall(i: nat, ok: bool)
    | ReleaseAcknowledged(i: nat)
    | ReleaseUnacknowledged(i: nat)

  datatype Step =
    | Managing(manager: ManagerStep)
    | Calling(caller: CallerStep)
    | Observing(watch: WatchStep)
    | Freeing(release: ReleaseStep)

  ghost predicate CallerAt(s: State, p: Pid) {
    p in s.processes && s.processes[p].caller.Holding?
  }

  /** ensureRecovery got past its identity and state checks. */
  predicate Admitted(c: Caller)
    requires c.Holding?
  {
    && OperationFrom(c.record, c.cluster)
    && c.record.placement == c.wanted.placement
    && c.record.targets == c.wanted.targets
    && c.record.phase == Active
  }

  ghost predicate ObserverAt(s: State, i: nat) {
    i < |s.observers| && s.observers[i].pid in s.processes
  }

  ghost predicate Releasable(r: Record) {
    r.phase == Completed && r.job != "" && r.pods != [] && !r.released
  }

  /** The API server accepts a Create when there is nothing and an Update of the current version. */
  ghost predicate Deliverable(s: State, w: Write) {
    w in s.sent && (if w.Create? then s.history == [] else s.history != [] && w.base == |s.history|)
  }

  ghost predicate ManagerEnabled(s: State, step: ManagerStep) {
    match step
    case StartProcess(p) => p !in s.used
    case CrashProcess(p) => p in s.processes
    case Deliver(w) => Deliverable(s, w)
    case Reconcile(p, c) => p in s.processes && s.processes[p].reconciler.Resting? && s.history != []
    case ReconcileStop(p) => p in s.processes && s.processes[p].reconciler.Resuming?
    case ReconcileCall(p, ok) => p in s.processes && s.processes[p].reconciler.Resuming?
  }

  ghost predicate MayObserve(s: State, p: Pid) {
    && CallerAt(s, p) && Admitted(s.processes[p].caller) && s.processes[p].caller.record.observer == p
    && s.processes[p].caller.cluster.operation !in s.processes[p].monitors
    && |s.processes[p].monitors| < 16
  }

  ghost predicate CallerEnabled(s: State, step: CallerStep) {
    match step
    case EnsureRead(p, c, want) => p in s.processes && s.processes[p].caller.Idle? && s.history != []
    case EnsureCreate(p, c, want) => p in s.processes && s.processes[p].caller.Idle? && s.history == []
    case EnsureCreated(p) => p in s.processes && s.processes[p].caller.Creating? && s.processes[p].caller.write in s.applied
    case EnsureAlreadyExists(p) => p in s.processes && s.processes[p].caller.Creating? && s.history != []
    case EnsureRefuse(p) => p in s.processes && !s.processes[p].caller.Idle?
    case EnsurePoison(p) => CallerAt(s, p) && Admitted(s.processes[p].caller) && s.processes[p].caller.record.observer != p
    case EnsureWarn(p, now) =>
      && CallerAt(s, p) && Admitted(s.processes[p].caller) && s.processes[p].caller.record.observer == p
      && (s.processes[p].caller.record.warnedAt == 0 || now >= s.processes[p].caller.record.warnedAt + 300)
    case EnsureAgain(p) =>
      && CallerAt(s, p) && Admitted(s.processes[p].caller) && s.processes[p].caller.record.observer == p
      && s.processes[p].caller.cluster.operation in s.processes[p].monitors
    case EnsureObserve(p) => MayObserve(s, p)
  }

  ghost predicate WatchEnabled(s: State, step: WatchStep) {
    match step
    case Watch(i, e) => ObserverAt(s, i) && s.observers[i].stage.Watching?
    case Check(i, jobs, listed) => ObserverAt(s, i) && s.observers[i].stage.Watching?
    case GiveUp(i) => ObserverAt(s, i) && (s.observers[i].stage.Certifying? || s.observers[i].stage.Completing?)
    case Complete(i) => ObserverAt(s, i) && s.observers[i].stage.Certifying? && s.history != []
    case CompleteAcknowledged(i) => ObserverAt(s, i) && s.observers[i].stage.Completing? && s.observers[i].stage.write in s.applied
    case PoisonUnread(i) => ObserverAt(s, i) && s.observers[i].stage.Poisoning?
    case PoisonRead(i) => ObserverAt(s, i) && s.observers[i].stage.Poisoning? && s.history != []
    case PoisonAcknowledged(i) => ObserverAt(s, i) && s.observers[i].stage.Closing? && s.observers[i].stage.write in s.applied
    case PoisonUnacknowledged(i) => ObserverAt(s, i) && s.observers[i].stage.Closing?
    case Leave(i) => ObserverAt(s, i) && s.observers[i].stage.Leaving? && s.processes[s.observers[i].pid].caller.Idle?
  }

  ghost predicate ReleaseEnabled(s: State, step: ReleaseStep) {
    match step
    case ReleaseRead(i) => ObserverAt(s, i) && s.observers[i].stage.Releasing? && s.history != []
    case ReleaseStop(i) => ObserverAt(s, i) && s.observers[i].stage.Releasing?
    case ReleaseCall(i, ok) => ObserverAt(s, i) && s.observers[i].stage.ReleaseReady?
    case ReleaseAcknowledged(i) => ObserverAt(s, i) && s.observers[i].stage.ReleaseWriting? && s.observers[i].stage.write in s.applied
    case ReleaseUnacknowledged(i) => ObserverAt(s, i) && s.observers[i].stage.ReleaseWriting?
  }

  ghost predicate Enabled(s: State, step: Step) {
    match step
    case Managing(m) => ManagerEnabled(s, m)
    case Calling(c) => CallerEnabled(s, c)
    case Observing(w) => WatchEnabled(s, w)
    case Freeing(r) => ReleaseEnabled(s, r)
  }

  function SetCaller(s: State, p: Pid, c: Caller): State
    requires p in s.processes
  {
    s.(processes := s.processes[p := s.processes[p].(caller := c)])
  }

  function SetReconciler(s: State, p: Pid, r: Reconciler): State
    requires p in s.processes
  {
    s.(processes := s.processes[p := s.processes[p].(reconciler := r)])
  }

  function SetStage(s: State, i: nat, stage: Stage): State
    requires i < |s.observers|
  {
    s.(observers := s.observers[i := s.observers[i].(stage := stage)])
  }

  function Send(s: State, w: Write): State {
    s.(sent := s.sent + {w})
  }

  function FreshRecord(want: Wanted, p: Pid): Record {
    Record(want.placement, want.targets, p, Active, "", [], false, 0)
  }

  ghost function AfterCheck(s: State, i: nat, jobs: seq<T.Job>, listed: seq<T.Pod>): State
    requires i < |s.observers| && s.observers[i].stage.Watching?
  {
    var o := s.observers[i];
    match T.Assess(jobs, listed, o.cluster.operation, o.cluster.uid, o.stage.pods)
    case Refused => SetStage(s, i, Poisoning)
    case Waiting => s
    case Certified(job, pods) =>
      var cert := Certificate(o.pid, o.cluster, o.stage.events, o.stage.pods, jobs, listed, job, pods);
      SetStage(s, i, Certifying(cert)).(certificates := s.certificates + {cert})
  }

  ghost function AfterComplete(s: State, i: nat): State
    requires i < |s.observers| && s.observers[i].stage.Certifying? && s.history != []
  {
    var o := s.observers[i];
    var got := Durable(s).value;
    if OperationFrom(got, o.cluster) && got.phase == Active && got.observer == o.pid then
      var cert := o.stage.certificate;
      var w := Update(|s.history|, got.(phase := Completed, job := cert.job, pods := cert.pods), o.pid);
      SetStage(Send(s, w), i, Completing(w))
    else
      SetStage(s, i, Poisoning)
  }

  ghost function AfterPoisonRead(s: State, i: nat): State
    requires i < |s.observers| && s.history != []
  {
    var o := s.observers[i];
    var got := Durable(s).value;
    if !OperationFrom(got, o.cluster) || got.observer != o.pid then SetStage(s, i, Leaving(false))
    else if got.phase != Active then SetStage(s, i, Leaving(true))
    else
      var w := Update(|s.history|, got.(phase := Uncertain), o.pid);
      SetStage(Send(s, w), i, Closing(w))
  }

  ghost function AfterReleaseRead(s: State, i: nat): State
    requires i < |s.observers| && s.history != []
  {
    var got := Durable(s).value;
    if OperationFrom(got, s.observers[i].cluster) && Releasable(got) then
      SetStage(s, i, ReleaseReady(|s.history|, got))
    else
      SetStage(s, i, Leaving(true))
  }

  ghost function AfterReleaseCall(s: State, i: nat, ok: bool): State
    requires i < |s.observers| && s.observers[i].stage.ReleaseReady?
  {
    var o := s.observers[i];
    var called := s.(log := s.log + [Released(o.pid, o.cluster.operation, Durable(s))]);
    if ok then
      var w := Update(o.stage.version, o.stage.record.(released := true), o.pid);
      SetStage(Send(called, w), i, ReleaseWriting(w))
    else
      SetStage(called, i, Releasing)
  }

  ghost function AfterLeave(s: State, i: nat): State
    requires i < |s.observers| && s.observers[i].stage.Leaving? && s.observers[i].pid in s.processes
  {
    var o := s.observers[i];
    var p := s.processes[o.pid];
    var op := o.cluster.operation;
    var monitors := if o.stage.closed then p.monitors - {op}
                    else if op in p.monitors then p.monitors[op := true] else p.monitors;
    SetStage(s.(processes := s.processes[o.pid := p.(monitors := monitors)]), i, Gone(o.stage.closed))
  }

  ghost function AfterReconcile(s: State, p: Pid, c: Cluster): State
    requires p in s.processes && s.history != []
  {
    var got := Durable(s).value;
    if !OperationFrom(got, c) then s
    else if got.phase == Active && got.observer != p then
      Send(s, Update(|s.history|, got.(phase := Uncertain), p))
    else if Releasable(got) then
      SetReconciler(s, p, Resuming(c, |s.history|, got))
    else s
  }

  ghost function AfterReconcileCall(s: State, p: Pid, ok: bool): State
    requires p in s.processes && s.processes[p].reconciler.Resuming?
  {
    var r := s.processes[p].reconciler;
    var called := SetReconciler(s.(log := s.log + [Released(p, r.cluster.operation, Durable(s))]), p, Resting);
    if ok then Send(called, Update(r.version, r.record.(released := true), p)) else called
  }

  ghost function AfterObserve(s: State, p: Pid): State
    requires CallerAt(s, p)
  {
    var c := s.processes[p].caller.cluster;
    SetCaller(s.(processes := s.processes[p := s.processes[p].(monitors := s.processes[p].monitors[c.operation := false])],
                 observers := s.observers + [Observer(p, c, Watching([], map[]))],
                 log := s.log + [Established(p, c.operation)]), p, Idle)
  }

  function Started(s: State, p: Pid): State {
    s.(processes := s.processes[p := Process(Idle, map[], Resting)], used := s.used + {p})
  }

  function Delivered(s: State, w: Write): State {
    s.(history := s.history + [w.record], authors := s.authors + [w.author], applied := s.applied + {w})
  }

  ghost function ManagerApply(s: State, step: ManagerStep): State
    requires ManagerEnabled(s, step)
  {
    match step
    case StartProcess(p) => Started(s, p)
    case CrashProcess(p) => s.(processes := s.processes - {p})
    case Deliver(w) => Delivered(s, w)
    case Reconcile(p, c) => AfterReconcile(s, p, c)
    case ReconcileStop(p) => SetReconciler(s, p, Resting)
    case ReconcileCall(p, ok) => AfterReconcileCall(s, p, ok)
  }

  ghost function CallerApply(s: State, step: CallerStep): State
    requires CallerEnabled(s, step)
  {
    match step
    case EnsureRead(p, c, want) => SetCaller(s, p, Holding(c, want, |s.history|, Durable(s).value))
    case EnsureCreate(p, c, want) =>
      var w := Create(FreshRecord(want, p), p);
      SetCaller(Send(s, w), p, Creating(c, want, w))
    case EnsureCreated(p) =>
      var k := s.processes[p].caller;
      SetCaller(s, p, Holding(k.cluster, k.wanted, 1, k.write.record))
    case EnsureAlreadyExists(p) =>
      var k := s.processes[p].caller;
      SetCaller(s, p, Holding(k.cluster, k.wanted, |s.history|, Durable(s).value))
    case EnsureRefuse(p) => SetCaller(s, p, Idle)
    case EnsurePoison(p) =>
      var k := s.processes[p].caller;
      SetCaller(Send(s, Update(k.version, k.record.(phase := Uncertain), p)), p, Idle)
    case EnsureWarn(p, now) =>
      var k := s.processes[p].caller;
      SetCaller(Send(s, Update(k.version, k.record.(warnedAt := now), p)), p, Idle)
    case EnsureAgain(p) =>
      SetCaller(s.(log := s.log + [Established(p, s.processes[p].caller.cluster.operation)]), p, Idle)
    case EnsureObserve(p) => AfterObserve(s, p)
  }

  ghost function WatchApply(s: State, step: WatchStep): State
    requires WatchEnabled(s, step)
  {
    match step
    case Watch(i, e) =>
      var o := s.observers[i];
      (match Absorb(o.cluster.operation, o.stage.pods, e)
       case None => SetStage(s, i, Poisoning)
       case Some(pods) => SetStage(s, i, Watching(o.stage.events + [e], pods)))
    case Check(i, jobs, listed) => AfterCheck(s, i, jobs, listed)
    case GiveUp(i) => SetStage(s, i, Poisoning)
    case Complete(i) => AfterComplete(s, i)
    case CompleteAcknowledged(i) => SetStage(s, i, Releasing)
    case PoisonUnread(i) => SetStage(s, i, Leaving(false))
    case PoisonRead(i) => AfterPoisonRead(s, i)
    case PoisonAcknowledged(i) => SetStage(s, i, Leaving(true))
    case PoisonUnacknowledged(i) => SetStage(s, i, Leaving(false))
    case Leave(i) => AfterLeave(s, i)
  }

  ghost function ReleaseApply(s: State, step: ReleaseStep): State
    requires ReleaseEnabled(s, step)
  {
    match step
    case ReleaseRead(i) => AfterReleaseRead(s, i)
    case ReleaseStop(i) => SetStage(s, i, Leaving(true))
    case ReleaseCall(i, ok) => AfterReleaseCall(s, i, ok)
    case ReleaseAcknowledged(i) => SetStage(s, i, Leaving(true))
    case ReleaseUnacknowledged(i) => SetStage(s, i, Releasing)
  }

  ghost function Apply(s: State, step: Step): State
    requires Enabled(s, step)
  {
    match step
    case Managing(m) => ManagerApply(s, m)
    case Calling(c) => CallerApply(s, c)
    case Observing(w) => WatchApply(s, w)
    case Freeing(r) => ReleaseApply(s, r)
  }

  ghost predicate Next(s: State, t: State) {
    exists step: Step :: Enabled(s, step) && t == Apply(s, step)
  }

  /** A run: any interleaving of steps from the empty cluster. */
  ghost predicate IsRun(run: seq<State>) {
    && run != [] && Init(run[0])
    && forall i :: 0 <= i < |run| - 1 ==> Next(run[i], run[i + 1])
  }

  /** A run can be continued by any enabled step. */
  lemma Go(run: seq<State>, step: Step) returns (more: seq<State>, s: State)
    requires IsRun(run) && Enabled(run[|run| - 1], step)
    ensures s == Apply(run[|run| - 1], step) && more == run + [s] && IsRun(more) && more[|more| - 1] == s
  {
    s := Apply(run[|run| - 1], step);
    more := run + [s];
    forall i | 0 <= i < |more| - 1 ensures Next(more[i], more[i + 1]) {
      if i < |run| - 1 {
        assert Next(run[i], run[i + 1]);
      } else {
        assert Enabled(more[i], step);
      }
    }
  }
}
