/** Safety of the recovery-operation protocol over every run. */
module RecoverySafety {
  import opened Basics
  import opened RecoveryProtocol
  import T = RecoveryTermination

  // ---------------------------------------------------------------- what a watch prefix reports

  ghost predicate Mentions(e: Event, op: string, uid: string) {
    e.PodEvent? && e.operation == op && e.uid == uid
  }

  /** `version` is the last one the events report for `uid`. */
  ghost predicate LastReport(events: seq<Event>, op: string, uid: string, version: string) {
    exists k :: 0 <= k < |events| && Mentions(events[k], op, uid) && events[k].version == version
                && forall m :: k < m < |events| ==> !Mentions(events[m], op, uid)
  }

  /** No loss of the stream and no removal of one of the operation's Pods. */
  ghost predicate Uninterrupted(events: seq<Event>, op: string) {
    forall e :: e in events ==> !e.Broken? && !(e.PodEvent? && e.operation == op && e.removed)
  }

  /** The map is exactly the set of reported Pods, each at its last version. */
  ghost predicate Reflects(pods: map<string, string>, events: seq<Event>, op: string) {
    && (forall u :: u in pods ==> LastReport(events, op, u, pods[u]))
    && (forall k :: 0 <= k < |events| && events[k].PodEvent? && events[k].operation == op ==> events[k].uid in pods)
  }

  lemma ReflectsStep(pods: map<string, string>, events: seq<Event>, op: string, e: Event)
    requires Reflects(pods, events, op) && Uninterrupted(events, op) && Absorb(op, pods, e).Some?
    ensures Reflects(Absorb(op, pods, e).value, events + [e], op) && Uninterrupted(events + [e], op)
  {
    var next, all := Absorb(op, pods, e).value, events + [e];
    forall u | u in next ensures LastReport(all, op, u, next[u]) {
      if Mentions(e, op, u) {
        assert all[|events|] == e;
      } else {
        assert LastReport(events, op, u, pods[u]);
        var k :| 0 <= k < |events| && Mentions(events[k], op, u) && events[k].version == pods[u]
                 && forall m :: k < m < |events| ==> !Mentions(events[m], op, u);
        assert all[k] == events[k];
        assert forall m :: k < m < |all| ==> !Mentions(all[m], op, u);
      }
    }
  }

  // ---------------------------------------------------------------- invariant

  ghost predicate CertificateSound(c: Certificate) {
    && Uninterrupted(c.events, c.cluster.operation)
    && Reflects(c.reported, c.events, c.cluster.operation)
    && T.Assess(c.jobs, c.listed, c.cluster.operation, c.cluster.uid, c.reported) == T.Certified(c.job, c.pods)
  }

  /** The certificate belongs to the record's own observer and to its contents. */
  ghost predicate Backs(c: Certificate, r: Record) {
    c.pid == r.observer && OperationFrom(r, c.cluster) && c.job == r.job && c.pods == r.pods
  }

  ghost predicate Backed(certificates: set<Certificate>, r: Record) {
    exists c :: c in certificates && Backs(c, r)
  }

  ghost predicate ReleaseCalled(log: seq<LifetimeCall>) {
    exists k :: 0 <= k < |log| && log[k].Released?
  }

  ghost predicate Born(r: Record, author: Pid) {
    r.phase == Active && r.observer == author && r.job == "" && r.pods == [] && !r.released
  }

  /** The only ways the durable record ever changes. */
  ghost predicate Move(a: Record, b: Record, author: Pid) {
    || (a.phase == Active && author == a.observer && b == a.(warnedAt := b.warnedAt)
        && (a.warnedAt == 0 || b.warnedAt >= a.warnedAt + 300))
    || (a.phase == Active && b == a.(phase := Uncertain))
    || (a.phase == Active && author == a.observer && b == a.(phase := Completed, job := b.job, pods := b.pods))
    || (a.phase == Completed && !a.released && b == a.(released := true))
  }

  ghost predicate Evidenced(s: State, r: Record) {
    && (r.phase == Completed ==> Backed(s.certificates, r))
    && (r.released ==> ReleaseCalled(s.log))
  }

  ghost predicate At(s: State, version: nat, r: Record) {
    1 <= version <= |s.history| && s.history[version - 1] == r
  }

  ghost predicate Lawful(s: State, w: Write) {
    && Evidenced(s, w.record)
    && match w
       case Create(r, author) => Born(r, author)
       case Update(base, r, author) => 1 <= base <= |s.history| && Move(s.history[base - 1], r, author)
  }

  ghost predicate Landed(s: State, w: Write) {
    match w
    case Create(r, _) => s.history != [] && s.history[0] == r
    case Update(base, r, _) => base < |s.history| && s.history[base] == r
  }

  ghost predicate HistoryInv(s: State) {
    && |s.authors| == |s.history|
    && (s.history != [] ==> Born(s.history[0], s.authors[0]))
    && (forall k :: 0 < k < |s.history| ==> Move(s.history[k - 1], s.history[k], s.authors[k]))
    && (forall k :: 0 <= k < |s.history| ==> Evidenced(s, s.history[k]))
  }

  ghost predicate NetworkInv(s: State) {
    && (forall w :: w in s.sent ==> Lawful(s, w))
    && (forall w :: w in s.applied ==> w in s.sent && Landed(s, w))
  }

  /** The local fence: an active record of this process without a monitor entry means that
      no observer was ever started. */
  ghost predicate CallerSound(s: State, p: Pid, monitors: map<string, bool>, c: Caller) {
    match c
    case Idle => true
    case Creating(_, _, w) =>
      w in s.sent && w.Create? && w.author == p && (s.observers == [] || s.observers[0].pid != p)
    case Holding(cluster, _, version, r) =>
      && At(s, version, r)
      && (r.phase == Active && r.observer == p && OperationFrom(r, cluster) && cluster.operation !in monitors
          ==> s.observers == [])
  }

  ghost predicate ReconcilerSound(s: State, r: Reconciler) {
    r.Resuming? ==> At(s, r.version, r.record) && r.record.phase == Completed && !r.record.released
  }

  ghost predicate ProcessInv(s: State) {
    && s.processes.Keys <= s.used
    && (forall p :: p in s.processes ==> CallerSound(s, p, s.processes[p].monitors, s.processes[p].caller))
    && (forall p :: p in s.processes ==> ReconcilerSound(s, s.processes[p].reconciler))
  }

  ghost predicate Closed(s: State) {
    s.history != [] && s.history[|s.history| - 1].phase != Active
  }

  ghost predicate StageSound(s: State, o: Observer) {
    match o.stage
    case Watching(events, pods) =>
      Uninterrupted(events, o.cluster.operation) && Reflects(pods, events, o.cluster.operation)
    case Certifying(c) => c in s.certificates && c.pid == o.pid && c.cluster == o.cluster
    case Completing(w) => w in s.sent && w.Update? && w.record.phase == Completed
    case Poisoning => true
    case Closing(w) => w in s.sent && w.Update? && w.record.phase == Uncertain
    case Releasing => Closed(s)
    case ReleaseReady(version, r) => Closed(s) && At(s, version, r) && r.phase == Completed && !r.released
    case ReleaseWriting(w) => Closed(s)
    case Leaving(closed) => closed ==> Closed(s)
    case Gone(closed) => closed ==> Closed(s)
  }

  /** The monitor entry outlives the observer unless the record is durably closed. */
  ghost predicate Fenced(monitors: map<string, bool>, o: Observer) {
    match o.stage
    case Gone(closed) => closed || (o.cluster.operation in monitors && monitors[o.cluster.operation])
    case _ => o.cluster.operation in monitors
  }

  ghost predicate ObserverSound(s: State, o: Observer) {
    && o.pid in s.used
    && s.history != [] && s.history[0].observer == o.pid && OperationFrom(s.history[0], o.cluster)
    && StageSound(s, o)
    && (o.pid in s.processes ==> Fenced(s.processes[o.pid].monitors, o))
  }

  ghost predicate ObserverInv(s: State) {
    |s.observers| <= 1 && forall i :: 0 <= i < |s.observers| ==> ObserverSound(s, s.observers[i])
  }

  /** At the call the durable record was a completed one backed by a certificate. */
  ghost predicate CompletedCall(s: State, call: LifetimeCall)
    requires call.Released?
  {
    && call.durable.Some? && call.durable.value in s.history
    && call.durable.value.phase == Completed
    && Backed(s.certificates, call.durable.value)
  }

  ghost predicate LogInv(s: State) {
    forall k :: 0 <= k < |s.log| && s.log[k].Released? ==>
      CompletedCall(s, s.log[k])
  }

  ghost predicate Inv(s: State) {
    && HistoryInv(s) && NetworkInv(s) && ProcessInv(s) && ObserverInv(s) && LogInv(s)
    && forall c :: c in s.certificates ==> CertificateSound(c)
  }

  // ---------------------------------------------------------------- consequences of the history chain

  /** All versions describe the same operation, and a closed record stays closed. */
  lemma {:induction false} HistoryStable(s: State, k: nat, m: nat)
    requires HistoryInv(s) && k <= m < |s.history|
    ensures s.history[m].placement == s.history[k].placement
    ensures s.history[m].targets == s.history[k].targets
    ensures s.history[m].observer == s.history[k].observer
    ensures s.history[k].phase != Active ==> s.history[m].phase == s.history[k].phase
    decreases m - k
  {
    if k < m {
      HistoryStable(s, k, m - 1);
      assert Move(s.history[m - 1], s.history[m], s.authors[m]);
    }
  }

  lemma ClosedByRecord(s: State, k: nat)
    requires HistoryInv(s) && k < |s.history| && s.history[k].phase != Active
    ensures Closed(s)
  {
    HistoryStable(s, k, |s.history| - 1);
  }

  // ---------------------------------------------------------------- frame lemmas

  /** Same record, processes and observers; more writes, certificates and calls. */
  ghost predicate Grown(s: State, t: State) {
    && t.history == s.history && t.authors == s.authors && t.applied == s.applied
    && t.processes == s.processes && t.used == s.used && t.observers == s.observers
    && s.sent <= t.sent && s.certificates <= t.certificates && s.log <= t.log
  }

  lemma EvidenceGrows(s: State, t: State, r: Record)
    requires Grown(s, t) && Evidenced(s, r)
    ensures Evidenced(t, r)
  {
    if r.phase == Completed {
      var c :| c in s.certificates && Backs(c, r);
      assert c in t.certificates;
    }
    if r.released {
      var k :| 0 <= k < |s.log| && s.log[k].Released?;
      assert t.log[k] == s.log[k];
    }
  }

  lemma GrownRecords(s: State, t: State)
    requires Inv(s) && Grown(s, t)
    requires forall w :: w in t.sent && w !in s.sent ==> Lawful(t, w)
    ensures HistoryInv(t) && NetworkInv(t)
  {
    forall k | 0 <= k < |t.history| ensures Evidenced(t, t.history[k]) {
      EvidenceGrows(s, t, s.history[k]);
    }
    forall w | w in t.sent ensures Lawful(t, w) {
      if w in s.sent {
        assert Lawful(s, w);
        EvidenceGrows(s, t, w.record);
      }
    }
    forall w | w in t.applied ensures w in t.sent && Landed(t, w) {
      assert Landed(s, w);
    }
  }

  lemma GrownActors(s: State, t: State)
    requires Inv(s) && Grown(s, t)
    ensures ProcessInv(t) && ObserverInv(t)
  {
    forall p | p in t.processes
      ensures CallerSound(t, p, t.processes[p].monitors, t.processes[p].caller) && ReconcilerSound(t, t.processes[p].reconciler)
    {
      assert CallerSound(s, p, s.processes[p].monitors, s.processes[p].caller);
      assert ReconcilerSound(s, s.processes[p].reconciler);
    }
    forall i | 0 <= i < |t.observers| ensures ObserverSound(t, t.observers[i]) {
      assert ObserverSound(s, s.observers[i]);
      assert StageSound(t, t.observers[i]);
    }
  }

  lemma SendKeeps(s: State, w: Write)
    requires Inv(s) && Lawful(s, w)
    ensures Inv(Send(s, w))
  {
    GrownRecords(s, Send(s, w));
    GrownActors(s, Send(s, w));
  }

  /** Only processes and observers differ. */
  ghost predicate SameRecords(s: State, t: State) {
    && t.history == s.history && t.authors == s.authors && t.sent == s.sent && t.applied == s.applied
    && t.certificates == s.certificates && t.log == s.log
  }

  lemma RecordsKept(s: State, t: State)
    requires HistoryInv(s) && NetworkInv(s) && LogInv(s) && SameRecords(s, t)
    ensures HistoryInv(t) && NetworkInv(t) && LogInv(t)
  {
    forall k | 0 <= k < |t.log| && t.log[k].Released? ensures CompletedCall(t, t.log[k]) {
      assert CompletedCall(s, s.log[k]);
    }
    assert forall r :: Evidenced(t, r) <==> Evidenced(s, r);
    forall w | w in t.sent ensures Lawful(t, w) {
      assert Lawful(s, w);
    }
    forall w | w in t.applied ensures w in t.sent && Landed(t, w) {
      assert Landed(s, w);
    }
  }

  ghost predicate SamePids(a: seq<Observer>, b: seq<Observer>) {
    |a| == |b| && forall k :: 0 <= k < |a| ==> a[k].pid == b[k].pid
  }

  /** Callers look only at whose observers there are, not at their stages. */
  lemma ProcessesKept(s: State, t: State)
    requires ProcessInv(s) && SameRecords(s, t) && t.processes == s.processes && t.used == s.used && SamePids(s.observers, t.observers)
    ensures ProcessInv(t)
  {
    forall p | p in t.processes ensures CallerSound(t, p, t.processes[p].monitors, t.processes[p].caller) {
      assert CallerSound(s, p, s.processes[p].monitors, s.processes[p].caller);
    }
    forall p | p in t.processes ensures ReconcilerSound(t, t.processes[p].reconciler) {
      assert ReconcilerSound(s, s.processes[p].reconciler);
    }
  }

  lemma StageObservers(s: State, i: nat, stage: Stage)
    requires ObserverInv(s) && i < |s.observers|
    requires var o := s.observers[i].(stage := stage);
             StageSound(s, o) && (o.pid in s.processes ==> Fenced(s.processes[o.pid].monitors, o))
    ensures ObserverInv(SetStage(s, i, stage))
  {
    var t := SetStage(s, i, stage);
    assert ObserverSound(s, s.observers[i]) && i == 0 && |t.observers| == 1;
    assert StageSound(t, t.observers[0]);
  }

  lemma StageKeeps(s: State, i: nat, stage: Stage)
    requires Inv(s) && i < |s.observers|
    requires var o := s.observers[i].(stage := stage);
             StageSound(s, o) && (o.pid in s.processes ==> Fenced(s.processes[o.pid].monitors, o))
    ensures Inv(SetStage(s, i, stage))
  {
    var t := SetStage(s, i, stage);
    RecordsKept(s, t);
    StageObservers(s, i, stage);
    ProcessesKept(s, t);
  }

  /** A stage change that keeps the observer inside its loop keeps the fence. */
  lemma StageMoves(s: State, i: nat, stage: Stage)
    requires Inv(s) && ObserverAt(s, i) && !s.observers[i].stage.Gone? && !stage.Gone?
    requires StageSound(s, s.observers[i].(stage := stage))
    ensures Inv(SetStage(s, i, stage))
  {
    assert ObserverSound(s, s.observers[i]);
    StageKeeps(s, i, stage);
  }

  lemma ObserversKept(s: State, t: State)
    requires ObserverInv(s) && SameRecords(s, t) && t.observers == s.observers && s.used <= t.used
    requires forall p :: p in t.processes && p in s.used ==>
               p in s.processes && t.processes[p].monitors == s.processes[p].monitors
    ensures ObserverInv(t)
  {
    forall k | 0 <= k < |t.observers| ensures ObserverSound(t, t.observers[k]) {
      assert ObserverSound(s, s.observers[k]);
      assert StageSound(t, s.observers[k]);
    }
  }

  /** Unchanged callers and reconcilers stay sound when the record and observers do. */
  lemma ActorKept(s: State, t: State, q: Pid)
    requires ProcessInv(s) && SameRecords(s, t) && t.observers == s.observers && q in s.processes && q in t.processes
    requires t.processes[q].monitors == s.processes[q].monitors
    ensures t.processes[q].caller == s.processes[q].caller ==>
              CallerSound(t, q, t.processes[q].monitors, t.processes[q].caller)
    ensures t.processes[q].reconciler == s.processes[q].reconciler ==> ReconcilerSound(t, t.processes[q].reconciler)
  {
    assert CallerSound(s, q, s.processes[q].monitors, s.processes[q].caller);
    assert ReconcilerSound(s, s.processes[q].reconciler);
  }

  lemma CallerKeeps(s: State, p: Pid, c: Caller)
    requires Inv(s) && p in s.processes && CallerSound(s, p, s.processes[p].monitors, c)
    ensures Inv(SetCaller(s, p, c))
  {
    var t := SetCaller(s, p, c);
    assert t.processes.Keys == s.processes.Keys;
    RecordsKept(s, t);
    ObserversKept(s, t);
    forall q | q in t.processes
      ensures CallerSound(t, q, t.processes[q].monitors, t.processes[q].caller) && ReconcilerSound(t, t.processes[q].reconciler)
    {
      ActorKept(s, t, q);
    }
  }

  lemma ReconcilerKeeps(s: State, p: Pid, r: Reconciler)
    requires Inv(s) && p in s.processes && ReconcilerSound(s, r)
    ensures Inv(SetReconciler(s, p, r))
  {
    var t := SetReconciler(s, p, r);
    assert t.processes.Keys == s.processes.Keys;
    RecordsKept(s, t);
    ReconcilerObservers(s, p, r);
    ReconcilerActors(s, p, r);
  }

  lemma ReconcilerObservers(s: State, p: Pid, r: Reconciler)
    requires ObserverInv(s) && p in s.processes
    ensures ObserverInv(SetReconciler(s, p, r))
  {
    ObserversKept(s, SetReconciler(s, p, r));
  }

  lemma ReconcilerActors(s: State, p: Pid, r: Reconciler)
    requires ProcessInv(s) && p in s.processes && ReconcilerSound(s, r)
    ensures ProcessInv(SetReconciler(s, p, r))
  {
    var t := SetReconciler(s, p, r);
    assert t.processes.Keys == s.processes.Keys;
    forall q | q in t.processes
      ensures CallerSound(t, q, t.processes[q].monitors, t.processes[q].caller) && ReconcilerSound(t, t.processes[q].reconciler)
    {
      ActorKept(s, t, q);
    }
  }

  lemma LogKeeps(s: State, call: LifetimeCall)
    requires Inv(s)
    requires call.Released? ==> CompletedCall(s, call)
    ensures Inv(s.(log := s.log + [call]))
  {
    var t := s.(log := s.log + [call]);
    GrownRecords(s, t);
    GrownActors(s, t);
  }

  lemma CertificateKeeps(s: State, c: Certificate)
    requires Inv(s) && CertificateSound(c)
    ensures Inv(s.(certificates := s.certificates + {c}))
  {
    var t := s.(certificates := s.certificates + {c});
    GrownRecords(s, t);
    GrownActors(s, t);
    forall k | 0 <= k < |t.log| && t.log[k].Released? ensures CompletedCall(t, t.log[k]) {
      assert CompletedCall(s, s.log[k]);
      var x :| x in s.certificates && Backs(x, s.log[k].durable.value);
      assert x in t.certificates;
    }
  }

  // ---------------------------------------------------------------- steps that change shared state

  lemma DeliverHistory(s: State, w: Write)
    requires Inv(s) && Deliverable(s, w)
    ensures HistoryInv(Delivered(s, w))
    ensures NetworkInv(Delivered(s, w))
  {
    var t := Delivered(s, w);
    assert Lawful(s, w);
    forall x | x in s.sent ensures Lawful(t, x) {
      assert Lawful(s, x);
      assert Evidenced(t, x.record);
    }
    forall x | x in t.applied ensures x in t.sent && Landed(t, x) {
      assert x in s.applied ==> Landed(s, x);
    }
    forall k | 0 <= k < |t.history| ensures Evidenced(t, t.history[k]) {
      assert k < |s.history| ==> Evidenced(s, s.history[k]);
    }
    forall k | 0 < k < |t.history| ensures Move(t.history[k - 1], t.history[k], t.authors[k]) {
      assert k < |s.history| ==> Move(s.history[k - 1], s.history[k], s.authors[k]);
    }
  }

  lemma ClosedKept(s: State, w: Write)
    requires Inv(s) && Deliverable(s, w) && Closed(s)
    ensures Closed(Delivered(s, w))
  {
    var t := Delivered(s, w);
    DeliverHistory(s, w);
    var k := |s.history| - 1;
    assert t.history[k] == s.history[k];
    ClosedByRecord(t, k);
  }

  lemma DeliverKeeps(s: State, w: Write)
    requires Inv(s) && Deliverable(s, w)
    ensures Inv(Delivered(s, w))
  {
    var t := Delivered(s, w);
    DeliverHistory(s, w);
    assert forall v: nat, r :: At(s, v, r) ==> At(t, v, r);
    forall i | 0 <= i < |t.observers| ensures ObserverSound(t, t.observers[i]) {
      assert ObserverSound(s, s.observers[i]);
      if Closed(s) {
        ClosedKept(s, w);
      }
      assert StageSound(t, s.observers[i]);
    }
    forall p | p in t.processes ensures CallerSound(t, p, t.processes[p].monitors, t.processes[p].caller) {
      assert CallerSound(s, p, s.processes[p].monitors, s.processes[p].caller);
    }
    forall p | p in t.processes ensures ReconcilerSound(t, t.processes[p].reconciler) {
      assert ReconcilerSound(s, s.processes[p].reconciler);
    }
  }

  lemma StartKeeps(s: State, p: Pid)
    requires Inv(s) && p !in s.used
    ensures Inv(Started(s, p))
  {
    var t := Started(s, p);
    forall q | q in t.processes
      ensures CallerSound(t, q, t.processes[q].monitors, t.processes[q].caller) && ReconcilerSound(t, t.processes[q].reconciler)
    {
      if q != p {
        assert CallerSound(s, q, s.processes[q].monitors, s.processes[q].caller);
      }
    }
    RecordsKept(s, t);
    ObserversKept(s, t);
  }

  lemma CrashKeeps(s: State, p: Pid)
    requires Inv(s) && p in s.processes
    ensures Inv(s.(processes := s.processes - {p}))
  {
    var t := s.(processes := s.processes - {p});
    forall q | q in t.processes
      ensures CallerSound(t, q, t.processes[q].monitors, t.processes[q].caller) && ReconcilerSound(t, t.processes[q].reconciler)
    {
      assert CallerSound(s, q, s.processes[q].monitors, s.processes[q].caller);
    }
    RecordsKept(s, t);
    ObserversKept(s, t);
  }

  /** Starting an observer: the fence shows that it is the first one. */
  lemma ObserveKeeps(s: State, p: Pid)
    requires Inv(s) && MayObserve(s, p)
    ensures Inv(AfterObserve(s, p))
  {
    var k := s.processes[p].caller;
    assert CallerSound(s, p, s.processes[p].monitors, k);
    assert s.observers == [];
    HistoryStable(s, 0, k.version - 1);
    var call := Established(p, k.cluster.operation);
    LogKeeps(s, call);
    ObserveObserver(s, p);
    ObserveActors(s, p);
    RecordsKept(s.(log := s.log + [call]), AfterObserve(s, p));
  }

  lemma ObserveObserver(s: State, p: Pid)
    requires ProcessInv(s) && MayObserve(s, p) && s.observers == []
    requires s.history != [] && s.history[0].observer == p && OperationFrom(s.history[0], s.processes[p].caller.cluster)
    ensures ObserverInv(AfterObserve(s, p))
  {
    var t := AfterObserve(s, p);
    var o := Observer(p, s.processes[p].caller.cluster, Watching([], map[]));
    assert t.observers == [o];
    assert StageSound(t, o);
    assert ObserverSound(t, o);
  }

  lemma ObserveActors(s: State, p: Pid)
    requires Inv(s) && MayObserve(s, p) && s.observers == [] && s.history != [] && s.history[0].observer == p
    ensures ProcessInv(AfterObserve(s, p))
  {
    var t := AfterObserve(s, p);
    forall q | q in t.processes
      ensures CallerSound(t, q, t.processes[q].monitors, t.processes[q].caller) && ReconcilerSound(t, t.processes[q].reconciler)
    {
      assert CallerSound(s, q, s.processes[q].monitors, s.processes[q].caller);
      assert ReconcilerSound(s, s.processes[q].reconciler);
      if q != p && s.processes[q].caller.Holding? {
        HistoryStable(s, 0, s.processes[q].caller.version - 1);
      }
    }
  }

  /** The monitor is dropped only once the record is durably closed; the mutex keeps every
      ensureRecovery call of the process out meanwhile. */
  lemma LeaveKeeps(s: State, i: nat)
    requires Inv(s) && ObserverAt(s, i) && s.observers[i].stage.Leaving? && s.processes[s.observers[i].pid].caller.Idle?
    ensures Inv(AfterLeave(s, i))
  {
    var t := AfterLeave(s, i);
    RecordsKept(s, t);
    LeaveObservers(s, i);
    LeaveActors(s, i);
  }

  lemma LeaveObservers(s: State, i: nat)
    requires Inv(s) && ObserverAt(s, i) && s.observers[i].stage.Leaving? && s.processes[s.observers[i].pid].caller.Idle?
    ensures ObserverInv(AfterLeave(s, i))
  {
    var t := AfterLeave(s, i);
    assert ObserverSound(s, s.observers[i]);
    assert |t.observers| == 1 && i == 0;
    assert StageSound(t, t.observers[0]);
  }

  lemma LeaveActors(s: State, i: nat)
    requires ProcessInv(s) && ObserverAt(s, i) && s.observers[i].stage.Leaving? && s.processes[s.observers[i].pid].caller.Idle?
    ensures ProcessInv(AfterLeave(s, i))
  {
    var t := AfterLeave(s, i);
    assert t.processes.Keys == s.processes.Keys;
    forall q | q in t.processes ensures CallerSound(t, q, t.processes[q].monitors, t.processes[q].caller) {
      assert CallerSound(s, q, s.processes[q].monitors, s.processes[q].caller);
    }
    forall q | q in t.processes ensures ReconcilerSound(t, t.processes[q].reconciler) {
      assert ReconcilerSound(s, s.processes[q].reconciler);
    }
  }

  // ---------------------------------------------------------------- ensureRecovery

  /** Reading under the mutex: whatever is read now satisfies the fence. */
  lemma ReadKeeps(s: State, p: Pid, c: Cluster, want: Wanted)
    requires Inv(s) && p in s.processes && s.history != []
    ensures Inv(SetCaller(s, p, Holding(c, want, |s.history|, Durable(s).value)))
  {
    var r := Durable(s).value;
    HistoryStable(s, 0, |s.history| - 1);
    if r.phase == Active && r.observer == p && OperationFrom(r, c) && s.observers != [] {
      assert ObserverSound(s, s.observers[0]);
    }
    CallerKeeps(s, p, Holding(c, want, |s.history|, r));
  }

  /** The reply of an accepted Create shows version 1, which may already be outdated. */
  lemma CreatedKeeps(s: State, p: Pid)
    requires Inv(s) && CallerEnabled(s, EnsureCreated(p))
    ensures Inv(CallerApply(s, EnsureCreated(p)))
  {
    var k := s.processes[p].caller;
    assert CallerSound(s, p, s.processes[p].monitors, k);
    assert Landed(s, k.write);
    assert Lawful(s, k.write);
    assert |s.observers| > 0 ==> ObserverSound(s, s.observers[0]);
    CallerKeeps(s, p, Holding(k.cluster, k.wanted, 1, k.write.record));
  }

  lemma EnsureReadKeeps(s: State, step: CallerStep)
    requires Inv(s) && CallerEnabled(s, step) && (step.EnsureRead? || step.EnsureAlreadyExists?)
    ensures Inv(CallerApply(s, step))
  {
    if step.EnsureRead? {
      ReadKeeps(s, step.pid, step.cluster, step.wanted);
    } else {
      var k := s.processes[step.pid].caller;
      ReadKeeps(s, step.pid, k.cluster, k.wanted);
    }
  }

  lemma EnsureCreateKeeps(s: State, p: Pid, c: Cluster, want: Wanted)
    requires Inv(s) && CallerEnabled(s, EnsureCreate(p, c, want))
    ensures Inv(CallerApply(s, EnsureCreate(p, c, want)))
  {
    var w := Create(FreshRecord(want, p), p);
    assert |s.observers| > 0 ==> ObserverSound(s, s.observers[0]);
    SendKeeps(s, w);
    CallerKeeps(Send(s, w), p, Creating(c, want, w));
  }

  /** A caller may write back the version it read, changed by a lawful move. */
  lemma CallerWriteKeeps(s: State, p: Pid, r: Record)
    requires Inv(s) && CallerAt(s, p)
    requires s.processes[p].caller.record.phase == Active && r.phase != Completed && !r.released
    requires Move(s.processes[p].caller.record, r, p)
    ensures Inv(SetCaller(Send(s, Update(s.processes[p].caller.version, r, p)), p, Idle))
  {
    var k := s.processes[p].caller;
    assert CallerSound(s, p, s.processes[p].monitors, k);
    var w := Update(k.version, r, p);
    SendKeeps(s, w);
    CallerKeeps(Send(s, w), p, Idle);
  }

  lemma CallerRecordEvidenced(s: State, p: Pid)
    requires Inv(s) && CallerAt(s, p)
    ensures Evidenced(s, s.processes[p].caller.record)
    ensures s.processes[p].caller.record.phase == Active ==> !s.processes[p].caller.record.released
  {
    var k := s.processes[p].caller;
    assert CallerSound(s, p, s.processes[p].monitors, k);
    ActiveUnreleased(s, k.version - 1);
  }

  lemma {:induction false} ActiveUnreleased(s: State, k: nat)
    requires HistoryInv(s) && k < |s.history|
    ensures s.history[k].released ==> s.history[k].phase == Completed
  {
    if k > 0 {
      ActiveUnreleased(s, k - 1);
      assert Move(s.history[k - 1], s.history[k], s.authors[k]);
    }
  }

  lemma EnsureWriteKeeps(s: State, step: CallerStep)
    requires Inv(s) && CallerEnabled(s, step) && (step.EnsurePoison? || step.EnsureWarn?)
    ensures Inv(CallerApply(s, step))
  {
    var p := step.pid;
    var r := s.processes[p].caller.record;
    CallerRecordEvidenced(s, p);
    if step.EnsurePoison? {
      CallerWriteKeeps(s, p, r.(phase := Uncertain));
    } else {
      CallerWriteKeeps(s, p, r.(warnedAt := step.now));
    }
  }

  lemma EnsureDoneKeeps(s: State, step: CallerStep)
    requires Inv(s) && CallerEnabled(s, step) && (step.EnsureRefuse? || step.EnsureAgain?)
    ensures Inv(CallerApply(s, step))
  {
    var p := step.pid;
    if step.EnsureRefuse? {
      CallerKeeps(s, p, Idle);
    } else {
      var call := Established(p, s.processes[p].caller.cluster.operation);
      LogKeeps(s, call);
      CallerKeeps(s.(log := s.log + [call]), p, Idle);
    }
  }

  // ---------------------------------------------------------------- observeRecovery

  lemma WatchKeeps(s: State, i: nat, e: Event)
    requires Inv(s) && WatchEnabled(s, Watch(i, e))
    ensures Inv(WatchApply(s, Watch(i, e)))
  {
    var o := s.observers[i];
    assert ObserverSound(s, o);
    var next := Absorb(o.cluster.operation, o.stage.pods, e);
    if next.None? {
      StageMoves(s, i, Poisoning);
    } else {
      ReflectsStep(o.stage.pods, o.stage.events, o.cluster.operation, e);
      StageMoves(s, i, Watching(o.stage.events + [e], next.value));
    }
  }

  lemma CheckKeeps(s: State, i: nat, jobs: seq<T.Job>, listed: seq<T.Pod>)
    requires Inv(s) && ObserverAt(s, i) && s.observers[i].stage.Watching?
    ensures Inv(AfterCheck(s, i, jobs, listed))
  {
    var o := s.observers[i];
    assert ObserverSound(s, o);
    var v := T.Assess(jobs, listed, o.cluster.operation, o.cluster.uid, o.stage.pods);
    match v {
      case Refused => StageMoves(s, i, Poisoning);
      case Waiting =>
      case Certified(job, pods) =>
        var cert := Certificate(o.pid, o.cluster, o.stage.events, o.stage.pods, jobs, listed, job, pods);
        CertificateKeeps(s, cert);
        var t := s.(certificates := s.certificates + {cert});
        StageMoves(t, i, Certifying(cert));
        assert AfterCheck(s, i, jobs, listed) == SetStage(t, i, Certifying(cert));
    }
  }

  lemma CompletionLawful(s: State, o: Observer)
    requires HistoryInv(s) && s.history != [] && o.stage.Certifying? && ObserverSound(s, o)
    requires var got := Durable(s).value; OperationFrom(got, o.cluster) && got.phase == Active && got.observer == o.pid
    ensures var cert := o.stage.certificate;
            Lawful(s, Update(|s.history|, Durable(s).value.(phase := Completed, job := cert.job, pods := cert.pods), o.pid))
  {
    var got, cert := Durable(s).value, o.stage.certificate;
    assert Evidenced(s, got);
    assert Backs(cert, got.(phase := Completed, job := cert.job, pods := cert.pods));
  }

  /** Only the creating process completes the record, and only with its own certificate. */
  lemma CompleteKeeps(s: State, i: nat)
    requires Inv(s) && ObserverAt(s, i) && s.observers[i].stage.Certifying? && s.history != []
    ensures Inv(AfterComplete(s, i))
  {
    var o := s.observers[i];
    assert ObserverSound(s, o);
    var got := Durable(s).value;
    if OperationFrom(got, o.cluster) && got.phase == Active && got.observer == o.pid {
      var cert := o.stage.certificate;
      var w := Update(|s.history|, got.(phase := Completed, job := cert.job, pods := cert.pods), o.pid);
      CompletionLawful(s, o);
      SendKeeps(s, w);
      StageMoves(Send(s, w), i, Completing(w));
    } else {
      StageMoves(s, i, Poisoning);
    }
  }

  lemma PoisonReadKeeps(s: State, i: nat)
    requires Inv(s) && ObserverAt(s, i) && s.observers[i].stage.Poisoning? && s.history != []
    ensures Inv(AfterPoisonRead(s, i))
  {
    var o := s.observers[i];
    assert ObserverSound(s, o);
    var got := Durable(s).value;
    if !OperationFrom(got, o.cluster) || got.observer != o.pid {
      StageMoves(s, i, Leaving(false));
    } else if got.phase != Active {
      StageMoves(s, i, Leaving(true));
    } else {
      var w := Update(|s.history|, got.(phase := Uncertain), o.pid);
      assert Evidenced(s, got);
      SendKeeps(s, w);
      StageMoves(Send(s, w), i, Closing(w));
    }
  }

  /** An acknowledged write has landed, so the record is closed from then on. */
  lemma AcknowledgedCloses(s: State, w: Write)
    requires Inv(s) && w in s.applied && w.Update? && w.record.phase != Active
    ensures Closed(s)
  {
    assert Landed(s, w);
    ClosedByRecord(s, w.base);
  }

  lemma ReleaseReadKeeps(s: State, i: nat)
    requires Inv(s) && ObserverAt(s, i) && s.observers[i].stage.Releasing? && s.history != []
    ensures Inv(AfterReleaseRead(s, i))
  {
    var o := s.observers[i];
    assert ObserverSound(s, o);
    var got := Durable(s).value;
    if OperationFrom(got, o.cluster) && Releasable(got) {
      StageMoves(s, i, ReleaseReady(|s.history|, got));
    } else {
      StageMoves(s, i, Leaving(true));
    }
  }

  /** Whoever holds a version read as completed still finds the record completed. */
  lemma StillCompleted(s: State, version: nat, r: Record)
    requires HistoryInv(s) && At(s, version, r) && r.phase == Completed
    ensures Durable(s).Some? && Durable(s).value.phase == Completed && Durable(s).value in s.history
    ensures Backed(s.certificates, Durable(s).value)
  {
    HistoryStable(s, version - 1, |s.history| - 1);
    assert Evidenced(s, s.history[|s.history| - 1]);
  }

  lemma ReleasedWriteLawful(s: State, version: nat, r: Record, p: Pid)
    requires HistoryInv(s) && At(s, version, r) && r.phase == Completed && !r.released && ReleaseCalled(s.log)
    ensures Lawful(s, Update(version, r.(released := true), p))
  {
    assert Evidenced(s, s.history[version - 1]);
    var c :| c in s.certificates && Backs(c, r);
    assert Backs(c, r.(released := true));
  }

  lemma ReleaseCallKeeps(s: State, i: nat, ok: bool)
    requires Inv(s) && ObserverAt(s, i) && s.observers[i].stage.ReleaseReady?
    ensures Inv(AfterReleaseCall(s, i, ok))
  {
    var o := s.observers[i];
    assert ObserverSound(s, o);
    StillCompleted(s, o.stage.version, o.stage.record);
    var call := Released(o.pid, o.cluster.operation, Durable(s));
    LogKeeps(s, call);
    var t := s.(log := s.log + [call]);
    assert t.log[|s.log|] == call;
    if ok {
      var w := Update(o.stage.version, o.stage.record.(released := true), o.pid);
      ReleasedWriteLawful(t, o.stage.version, o.stage.record, o.pid);
      SendKeeps(t, w);
      StageMoves(Send(t, w), i, ReleaseWriting(w));
    } else {
      StageMoves(t, i, Releasing);
    }
  }

  /** Any stage may be left for one that promises nothing. */
  lemma RetreatKeeps(s: State, step: WatchStep)
    requires Inv(s) && WatchEnabled(s, step) && (step.GiveUp? || step.PoisonUnread? || step.PoisonUnacknowledged?)
    ensures Inv(WatchApply(s, step))
  {
    if step.GiveUp? {
      StageMoves(s, step.i, Poisoning);
    } else {
      StageMoves(s, step.i, Leaving(false));
    }
  }

  lemma AcknowledgedKeeps(s: State, step: WatchStep)
    requires Inv(s) && WatchEnabled(s, step) && (step.CompleteAcknowledged? || step.PoisonAcknowledged?)
    ensures Inv(WatchApply(s, step))
  {
    var o := s.observers[step.i];
    assert ObserverSound(s, o);
    AcknowledgedCloses(s, o.stage.write);
    StageMoves(s, step.i, if step.CompleteAcknowledged? then Releasing else Leaving(true));
  }

  lemma ReleaseDoneKeeps(s: State, step: ReleaseStep)
    requires Inv(s) && ReleaseEnabled(s, step)
    requires step.ReleaseStop? || step.ReleaseAcknowledged? || step.ReleaseUnacknowledged?
    ensures Inv(ReleaseApply(s, step))
  {
    assert ObserverSound(s, s.observers[step.i]);
    StageMoves(s, step.i, if step.ReleaseUnacknowledged? then Releasing else Leaving(true));
  }

  // ---------------------------------------------------------------- reconcileRecoveryOperation

  lemma ReconcileKeeps(s: State, p: Pid, c: Cluster)
    requires Inv(s) && p in s.processes && s.history != []
    ensures Inv(AfterReconcile(s, p, c))
  {
    var got := Durable(s).value;
    assert Evidenced(s, got);
    if OperationFrom(got, c) {
      if got.phase == Active && got.observer != p {
        SendKeeps(s, Update(|s.history|, got.(phase := Uncertain), p));
      } else if Releasable(got) {
        ReconcilerKeeps(s, p, Resuming(c, |s.history|, got));
      }
    }
  }

  lemma ReconcileCallKeeps(s: State, p: Pid, ok: bool)
    requires Inv(s) && p in s.processes && s.processes[p].reconciler.Resuming?
    ensures Inv(AfterReconcileCall(s, p, ok))
  {
    var r := s.processes[p].reconciler;
    assert ReconcilerSound(s, r);
    StillCompleted(s, r.version, r.record);
    var call := Released(p, r.cluster.operation, Durable(s));
    LogKeeps(s, call);
    var t := s.(log := s.log + [call]);
    assert t.log[|s.log|] == call;
    ReconcilerKeeps(t, p, Resting);
    var u := SetReconciler(t, p, Resting);
    if ok {
      ReleasedWriteLawful(u, r.version, r.record, p);
      SendKeeps(u, Update(r.version, r.record.(released := true), p));
    }
  }

  // ---------------------------------------------------------------- every run

  lemma CallerStepKeeps(s: State, step: CallerStep)
    requires Inv(s) && CallerEnabled(s, step)
    ensures Inv(CallerApply(s, step))
  {
    match step {
      case EnsureCreate(p, c, want) => EnsureCreateKeeps(s, p, c, want);
      case EnsureCreated(p) => CreatedKeeps(s, p);
      case EnsureObserve(p) => ObserveKeeps(s, p);
      case EnsurePoison(_) => EnsureWriteKeeps(s, step);
      case EnsureWarn(_, _) => EnsureWriteKeeps(s, step);
      case EnsureRefuse(_) => EnsureDoneKeeps(s, step);
      case EnsureAgain(_) => EnsureDoneKeeps(s, step);
      case _ => EnsureReadKeeps(s, step);
    }
  }

  lemma ManagerStepKeeps(s: State, step: ManagerStep)
    requires Inv(s) && ManagerEnabled(s, step)
    ensures Inv(ManagerApply(s, step))
  {
    match step {
      case StartProcess(p) => StartKeeps(s, p);
      case CrashProcess(p) => CrashKeeps(s, p);
      case Deliver(w) => DeliverKeeps(s, w);
      case Reconcile(p, c) => ReconcileKeeps(s, p, c);
      case ReconcileStop(p) => ReconcilerKeeps(s, p, Resting);
      case ReconcileCall(p, ok) => ReconcileCallKeeps(s, p, ok);
    }
  }

  lemma WatchStepKeeps(s: State, step: WatchStep)
    requires Inv(s) && WatchEnabled(s, step)
    ensures Inv(WatchApply(s, step))
  {
    match step {
      case Watch(i, e) => WatchKeeps(s, i, e);
      case Check(i, jobs, listed) => CheckKeeps(s, i, jobs, listed);
      case Complete(i) => CompleteKeeps(s, i);
      case PoisonRead(i) => PoisonReadKeeps(s, i);
      case Leave(i) => LeaveKeeps(s, i);
      case CompleteAcknowledged(_) => AcknowledgedKeeps(s, step);
      case PoisonAcknowledged(_) => AcknowledgedKeeps(s, step);
      case _ => RetreatKeeps(s, step);
    }
  }

  lemma ReleaseStepKeeps(s: State, step: ReleaseStep)
    requires Inv(s) && ReleaseEnabled(s, step)
    ensures Inv(ReleaseApply(s, step))
  {
    match step {
      case ReleaseRead(i) => ReleaseReadKeeps(s, i);
      case ReleaseCall(i, ok) => ReleaseCallKeeps(s, i, ok);
      case _ => ReleaseDoneKeeps(s, step);
    }
  }

  /** Every step keeps the invariant. */
  lemma NextKeeps(s: State, step: Step)
    requires Inv(s) && Enabled(s, step)
    ensures Inv(Apply(s, step))
  {
    match step {
      case Managing(m) => ManagerStepKeeps(s, m);
      case Calling(c) => CallerStepKeeps(s, c);
      case Observing(w) => WatchStepKeeps(s, w);
      case Freeing(r) => ReleaseStepKeeps(s, r);
    }
  }

  lemma {:induction false} RunKeeps(run: seq<State>, i: nat)
    requires IsRun(run) && i < |run|
    ensures Inv(run[i])
  {
    if i > 0 {
      RunKeeps(run, i - 1);
      assert Next(run[i - 1], run[i]);
      var step :| Enabled(run[i - 1], step) && run[i] == Apply(run[i - 1], step);
      NextKeeps(run[i - 1], step);
    }
  }

  /** The log and the history only grow, and a release entry records the durable record of
      its moment. */
  ghost predicate Recorded(s: State, t: State) {
    && s.history <= t.history && s.authors <= t.authors
    && (t.log == s.log
        || (|t.log| == |s.log| + 1 && t.log[..|s.log|] == s.log
            && (t.log[|s.log|].Released? ==> t.log[|s.log|].durable == Durable(s))))
  }

  lemma ManagerRecorded(s: State, step: ManagerStep)
    requires ManagerEnabled(s, step)
    ensures Recorded(s, ManagerApply(s, step))
  {
  }

  lemma CallerRecorded(s: State, step: CallerStep)
    requires CallerEnabled(s, step)
    ensures Recorded(s, CallerApply(s, step))
  {
  }

  lemma WatchRecorded(s: State, step: WatchStep)
    requires WatchEnabled(s, step)
    ensures Recorded(s, WatchApply(s, step))
  {
  }

  lemma ReleaseRecorded(s: State, step: ReleaseStep)
    requires ReleaseEnabled(s, step)
    ensures Recorded(s, ReleaseApply(s, step))
  {
  }

  lemma StepRecorded(s: State, step: Step)
    requires Enabled(s, step)
    ensures Recorded(s, Apply(s, step))
  {
    match step {
      case Managing(m) => ManagerRecorded(s, m);
      case Calling(c) => CallerRecorded(s, c);
      case Observing(w) => WatchRecorded(s, w);
      case Freeing(r) => ReleaseRecorded(s, r);
    }
  }

  lemma {:induction false} HistoryGrows(run: seq<State>, i: nat, j: nat)
    requires IsRun(run) && i <= j < |run|
    ensures run[i].history <= run[j].history && run[i].authors <= run[j].authors
    decreases j - i
  {
    if i < j {
      HistoryGrows(run, i, j - 1);
      assert Next(run[j - 1], run[j]);
      var step :| Enabled(run[j - 1], step) && run[j] == Apply(run[j - 1], step);
      StepRecorded(run[j - 1], step);
    }
  }

  ghost predicate CertifiedState(s: State) {
    && HistoryInv(s)
    && Durable(s).Some? && Durable(s).value.phase == Completed
    && exists c :: c in s.certificates && CertificateSound(c) && Backs(c, Durable(s).value) && c.pid == s.authors[0]
  }

  lemma CompletedIsCertified(s: State)
    requires HistoryInv(s) && (forall c :: c in s.certificates ==> CertificateSound(c))
    requires Durable(s).Some? && Durable(s).value.phase == Completed
    ensures CertifiedState(s)
  {
    var r := Durable(s).value;
    assert Evidenced(s, s.history[|s.history| - 1]);
    HistoryStable(s, 0, |s.history| - 1);
    var c :| c in s.certificates && Backs(c, r);
    assert CertificateSound(c);
  }

  /** MAIN: in every run the source lifetime is released only while the durable record is
      completed, and that record was created and completed by one process, from a
      certificate over an uninterrupted watch (see CertificateMeans). */
  lemma ReleaseOnlyAfterCertifiedCompletion(run: seq<State>, i: nat)
    requires IsRun(run) && i + 1 < |run| && |run[i].log| < |run[i + 1].log|
    requires run[i + 1].log[|run[i].log|].Released?
    ensures CertifiedState(run[i])
  {
    RunKeeps(run, i);
    RunKeeps(run, i + 1);
    assert Next(run[i], run[i + 1]);
    var step :| Enabled(run[i], step) && run[i + 1] == Apply(run[i], step);
    StepRecorded(run[i], step);
    assert CompletedCall(run[i + 1], run[i + 1].log[|run[i].log|]);
    CompletedIsCertified(run[i]);
  }

  /** What such a certificate means: when the listing repeats no UID, the recorded Pods are
      exactly the Pods the watch reported, each listed at its last reported version, owned
      by the one completed Job of the Cluster and terminal. */
  lemma CertificateMeans(c: Certificate)
    requires CertificateSound(c) && Distinct(T.Uids(T.PodsOf(c.listed, c.cluster.operation)))
    ensures forall u :: u in c.pods <==> exists k :: 0 <= k < |c.events| && Mentions(c.events[k], c.cluster.operation, u)
    ensures forall p :: p in c.listed && p.operation == c.cluster.operation ==>
              p.uid in c.pods && LastReport(c.events, c.cluster.operation, p.uid, p.resourceVersion)
              && p.controller == Some(c.job) && T.Terminal(p)
  {
    var op := c.cluster.operation;
    T.CertificateFacts(c.jobs, c.listed, op, c.cluster.uid, c.reported);
    T.CertifiedSetIsWatchedSet(c.jobs, c.listed, op, c.cluster.uid, c.reported);
    assert forall u :: u in c.pods <==> u in Elements(c.pods);
    forall u ensures u in c.pods <==> exists k :: 0 <= k < |c.events| && Mentions(c.events[k], op, u) {
      if u in c.pods {
        assert LastReport(c.events, op, u, c.reported[u]);
      }
    }
  }

  /** The observer belongs to the process that wrote the first version of the record. */
  ghost predicate OfCreator(s: State, o: Observer) {
    s.history != [] && s.authors != [] && o.pid == s.authors[0]
  }

  ghost predicate OnlyCreatorObserves(s: State) {
    && |s.observers| <= 1 && |s.authors| == |s.history|
    && forall k :: 0 <= k < |s.observers| ==> OfCreator(s, s.observers[k])
  }

  lemma CreatorObserves(s: State, o: Observer)
    requires HistoryInv(s) && ObserverSound(s, o)
    ensures OfCreator(s, o)
  {
    assert Born(s.history[0], s.authors[0]);
  }

  lemma InvMeansCreatorObserves(s: State)
    requires Inv(s)
    ensures OnlyCreatorObserves(s)
  {
    forall k | 0 <= k < |s.observers| ensures OfCreator(s, s.observers[k]) {
      CreatorObserves(s, s.observers[k]);
    }
  }

  /** MAIN: over all processes and all time at most one observer is ever started, and it is
      one of the process that created the record. */
  lemma SingleObserver(run: seq<State>, i: nat)
    requires IsRun(run) && i < |run|
    ensures OnlyCreatorObserves(run[i])
  {
    RunKeeps(run, i);
    InvMeansCreatorObserves(run[i]);
  }

  /** An active record of a live process without a monitor entry: no observer has run. */
  lemma MissingMonitorMeansNoObserver(run: seq<State>, i: nat, p: Pid, c: Cluster)
    requires IsRun(run) && i < |run| && p in run[i].processes && Durable(run[i]).Some?
    requires Durable(run[i]).value.phase == Active && Durable(run[i]).value.observer == p
    requires OperationFrom(Durable(run[i]).value, c) && c.operation !in run[i].processes[p].monitors
    ensures run[i].observers == []
  {
    RunKeeps(run, i);
    HistoryStable(run[i], 0, |run[i].history| - 1);
    assert |run[i].observers| > 0 ==> ObserverSound(run[i], run[i].observers[0]);
  }

  /** MAIN: the durable record moves only active to active (a warning time five minutes after
      the last, by its observer), active to uncertain, active to completed (by its observer), or completed to
      released; nothing of its identity ever changes; others can only make it uncertain. */
  lemma RecordOnlyMovesForward(run: seq<State>, i: nat, j: nat, k: nat)
    requires IsRun(run) && i <= j < |run| && 0 < k < |run[j].history|
    ensures run[i].history <= run[j].history && |run[j].authors| == |run[j].history|
    ensures var a, b, author := run[j].history[k - 1], run[j].history[k], run[j].authors[k];
            && Move(a, b, author)
            && a.placement == b.placement && a.targets == b.targets && a.observer == b.observer
            && b.observer == run[j].authors[0]
            && (author != a.observer && a.phase == Active ==> b == a.(phase := Uncertain))
            && (b.phase == Completed ==> Backed(run[j].certificates, b))
            && (b.warnedAt == a.warnedAt || a.warnedAt == 0 || b.warnedAt >= a.warnedAt + 300)
            && (b.released ==> ReleaseCalled(run[j].log))
  {
    HistoryGrows(run, i, j);
    RunKeeps(run, j);
    HistoryStable(run[j], k - 1, k);
    HistoryStable(run[j], 0, k);
    assert Evidenced(run[j], run[j].history[k]);
  }

  /** An acknowledgement may be lost, but a write never takes effect twice or late: an
      applied write is the record at exactly the version after the one it was based on. */
  lemma WritesTakeEffectOnce(run: seq<State>, i: nat, w: Write)
    requires IsRun(run) && i < |run| && w in run[i].applied
    ensures w in run[i].sent
    ensures w.Update? ==> 1 <= w.base < |run[i].history| && run[i].history[w.base] == w.record
    ensures w.Create? ==> run[i].history != [] && run[i].history[0] == w.record
  {
    RunKeeps(run, i);
    assert Landed(run[i], w) && Lawful(run[i], w);
  }
}
