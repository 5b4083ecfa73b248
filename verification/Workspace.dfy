/** Ownership of the native scratch tree as a protocol with crashes: the flock shared by an
    acquirer and every process that inherited its descriptor, the owner record written byte
    by byte, and the tree that is removed and made again. Models acquireWorkspaceAt and the
    descriptor inheritance of runNative. */
module Workspace {
  import opened Basics

  // ---------------------------------------------------------------- state

  /** The scratch tree; marked says that an owner record existed when the tree was made. */
  datatype Tree = Tree(marked: bool, isPrivate: bool, whole: bool)

  /** A tree that was just made under an owner record. */
  const FRESH := Tree(true, true, true)

  datatype Phase =
    | Opened | Locked | Unmarked | Creating | Writing
    | Owned | Clearing | Making | Syncing | Ready | Gone

  /** One open file description of the lock file. Holder 0 is the acquirer itself; the
      others are native processes that inherited the descriptor. */
  datatype Attempt = Attempt(pod: string, phase: Phase, holders: set<nat>, locked: bool, passed: bool)

  datatype State = State(
    lock: Option<nat>,
    owner: Option<string>,
    synced: bool,
    native: Option<Tree>,
    attempts: map<nat, Attempt>)

  /** What each acquirer does, in the order of the source. */
  datatype Action =
    | Flock | ReadOwner | LookUnmarked | CreateOwner | WriteByte | SyncOwner
    | CheckTree | RemovePart | RemoveAll | MakeDir | SyncDir | Fail

  datatype Step =
    | Open(a: nat, pod: string)
    | Acquire(a: nat, action: Action)
    | Spawn(a: nat, parent: nat, child: nat)
    | Exit(a: nat, holder: nat)
    | HostCrash(kept: nat)
    | Foreign(isPrivate: bool)

  function Record(pod: string): string {
    pod + "\n"
  }

  /** The read buffer holds 130 bytes. */
  function ReadBack(bytes: string): string {
    if |bytes| <= 130 then bytes else bytes[..130]
  }

  predicate ValidPod(pod: string) {
    1 <= |pod| <= 128
  }

  predicate Active(p: Phase) {
    p != Opened && p != Gone
  }

  predicate Past(p: Phase) {
    p == Owned || p == Clearing || p == Making || p == Syncing || p == Ready
  }

  // ---------------------------------------------------------------- steps

  function Update(s: State, a: nat, t: Attempt): State {
    s.(attempts := s.attempts[a := t])
  }

  function Moved(s: State, a: nat, p: Phase): State
    requires a in s.attempts
  {
    Update(s, a, s.attempts[a].(phase := p))
  }

  function Passed(s: State, a: nat): State
    requires a in s.attempts
  {
    Update(s, a, s.attempts[a].(phase := Owned, passed := true))
  }

  /** A process lets go of its descriptor; the last one releases the lock. */
  function Close(s: State, a: nat, holder: nat): State
    requires a in s.attempts
  {
    var t := s.attempts[a];
    var rest := t.holders - {holder};
    var s1 := Update(s, a, t.(holders := rest, phase := if holder == 0 then Gone else t.phase));
    if rest == {} && s.lock == Some(a) then s1.(lock := None) else s1
  }

  predicate ActionEnabled(s: State, a: nat, action: Action) {
    a in s.attempts && 0 in s.attempts[a].holders &&
    var t := s.attempts[a];
    match action
    case Flock => t.phase == Opened
    case ReadOwner => t.phase == Locked
    case LookUnmarked => t.phase == Unmarked
    case CreateOwner => t.phase == Creating
    case WriteByte => t.phase == Writing && s.owner.Some? && |s.owner.value| < |Record(t.pod)|
    case SyncOwner => t.phase == Writing && s.owner.Some? && |s.owner.value| == |Record(t.pod)|
    case CheckTree => t.phase == Owned
    case RemovePart => t.phase == Clearing && s.native.Some?
    case RemoveAll => t.phase == Clearing
    case MakeDir => t.phase == Making
    case SyncDir => t.phase == Syncing
    case Fail => t.phase != Ready && t.phase != Gone
  }

  function Lookup(s: State, a: nat, action: Action): State
    requires ActionEnabled(s, a, action)
  {
    var t := s.attempts[a];
    match action
    case Flock =>
      if s.lock.None? then Update(s, a, t.(phase := Locked, locked := true)).(lock := Some(a)) else Close(s, a, 0)
    case ReadOwner =>
      if s.owner.None? then Moved(s, a, Unmarked)
      else if ReadBack(s.owner.value) == Record(t.pod) then Passed(s, a) else Close(s, a, 0)
    case LookUnmarked =>
      if s.native.Some? then Close(s, a, 0) else Moved(s, a, Creating)
    case _ => Close(s, a, 0)
  }

  function Write(s: State, a: nat, action: Action): State
    requires ActionEnabled(s, a, action)
  {
    var t := s.attempts[a];
    match action
    case CreateOwner =>
      if s.owner.Some? then Close(s, a, 0) else Moved(s, a, Writing).(owner := Some(""), synced := false)
    case WriteByte => s.(owner := Some(Record(t.pod)[..|s.owner.value| + 1]))
    case SyncOwner => Passed(s, a).(synced := true)
    case _ => s
  }

  function Rebuild(s: State, a: nat, action: Action): State
    requires ActionEnabled(s, a, action)
  {
    match action
    case CheckTree =>
      if s.native.Some? && !s.native.value.isPrivate then Close(s, a, 0) else Moved(s, a, Clearing)
    case RemovePart => s.(native := Some(s.native.value.(whole := false)))
    case RemoveAll => Moved(s, a, Making).(native := None)
    case MakeDir =>
      if s.native.Some? then Close(s, a, 0)
      else Moved(s, a, Syncing).(native := Some(Tree(s.owner.Some?, true, true)))
    case _ => Moved(s, a, Ready)
  }

  function Act(s: State, a: nat, action: Action): State
    requires ActionEnabled(s, a, action)
  {
    match action
    case Flock | ReadOwner | LookUnmarked | Fail => Lookup(s, a, action)
    case CreateOwner | WriteByte | SyncOwner => Write(s, a, action)
    case CheckTree | RemovePart | RemoveAll | MakeDir | SyncDir => Rebuild(s, a, action)
  }

  predicate Enabled(s: State, step: Step) {
    match step
    case Open(a, pod) => a !in s.attempts && ValidPod(pod)
    case Acquire(a, action) => ActionEnabled(s, a, action)
    case Spawn(a, parent, child) =>
      && a in s.attempts && parent in s.attempts[a].holders && child !in s.attempts[a].holders
      && child != 0 && (parent == 0 ==> s.attempts[a].phase == Ready)
    case Exit(a, holder) => a in s.attempts && holder in s.attempts[a].holders
    case HostCrash(kept) => s.owner.Some? ==> kept <= |s.owner.value|
    case Foreign(_) => s.lock.None? && s.native.None?
  }

  function Killed(t: Attempt): Attempt {
    t.(holders := {}, phase := Gone)
  }

  function Crash(s: State, kept: nat): State
    requires s.owner.Some? ==> kept <= |s.owner.value|
  {
    State(None, if s.owner.Some? && !s.synced then Some(s.owner.value[..kept]) else s.owner, s.synced, s.native,
          map a | a in s.attempts :: Killed(s.attempts[a]))
  }

  function Apply(s: State, step: Step): State
    requires Enabled(s, step)
  {
    match step
    case Open(a, pod) => Update(s, a, Attempt(pod, Opened, {0}, false, false))
    case Acquire(a, action) => Act(s, a, action)
    case Spawn(a, parent, child) =>
      Update(s, a, s.attempts[a].(holders := s.attempts[a].holders + {child}))
    case Exit(a, holder) => Close(s, a, holder)
    case HostCrash(kept) => Crash(s, kept)
    case Foreign(isPrivate) => s.(native := Some(Tree(s.owner.Some?, isPrivate, true)))
  }

  /** Any contents of the volume: an owner record of any bytes, a tree of any kind. */
  predicate Init(s: State) {
    && s.lock == None && s.attempts == map[]
    && (s.native.Some? ==> s.native.value.marked == s.owner.Some?)
  }

  ghost predicate IsRun(states: seq<State>, steps: seq<Step>) {
    && |states| == |steps| + 1 && Init(states[0])
    && forall i :: 0 <= i < |steps| ==> Enabled(states[i], steps[i]) && states[i + 1] == Apply(states[i], steps[i])
  }

  // ---------------------------------------------------------------- invariant

  /** Who holds what: phase, descriptor holders and lock agree. */
  ghost predicate AttemptOK(s: State, a: nat)
    requires a in s.attempts
  {
    var t := s.attempts[a];
    && (t.phase == Gone <==> 0 !in t.holders)
    && (t.phase == Opened ==> !t.locked && !t.passed)
    && (Active(t.phase) ==> t.locked)
    && (t.holders != {} && t.locked ==> s.lock == Some(a))
    && (t.phase != Ready && t.phase != Gone ==> t.holders == {0})
    && (t.passed <== Past(t.phase))
    && (t.phase == Gone && t.holders != {} ==> t.locked)
  }

  ghost predicate RecordOK(s: State, a: nat)
    requires a in s.attempts
  {
    var t := s.attempts[a];
    && (Past(t.phase) ==> s.owner == Some(Record(t.pod)))
    && (t.phase == Unmarked || t.phase == Creating ==> s.owner == None)
    && (t.phase == Creating || t.phase == Writing ==> s.native == None)
    && (t.phase == Writing ==> s.owner.Some? && s.owner.value <= Record(t.pod))
    && (t.phase == Clearing && s.native.Some? ==> s.native.value.isPrivate)
    && (t.phase == Making ==> s.native == None)
    && (t.phase == Syncing || t.phase == Ready ==> s.native == Some(FRESH))
    && ValidPod(t.pod)
  }

  ghost predicate LockOK(s: State) {
    s.lock.Some? ==> s.lock.value in s.attempts && s.attempts[s.lock.value].holders != {} && s.attempts[s.lock.value].locked
  }

  /** A tree made before any owner record sits beside no owner record. */
  ghost predicate TreeOK(s: State) {
    s.native.Some? && !s.native.value.marked ==> s.owner == None
  }

  ghost predicate Inv(s: State) {
    && LockOK(s) && TreeOK(s)
    && (forall a :: a in s.attempts ==> AttemptOK(s, a))
    && (forall a :: a in s.attempts ==> RecordOK(s, a))
  }

  /** Only one attempt is past its lock at a time. */
  lemma OneActive(s: State, a: nat, b: nat)
    requires Inv(s) && a in s.attempts && b in s.attempts && Active(s.attempts[a].phase) && Active(s.attempts[b].phase)
    ensures a == b
  {
    assert AttemptOK(s, a) && AttemptOK(s, b);
  }

  lemma RecordReadBack(bytes: string, pod: string)
    requires ValidPod(pod)
    ensures ReadBack(bytes) == Record(pod) <==> bytes == Record(pod)
  {
    assert |Record(pod)| <= 129;
  }

  /** An attempt other than a is untouched by what a does, and does not need what a changes. */
  lemma OthersKeep(s: State, s': State, a: nat, b: nat)
    requires Inv(s) && a in s.attempts && b in s.attempts && b != a && b in s'.attempts && s'.attempts[b] == s.attempts[b]
    requires s'.lock == s.lock || (s.lock == None && s'.lock == Some(a)) || (s.lock == Some(a) && s'.lock == None)
    requires (s'.owner == s.owner && s'.native == s.native) || Active(s.attempts[a].phase)
    ensures AttemptOK(s', b) && RecordOK(s', b)
  {
    assert AttemptOK(s, b) && RecordOK(s, b) && AttemptOK(s, a);
  }

  lemma CloseKeeps(s: State, a: nat, holder: nat)
    requires Inv(s) && a in s.attempts && holder in s.attempts[a].holders
    ensures Inv(Close(s, a, holder))
  {
    var s' := Close(s, a, holder);
    assert AttemptOK(s, a) && RecordOK(s, a);
    assert AttemptOK(s', a) && RecordOK(s', a);
    forall b | b in s'.attempts && b != a ensures AttemptOK(s', b) && RecordOK(s', b) {
      OthersKeep(s, s', a, b);
    }
  }

  lemma LookupKeeps(s: State, a: nat, action: Action)
    requires Inv(s) && ActionEnabled(s, a, action) && action in {Flock, ReadOwner, LookUnmarked, Fail}
    ensures Inv(Lookup(s, a, action))
  {
    var s' := Lookup(s, a, action);
    CloseKeeps(s, a, 0);
    if s' != Close(s, a, 0) {
      assert AttemptOK(s, a) && RecordOK(s, a);
      if s.owner.Some? {
        RecordReadBack(s.owner.value, s.attempts[a].pod);
      }
      assert AttemptOK(s', a) && RecordOK(s', a);
      forall b | b in s'.attempts && b != a ensures AttemptOK(s', b) && RecordOK(s', b) {
        OthersKeep(s, s', a, b);
      }
    }
  }

  lemma WriteKeeps(s: State, a: nat, action: Action)
    requires Inv(s) && ActionEnabled(s, a, action) && action in {CreateOwner, WriteByte, SyncOwner}
    ensures Inv(Write(s, a, action))
  {
    var s' := Write(s, a, action);
    CloseKeeps(s, a, 0);
    if s' != Close(s, a, 0) {
      assert AttemptOK(s, a) && RecordOK(s, a);
      if action == SyncOwner {
        assert s.owner.value == Record(s.attempts[a].pod);
      }
      assert AttemptOK(s', a) && RecordOK(s', a);
      forall b | b in s'.attempts && b != a ensures AttemptOK(s', b) && RecordOK(s', b) {
        OthersKeep(s, s', a, b);
      }
    }
  }

  lemma RebuildKeeps(s: State, a: nat, action: Action)
    requires Inv(s) && ActionEnabled(s, a, action) && action in {CheckTree, RemovePart, RemoveAll, MakeDir, SyncDir}
    ensures Inv(Rebuild(s, a, action))
  {
    var s' := Rebuild(s, a, action);
    CloseKeeps(s, a, 0);
    if s' != Close(s, a, 0) {
      assert AttemptOK(s, a) && RecordOK(s, a);
      assert AttemptOK(s', a) && RecordOK(s', a);
      forall b | b in s'.attempts && b != a ensures AttemptOK(s', b) && RecordOK(s', b) {
        OthersKeep(s, s', a, b);
      }
    }
  }

  lemma OpenKeeps(s: State, a: nat, pod: string)
    requires Inv(s) && Enabled(s, Open(a, pod))
    ensures Inv(Apply(s, Open(a, pod)))
  {
    var s' := Apply(s, Open(a, pod));
    forall b | b in s'.attempts ensures AttemptOK(s', b) && RecordOK(s', b) {
      if b != a {
        assert AttemptOK(s, b) && RecordOK(s, b);
      }
    }
  }

  lemma SpawnKeeps(s: State, step: Step)
    requires Inv(s) && step.Spawn? && Enabled(s, step)
    ensures Inv(Apply(s, step))
  {
    var s' := Apply(s, step);
    forall b | b in s'.attempts ensures AttemptOK(s', b) && RecordOK(s', b) {
      assert AttemptOK(s, b) && RecordOK(s, b);
    }
  }

  lemma CrashKeeps(s: State, step: Step)
    requires Inv(s) && step.HostCrash? && Enabled(s, step)
    ensures Inv(Apply(s, step))
  {
    var s' := Apply(s, step);
    forall b | b in s'.attempts ensures AttemptOK(s', b) && RecordOK(s', b) {
      assert AttemptOK(s, b) && RecordOK(s, b);
      assert s'.attempts[b] == Killed(s.attempts[b]);
    }
  }

  lemma ForeignKeeps(s: State, step: Step)
    requires Inv(s) && step.Foreign? && Enabled(s, step)
    ensures Inv(Apply(s, step))
  {
    var s' := Apply(s, step);
    forall b | b in s'.attempts ensures AttemptOK(s', b) && RecordOK(s', b) {
      assert AttemptOK(s, b) && RecordOK(s, b);
    }
  }

  lemma StepKeeps(s: State, step: Step)
    requires Inv(s) && Enabled(s, step)
    ensures Inv(Apply(s, step))
  {
    match step
    case Open(a, pod) => OpenKeeps(s, a, pod);
    case Acquire(a, action) =>
      if action in {Flock, ReadOwner, LookUnmarked, Fail} {
        LookupKeeps(s, a, action);
      } else if action in {CreateOwner, WriteByte, SyncOwner} {
        WriteKeeps(s, a, action);
      } else {
        RebuildKeeps(s, a, action);
      }
    case Spawn(_, _, _) => SpawnKeeps(s, step);
    case Exit(a, holder) => CloseKeeps(s, a, holder);
    case HostCrash(_) => CrashKeeps(s, step);
    case Foreign(_) => ForeignKeeps(s, step);
  }

  lemma {:induction false} RunKeeps(states: seq<State>, steps: seq<Step>, i: nat)
    requires IsRun(states, steps) && i < |states|
    ensures Inv(states[i])
  {
    if i > 0 {
      RunKeeps(states, steps, i - 1);
      StepKeeps(states[i - 1], steps[i - 1]);
    }
  }

  // ---------------------------------------------------------------- results

  /** MAIN: whenever any part of the tree is removed, the lock is held by the remover alone,
      no process that ever shared another acquirer's lock is alive, the owner record is this
      Pod's, and the tree is private and does not predate the record. */
  lemma RemovalIsExclusive(states: seq<State>, steps: seq<Step>, i: nat, a: nat)
    requires IsRun(states, steps) && i < |steps|
    requires steps[i] == Acquire(a, RemovePart) || steps[i] == Acquire(a, RemoveAll)
    ensures var s := states[i];
            && a in s.attempts && s.lock == Some(a) && s.attempts[a].holders == {0}
            && s.owner == Some(Record(s.attempts[a].pod))
            && (s.native.Some? ==> s.native.value.marked && s.native.value.isPrivate)
            && (forall b :: b in s.attempts && b != a && s.attempts[b].locked ==> s.attempts[b].holders == {})
  {
    RunKeeps(states, steps, i);
    var s := states[i];
    assert ActionEnabled(s, a, steps[i].action);
    assert AttemptOK(s, a) && RecordOK(s, a);
    forall b | b in s.attempts && b != a && s.attempts[b].locked ensures s.attempts[b].holders == {} {
      assert AttemptOK(s, b);
    }
  }

  /** MAIN: whoever has acquired the workspace has a whole private tree made under its own Pod's
      record, and keeps it for as long as it is there. */
  lemma ReadyHasFreshTree(states: seq<State>, steps: seq<Step>, i: nat, a: nat)
    requires IsRun(states, steps) && i < |states| && a in states[i].attempts && states[i].attempts[a].phase == Ready
    ensures states[i].native == Some(FRESH) && states[i].owner == Some(Record(states[i].attempts[a].pod)) && states[i].lock == Some(a)
  {
    RunKeeps(states, steps, i);
    assert AttemptOK(states[i], a) && RecordOK(states[i], a);
  }

  /** A tree that others may enter is refused and left as it is. */
  lemma OpenTreeRefused(states: seq<State>, steps: seq<Step>, i: nat, a: nat)
    requires IsRun(states, steps) && i < |steps| && steps[i] == Acquire(a, CheckTree)
    requires states[i].native.Some? && !states[i].native.value.isPrivate
    ensures states[i + 1].attempts[a].phase == Gone && states[i + 1].native == states[i].native && states[i + 1].lock == None
  {
    RunKeeps(states, steps, i);
    assert AttemptOK(states[i], a);
    assert Enabled(states[i], steps[i]) && states[i + 1] == Apply(states[i], steps[i]);
  }

  /** MAIN: while any process that inherited an acquired descriptor lives, every other
      acquirer is refused at the lock. */
  lemma SurvivorExcludes(states: seq<State>, steps: seq<Step>, i: nat, a: nat, b: nat)
    requires IsRun(states, steps) && i < |steps| && a in states[i].attempts && b != a
    requires states[i].attempts[a].locked && states[i].attempts[a].holders != {}
    requires steps[i] == Acquire(b, Flock)
    ensures states[i + 1].attempts[b].phase == Gone && states[i + 1].lock == Some(a)
  {
    RunKeeps(states, steps, i);
    assert AttemptOK(states[i], a) && AttemptOK(states[i], b);
    assert Enabled(states[i], steps[i]) && states[i + 1] == Apply(states[i], steps[i]);
  }

  predicate Legacy(s: State) {
    s.native.Some? && !s.native.value.marked
  }

  lemma LegacyStep(s: State, step: Step)
    requires Inv(s) && Enabled(s, step) && Legacy(s)
    ensures Apply(s, step).native == s.native
  {
    if step.Acquire? {
      assert AttemptOK(s, step.a) && RecordOK(s, step.a);
    }
  }

  /** MAIN: a tree that was there before any owner record is never touched again. */
  lemma {:induction false} LegacyUntouched(states: seq<State>, steps: seq<Step>, i: nat, j: nat)
    requires IsRun(states, steps) && i <= j < |states| && Legacy(states[i])
    ensures states[j].native == states[i].native
    decreases j
  {
    if i < j {
      LegacyUntouched(states, steps, i, j - 1);
      RunKeeps(states, steps, j - 1);
      LegacyStep(states[j - 1], steps[j - 1]);
    }
  }

  /** No cut of these bytes, nor the bytes themselves, is the record of a valid Pod: there is
      no line end where such a record can end. */
  predicate NobodysRecord(bytes: string) {
    forall j :: 1 <= j < |bytes| && j <= 128 ==> bytes[j] != '\n'
  }

  lemma NobodysRecordMeans(bytes: string)
    ensures NobodysRecord(bytes) <==> forall k, pod :: 0 <= k <= |bytes| && ValidPod(pod) ==> bytes[..k] != Record(pod)
  {
    if NobodysRecord(bytes) {
      forall k, pod | 0 <= k <= |bytes| && ValidPod(pod) ensures bytes[..k] != Record(pod) {
        assert Record(pod)[|pod|] == '\n';
        assert k == |pod| + 1 ==> bytes[..k][|pod|] == bytes[|pod|];
      }
    } else {
      var j :| 1 <= j < |bytes| && j <= 128 && bytes[j] == '\n';
      assert bytes[..j + 1] == Record(bytes[..j]) && ValidPod(bytes[..j]);
    }
  }

  /** A record nobody is still writing and that is, like every cut of it, nobody's. */
  ghost predicate Torn(s: State) {
    && s.owner.Some? && NobodysRecord(s.owner.value)
    && forall a :: a in s.attempts ==> s.attempts[a].phase != Writing
  }

  lemma CloseTorn(s: State, a: nat, holder: nat)
    requires Torn(s) && a in s.attempts
    ensures Torn(Close(s, a, holder))
  {
  }

  lemma RecordIsSomebodys(pod: string)
    requires ValidPod(pod)
    ensures !NobodysRecord(Record(pod))
  {
    assert Record(pod)[|pod|] == '\n';
  }

  lemma TornAct(s: State, a: nat, action: Action)
    requires Inv(s) && ActionEnabled(s, a, action) && Torn(s)
    ensures Torn(Act(s, a, action))
  {
    assert AttemptOK(s, a) && RecordOK(s, a);
    RecordIsSomebodys(s.attempts[a].pod);
    RecordReadBack(s.owner.value, s.attempts[a].pod);
    CloseTorn(s, a, 0);
    assert !Past(s.attempts[a].phase);
  }

  lemma TornStep(s: State, step: Step)
    requires Inv(s) && Enabled(s, step) && Torn(s)
    ensures Torn(Apply(s, step))
  {
    match step
    case Open(_, _) =>
    case Acquire(a, action) => TornAct(s, a, action);
    case Spawn(_, _, _) =>
    case Exit(a, holder) => CloseTorn(s, a, holder);
    case HostCrash(_) =>
    case Foreign(_) =>
  }

  /** MAIN: after a torn record no acquirer, of this Pod or any other, ever owns the
      workspace again. */
  lemma {:induction false} TornRefusedForever(states: seq<State>, steps: seq<Step>, i: nat, j: nat)
    requires IsRun(states, steps) && i <= j < |states| && Torn(states[i])
    ensures Torn(states[j]) && forall a :: a in states[j].attempts ==> !Past(states[j].attempts[a].phase)
    decreases j
  {
    RunKeeps(states, steps, j);
    if i < j {
      TornRefusedForever(states, steps, i, j - 1);
      RunKeeps(states, steps, j - 1);
      TornStep(states[j - 1], steps[j - 1]);
    }
    forall a | a in states[j].attempts ensures !Past(states[j].attempts[a].phase) {
      assert RecordOK(states[j], a);
      RecordIsSomebodys(states[j].attempts[a].pod);
    }
  }

  // ---------------------------------------------------------------- which records can be torn into another's

  /** The name has a line end after its first character. */
  predicate InnerLineEnd(pod: string) {
    |pod| > 1 && '\n' in pod[1..]
  }

  /** A cut of pod's record is some Pod's whole record exactly when pod has a line end
      after its first character. Kubernetes UIDs have none, but the code does not check. */
  lemma CutIsAnotherRecord(pod: string)
    requires pod != ""
    ensures (exists k, other :: 0 <= k <= |pod| && other != "" && Record(pod)[..k] == Record(other)) <==> InnerLineEnd(pod)
  {
    if InnerLineEnd(pod) {
      var i :| 0 <= i < |pod| - 1 && pod[1..][i] == '\n';
      assert Record(pod)[..i + 2] == Record(pod[..i + 1]);
    }
    if k, other :| 0 <= k <= |pod| && other != "" && Record(pod)[..k] == Record(other) {
      assert Record(other)[|other|] == '\n';
      assert pod[1..][|other| - 1] == '\n';
    }
  }

  ghost predicate Nested(a: string, b: string) {
    Record(a) <= Record(b) || Record(b) <= Record(a)
  }

  /** Every attempt that ever owned the workspace saw a record that extends what is there,
      so of two of them one record begins the other. */
  ghost predicate Bound(s: State) {
    && (forall a :: a in s.attempts && s.attempts[a].passed ==> s.owner.Some? && s.owner.value <= Record(s.attempts[a].pod))
    && (forall a, b :: a in s.attempts && b in s.attempts && s.attempts[a].passed && s.attempts[b].passed ==>
          Nested(s.attempts[a].pod, s.attempts[b].pod))
    && (forall a, b :: a in s.attempts && b in s.attempts && s.attempts[a].phase == Writing ==> !s.attempts[b].passed)
  }

  /** Steps that change neither the record nor who owned the workspace keep the bond. */
  ghost predicate SameBond(s: State, s': State) {
    && s'.owner == s.owner && s'.attempts.Keys == s.attempts.Keys
    && forall a :: a in s.attempts ==>
         && s'.attempts[a].pod == s.attempts[a].pod && s'.attempts[a].passed == s.attempts[a].passed
         && (s'.attempts[a].phase == Writing ==> s.attempts[a].phase == Writing)
  }

  lemma SameBondKeeps(s: State, s': State)
    requires Bound(s) && SameBond(s, s')
    ensures Bound(s')
  {
  }

  lemma CloseBound(s: State, a: nat, holder: nat)
    requires Bound(s) && a in s.attempts
    ensures Bound(Close(s, a, holder))
  {
    SameBondKeeps(s, Close(s, a, holder));
  }

  lemma PassBound(s: State, a: nat)
    requires Inv(s) && Bound(s) && a in s.attempts && s.owner == Some(Record(s.attempts[a].pod))
    requires Active(s.attempts[a].phase) && s.attempts[a].phase != Writing
    ensures Bound(Passed(s, a))
  {
    var s' := Passed(s, a);
    forall b | b in s.attempts && s.attempts[b].passed ensures Nested(s.attempts[b].pod, s.attempts[a].pod) {
      assert Record(s.attempts[a].pod) <= Record(s.attempts[b].pod);
    }
    forall b | b in s.attempts && b != a ensures s.attempts[b].phase != Writing {
      if s.attempts[b].phase == Writing {
        OneActive(s, a, b);
      }
    }
  }

  lemma LookupBound(s: State, a: nat, action: Action)
    requires Inv(s) && Bound(s)
    requires ActionEnabled(s, a, action) && action in {Flock, ReadOwner, LookUnmarked, Fail}
    ensures Bound(Lookup(s, a, action))
  {
    CloseBound(s, a, 0);
    assert RecordOK(s, a);
    if action == ReadOwner && s.owner.Some? {
      RecordReadBack(s.owner.value, s.attempts[a].pod);
      if s.owner.value == Record(s.attempts[a].pod) {
        PassBound(s, a);
      }
    }
  }

  lemma WriteBound(s: State, a: nat, action: Action)
    requires Inv(s) && Bound(s)
    requires ActionEnabled(s, a, action) && action in {CreateOwner, WriteByte, SyncOwner}
    ensures Bound(Write(s, a, action))
  {
    CloseBound(s, a, 0);
    assert RecordOK(s, a);
    var s' := Write(s, a, action);
    if action == SyncOwner {
      assert s.owner.value == Record(s.attempts[a].pod);
      forall b | b in s'.attempts && s'.attempts[b].phase == Writing ensures false {
        OneActive(s, a, b);
      }
    }
  }

  lemma MovedSame(s: State, a: nat, p: Phase)
    requires a in s.attempts && p != Writing
    ensures SameBond(s, Moved(s, a, p))
  {
  }

  lemma CloseSame(s: State, a: nat, holder: nat)
    requires a in s.attempts
    ensures SameBond(s, Close(s, a, holder))
  {
  }

  lemma RebuildSame(s: State, a: nat, action: Action)
    requires ActionEnabled(s, a, action) && action in {CheckTree, RemovePart, RemoveAll, MakeDir, SyncDir}
    ensures SameBond(s, Rebuild(s, a, action))
  {
    CloseSame(s, a, 0);
    MovedSame(s, a, Clearing);
    MovedSame(s, a, Making);
    MovedSame(s, a, Syncing);
    MovedSame(s, a, Ready);
  }

  lemma RebuildBound(s: State, a: nat, action: Action)
    requires Inv(s) && Bound(s)
    requires ActionEnabled(s, a, action) && action in {CheckTree, RemovePart, RemoveAll, MakeDir, SyncDir}
    ensures Bound(Rebuild(s, a, action))
  {
    RebuildSame(s, a, action);
    SameBondKeeps(s, Rebuild(s, a, action));
  }

  lemma CrashBound(s: State, kept: nat)
    requires Bound(s) && (s.owner.Some? ==> kept <= |s.owner.value|)
    ensures Bound(Crash(s, kept))
  {
  }

  lemma OpenBound(s: State, a: nat, pod: string)
    requires Bound(s) && a !in s.attempts
    ensures Bound(Update(s, a, Attempt(pod, Opened, {0}, false, false)))
  {
  }

  lemma ActBound(s: State, a: nat, action: Action)
    requires Inv(s) && Bound(s) && ActionEnabled(s, a, action)
    ensures Bound(Act(s, a, action))
  {
    if action in {Flock, ReadOwner, LookUnmarked, Fail} {
      LookupBound(s, a, action);
    } else if action in {CreateOwner, WriteByte, SyncOwner} {
      WriteBound(s, a, action);
    } else {
      RebuildBound(s, a, action);
    }
  }

  lemma QuietBound(s: State, step: Step)
    requires Bound(s) && Enabled(s, step) && (step.Spawn? || step.Foreign?)
    ensures Bound(Apply(s, step))
  {
    SameBondKeeps(s, Apply(s, step));
  }

  lemma BoundStep(s: State, step: Step)
    requires Inv(s) && Bound(s) && Enabled(s, step)
    ensures Bound(Apply(s, step))
  {
    match step
    case Open(a, pod) => OpenBound(s, a, pod);
    case Acquire(a, action) => ActBound(s, a, action);
    case Spawn(_, _, _) => QuietBound(s, step);
    case Exit(a, holder) => CloseBound(s, a, holder);
    case HostCrash(kept) => CrashBound(s, kept);
    case Foreign(_) => QuietBound(s, step);
  }

  lemma {:induction false} RunBound(states: seq<State>, steps: seq<Step>, i: nat)
    requires IsRun(states, steps) && i < |states|
    ensures Bound(states[i])
  {
    if i > 0 {
      RunBound(states, steps, i - 1);
      RunKeeps(states, steps, i - 1);
      BoundStep(states[i - 1], steps[i - 1]);
    }
  }

  /** In this run pod owned the workspace, and so did a Pod with a shorter name. */
  ghost predicate ChangesHands(states: seq<State>, steps: seq<Step>, pod: string) {
    && IsRun(states, steps)
    && var s := states[|steps|];
       exists a, b :: a in s.attempts && b in s.attempts && s.attempts[a].passed && s.attempts[b].passed
                      && s.attempts[a].pod == pod && |s.attempts[b].pod| < |pod|
  }

  /** MAIN: two Pods that ever owned the workspace are the same Pod, whatever crashes or tears
      the record, unless the longer name has a line end after its first character. */
  lemma NeverChangesPod(states: seq<State>, steps: seq<Step>, i: nat, a: nat, b: nat)
    requires IsRun(states, steps) && i < |states| && a in states[i].attempts && b in states[i].attempts
    requires states[i].attempts[a].passed && states[i].attempts[b].passed
    requires |states[i].attempts[b].pod| <= |states[i].attempts[a].pod| && !InnerLineEnd(states[i].attempts[a].pod)
    ensures states[i].attempts[a].pod == states[i].attempts[b].pod
  {
    RunBound(states, steps, i);
    RunKeeps(states, steps, i);
    assert RecordOK(states[i], b);
    NestedSame(states[i].attempts[a].pod, states[i].attempts[b].pod);
  }

  lemma NestedSame(a: string, b: string)
    requires Nested(a, b) && 1 <= |b| <= |a|
    ensures a == b || InnerLineEnd(a)
  {
    if |b| < |a| {
      assert Record(b)[|b|] == '\n' && Record(a)[|b|] == a[|b|];
      assert a[1..][|b| - 1] == a[|b|];
    } else {
      assert a == Record(a)[..|a|] && b == Record(b)[..|b|];
    }
  }

  // ---------------------------------------------------------------- a record that changes hands

  lemma Extend(states: seq<State>, steps: seq<Step>, step: Step) returns (s: State, more: seq<State>, moreSteps: seq<Step>)
    requires IsRun(states, steps) && Enabled(states[|steps|], step)
    ensures more == states + [s] && moreSteps == steps + [step] && s == Apply(states[|steps|], step)
    ensures IsRun(more, moreSteps) && more[|moreSteps|] == s
  {
    s := Apply(states[|steps|], step);
    more, moreSteps := states + [s], steps + [step];
  }

  /** An acquirer finds nothing and writes k bytes of its owner record. */
  lemma {:induction false} RecordWritten(pod: string, k: nat) returns (s: State, states: seq<State>, steps: seq<Step>)
    requires ValidPod(pod) && k <= |Record(pod)|
    ensures IsRun(states, steps) && states[|steps|] == s
    ensures s == State(Some(0), Some(Record(pod)[..k]), false, None, map[0 := Attempt(pod, Writing, {0}, true, false)])
  {
    if k == 0 {
      s := State(None, None, false, None, map[]);
      states, steps := [s], [];
      s, states, steps := Extend(states, steps, Open(0, pod));
      s, states, steps := Extend(states, steps, Acquire(0, Flock));
      s, states, steps := Extend(states, steps, Acquire(0, ReadOwner));
      s, states, steps := Extend(states, steps, Acquire(0, LookUnmarked));
      s, states, steps := Extend(states, steps, Acquire(0, CreateOwner));
      assert Record(pod)[..0] == "";
    } else {
      s, states, steps := RecordWritten(pod, k - 1);
      s, states, steps := Extend(states, steps, Acquire(0, WriteByte));
    }
  }

  /** Any new acquirer that finds its whole record, and the lock free, owns the workspace. */
  lemma RecordAdmits(states: seq<State>, steps: seq<Step>, a: nat, pod: string) returns (s: State, more: seq<State>, moreSteps: seq<Step>)
    requires IsRun(states, steps) && ValidPod(pod) && a !in states[|steps|].attempts
    requires states[|steps|].lock == None && states[|steps|].owner == Some(Record(pod))
    ensures IsRun(more, moreSteps) && more[|moreSteps|] == s && s.owner == Some(Record(pod)) && s.synced == states[|steps|].synced
    ensures s.attempts == states[|steps|].attempts[a := Attempt(pod, Owned, {0}, true, true)] && steps <= moreSteps
    ensures s.native == states[|steps|].native
  {
    RecordReadBack(Record(pod), pod);
    s, more, moreSteps := Extend(states, steps, Open(a, pod));
    s, more, moreSteps := Extend(more, moreSteps, Acquire(a, Flock));
    s, more, moreSteps := Extend(more, moreSteps, Acquire(a, ReadOwner));
  }

  /** MAIN: a Pod gets its own workspace back: with the lock free, its record in place and no tree
      or a private one, a new acquirer can become ready. */
  lemma OwnerCanAcquire(states: seq<State>, steps: seq<Step>, a: nat, pod: string) returns (s: State, more: seq<State>, moreSteps: seq<Step>)
    requires IsRun(states, steps) && ValidPod(pod) && a !in states[|steps|].attempts
    requires states[|steps|].lock == None && states[|steps|].owner == Some(Record(pod))
    requires states[|steps|].native.Some? ==> states[|steps|].native.value.isPrivate
    ensures IsRun(more, moreSteps) && steps <= moreSteps && more[|moreSteps|] == s
    ensures a in s.attempts && s.attempts[a] == Attempt(pod, Ready, {0}, true, true)
  {
    s, more, moreSteps := RecordAdmits(states, steps, a, pod);
    s, more, moreSteps := TreeRebuilt(more, moreSteps, a, pod);
  }

  lemma TreeRebuilt(states: seq<State>, steps: seq<Step>, a: nat, pod: string) returns (s: State, more: seq<State>, moreSteps: seq<Step>)
    requires IsRun(states, steps) && a in states[|steps|].attempts && states[|steps|].attempts[a] == Attempt(pod, Owned, {0}, true, true)
    requires states[|steps|].native.Some? ==> states[|steps|].native.value.isPrivate
    ensures IsRun(more, moreSteps) && steps <= moreSteps && more[|moreSteps|] == s
    ensures a in s.attempts && s.attempts[a] == Attempt(pod, Ready, {0}, true, true) && s.synced == states[|steps|].synced
  {
    s, more, moreSteps := Extend(states, steps, Acquire(a, CheckTree));
    s, more, moreSteps := Extend(more, moreSteps, Acquire(a, RemoveAll));
    s, more, moreSteps := Extend(more, moreSteps, Acquire(a, MakeDir));
    s, more, moreSteps := Extend(more, moreSteps, Acquire(a, SyncDir));
  }

  lemma {:induction false} RecordContinued(states: seq<State>, steps: seq<Step>, a: nat, pod: string, k: nat) returns (s: State, more: seq<State>, moreSteps: seq<Step>)
    requires IsRun(states, steps) && ValidPod(pod) && k <= |Record(pod)|
    requires a in states[|steps|].attempts && states[|steps|].attempts[a] == Attempt(pod, Writing, {0}, true, false)
    requires states[|steps|].owner == Some(Record(pod)[..k])
    ensures IsRun(more, moreSteps) && steps <= moreSteps && more[|moreSteps|] == s
    ensures a in s.attempts && s.attempts[a] == Attempt(pod, Owned, {0}, true, true)
    ensures s.native == states[|steps|].native && s.owner == Some(Record(pod)) && s.synced
    decreases |Record(pod)| - k
  {
    if k == |Record(pod)| {
      assert Record(pod)[..k] == Record(pod);
      s, more, moreSteps := Extend(states, steps, Acquire(a, SyncOwner));
    } else {
      s, more, moreSteps := Extend(states, steps, Acquire(a, WriteByte));
      s, more, moreSteps := RecordContinued(more, moreSteps, a, pod, k + 1);
    }
  }

  /** MAIN: and any Pod can take an empty volume: with the lock free, no record and no tree, a new
      acquirer can write its record and become ready. */
  lemma FirstCanAcquire(states: seq<State>, steps: seq<Step>, a: nat, pod: string) returns (s: State, more: seq<State>, moreSteps: seq<Step>)
    requires IsRun(states, steps) && ValidPod(pod) && a !in states[|steps|].attempts
    requires states[|steps|].lock == None && states[|steps|].owner == None && states[|steps|].native == None
    ensures IsRun(more, moreSteps) && steps <= moreSteps && more[|moreSteps|] == s
    ensures a in s.attempts && s.attempts[a] == Attempt(pod, Ready, {0}, true, true) && s.synced
  {
    s, more, moreSteps := Extend(states, steps, Open(a, pod));
    s, more, moreSteps := Extend(more, moreSteps, Acquire(a, Flock));
    s, more, moreSteps := Extend(more, moreSteps, Acquire(a, ReadOwner));
    s, more, moreSteps := Extend(more, moreSteps, Acquire(a, LookUnmarked));
    s, more, moreSteps := Extend(more, moreSteps, Acquire(a, CreateOwner));
    assert Record(pod)[..0] == "";
    s, more, moreSteps := RecordContinued(more, moreSteps, a, pod, 0);
    s, more, moreSteps := TreeRebuilt(more, moreSteps, a, pod);
  }

  /** Being nobody's record is also necessary for being refused forever: any other unsynced
      record is one host crash away from an acquirer that owns the workspace. */
  lemma OtherRecordsCanBeOwned(states: seq<State>, steps: seq<Step>, a: nat) returns (s: State, more: seq<State>, moreSteps: seq<Step>)
    requires IsRun(states, steps) && a !in states[|steps|].attempts && !states[|steps|].synced
    requires states[|steps|].owner.Some? && !NobodysRecord(states[|steps|].owner.value)
    ensures IsRun(more, moreSteps) && steps <= moreSteps && more[|moreSteps|] == s
    ensures a in s.attempts && Past(s.attempts[a].phase)
  {
    var bytes := states[|steps|].owner.value;
    NobodysRecordMeans(bytes);
    var k, pod :| 0 <= k <= |bytes| && ValidPod(pod) && bytes[..k] == Record(pod);
    s, more, moreSteps := Extend(states, steps, HostCrash(k));
    s, more, moreSteps := RecordAdmits(more, moreSteps, a, pod);
  }

  /** The writer dies before it syncs; its next attempt finds the whole record and owns. */
  lemma UnsyncedOwner(pod: string) returns (s: State, states: seq<State>, steps: seq<Step>)
    requires ValidPod(pod)
    ensures IsRun(states, steps) && states[|steps|] == s && !s.synced && s.owner == Some(Record(pod))
    ensures 1 in s.attempts && s.attempts[1].passed && s.attempts[1].pod == pod && 2 !in s.attempts
  {
    s, states, steps := RecordWritten(pod, |Record(pod)|);
    assert Record(pod)[..|Record(pod)|] == Record(pod);
    s, states, steps := Extend(states, steps, Exit(0, 0));
    s, states, steps := RecordAdmits(states, steps, 1, pod);
  }

  /** A host crash leaves a cut that is another Pod's whole record, and that Pod owns. */
  lemma CutChangesHands(pod: string, j: nat) returns (states: seq<State>, steps: seq<Step>)
    requires ValidPod(pod) && 1 <= j < |pod| && pod[j] == '\n'
    ensures ChangesHands(states, steps, pod)
  {
    var s;
    s, states, steps := UnsyncedOwner(pod);
    var other := pod[..j];
    assert Record(pod)[..j + 1] == Record(other);
    s, states, steps := Extend(states, steps, HostCrash(j + 1));
    s, states, steps := RecordAdmits(states, steps, 2, other);
    assert s.attempts[1].passed && s.attempts[2].passed;
  }

  /** MAIN: exactly the Pod names with a line end after their first character can lose the
      workspace to another Pod: some run lets this Pod and a Pod with a shorter name own it. */
  lemma PodsThatLoseTheWorkspace(pod: string)
    requires ValidPod(pod)
    ensures (exists states, steps :: ChangesHands(states, steps, pod)) <==> InnerLineEnd(pod)
  {
    if InnerLineEnd(pod) {
      var j :| 0 <= j < |pod[1..]| && pod[1..][j] == '\n';
      var states, steps := CutChangesHands(pod, j + 1);
    }
    forall states, steps | ChangesHands(states, steps, pod) ensures InnerLineEnd(pod) {
      HandsNeedLineEnd(states, steps, pod);
    }
  }

  lemma HandsNeedLineEnd(states: seq<State>, steps: seq<Step>, pod: string)
    requires ValidPod(pod) && ChangesHands(states, steps, pod)
    ensures InnerLineEnd(pod)
  {
    var s := states[|steps|];
    var a, b :| a in s.attempts && b in s.attempts && s.attempts[a].passed && s.attempts[b].passed
                && s.attempts[a].pod == pod && |s.attempts[b].pod| < |pod|;
    if !InnerLineEnd(pod) {
      NeverChangesPod(states, steps, |steps|, a, b);
    }
  }
}
