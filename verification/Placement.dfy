/** The Pod rewrite that places the sidecar: checks, then edits of the container, volume,
    mount and annotation lists. Models inject, the patch test of Place, and
    uniquePlacementNames. */
module Placement {
  import opened Basics
  import opened PodLists

  // ---------------------------------------------------------------- names

  const SIDECAR := "cnpg-backup"
  const PREPARER := "cnpg-backup-socket-init"
  const PLUGINS := "cnpg-backup-plugins"
  const BIN := "cnpg-backup-bin"
  const STATE := "cnpg-backup-state"
  const PROJECTION := "cnpg-backup-projection"
  const WORK := "cnpg-backup-work"
  const CONFIG := "cnpg-backup-config"
  const OWNER := "cnpg-backup.djosh34.github.io/owner"
  const CONFIGURED := "cnpg-backup.djosh34.github.io/config"
  const OPERATION := "cnpg-backup.djosh34.github.io/recovery"
  const HELPER := "/cnpg-backup/bin/cnpg-backup"
  const DATABASE := "/var/lib/postgresql/"
  const ON_ROOT_MISMATCH := "OnRootMismatch"

  const OWNED_VOLUMES: set<string> := {PLUGINS, BIN, STATE, PROJECTION, WORK, CONFIG}

  // ---------------------------------------------------------------- values

  datatype EnvValue = PodUidField | OtherValue(code: int)

  datatype Env = Env(name: string, value: EnvValue)

  datatype Container = Container(
    name: string, command: seq<string>, args: seq<string>, env: seq<Env>, mounts: seq<Mount>,
    user: Option<int>, group: Option<int>, details: int)

  datatype Security = Security(user: Option<int>, group: Option<int>, fsPolicy: string)

  datatype Pod = Pod(
    init: seq<Container>, containers: seq<Container>, volumes: seq<Volume>,
    hostPid: bool, sharedPid: bool, security: Option<Security>,
    annotations: map<string, string>, recoveryJob: bool)

  /** The Cluster and the answers of the API. A claim is in pvcs when it is a live filesystem
      PVC controlled by this Cluster; the flags say which lookups succeed. */
  datatype Request = Request(
    uid: string, user: int, group: int, wal: bool, tablespaces: seq<string>, name: string, operation: string,
    destinationOk: bool, sourceOk: bool, secretsOk: bool, identityOk: bool,
    pvcs: map<string, string>, uuids: set<string>,
    storageClass: string, storageSize: string, instanceConfig: string, recoveryConfig: string,
    sidecarDetails: int, preparerDetails: int)

  // ---------------------------------------------------------------- names must be unique

  ghost predicate ContainersUnique(cs: seq<Container>) {
    forall i, j :: 0 <= i < j < |cs| ==> cs[i].name != cs[j].name
  }

  ghost predicate UniqueNames(p: Pod) {
    && VolumesUnique(p.volumes)
    && ContainersUnique(p.containers + p.init)
    && (forall c :: c in p.containers ==> PathsUnique(c.mounts))
    && (forall c :: c in p.init ==> PathsUnique(c.mounts))
  }

  method CheckVolumeNames(vs: seq<Volume>) returns (ok: bool)
    ensures ok <==> VolumesUnique(vs)
  {
    var names: set<string> := {};
    for i := 0 to |vs|
      invariant VolumesUnique(vs[..i])
      invariant forall n :: n in names <==> exists k :: 0 <= k < i && vs[k].name == n
    {
      if vs[i].name in names {
        return false;
      }
      names := names + {vs[i].name};
    }
    assert vs[..|vs|] == vs;
    return true;
  }

  method CheckMountPaths(ms: seq<Mount>) returns (ok: bool)
    ensures ok <==> PathsUnique(ms)
  {
    var paths: set<string> := {};
    for i := 0 to |ms|
      invariant PathsUnique(ms[..i])
      invariant forall n :: n in paths <==> exists k :: 0 <= k < i && ms[k].path == n
    {
      if ms[i].path in paths {
        return false;
      }
      paths := paths + {ms[i].path};
    }
    assert ms[..|ms|] == ms;
    return true;
  }

  method CheckContainers(cs: seq<Container>) returns (ok: bool)
    ensures ok <==> ContainersUnique(cs) && forall c :: c in cs ==> PathsUnique(c.mounts)
  {
    var names: set<string> := {};
    for i := 0 to |cs|
      invariant ContainersUnique(cs[..i])
      invariant forall n :: n in names <==> exists k :: 0 <= k < i && cs[k].name == n
      invariant forall k :: 0 <= k < i ==> PathsUnique(cs[k].mounts)
    {
      if cs[i].name in names {
        return false;
      }
      names := names + {cs[i].name};
      var paths := CheckMountPaths(cs[i].mounts);
      if !paths {
        assert cs[i] in cs;
        return false;
      }
    }
    assert cs[..|cs|] == cs;
    return true;
  }

  /** uniquePlacementNames. */
  method CheckUniqueNames(p: Pod) returns (ok: bool)
    ensures ok <==> UniqueNames(p)
  {
    ok := CheckVolumeNames(p.volumes);
    if ok {
      ok := CheckContainers(p.containers + p.init);
      assert forall c :: c in p.containers + p.init <==> c in p.containers || c in p.init;
    }
  }

  // ---------------------------------------------------------------- the main container

  predicate MainName(name: string) {
    name == "postgres" || name == "full-recovery" || name == "initdb" || name == "join"
  }

  function FirstMain(cs: seq<Container>): (i: nat)
    ensures i <= |cs|
  {
    if cs == [] || MainName(cs[0].name) then 0 else 1 + FirstMain(cs[1..])
  }

  /** The index of the main container, or the length when there is none. */
  function MainIndex(cs: seq<Container>): (i: nat)
    ensures i <= |cs|
  {
    var i := FirstMain(cs);
    if i == |cs| == 1 then 0 else i
  }

  function FindContainer(cs: seq<Container>, name: string): (i: nat)
    ensures i <= |cs| && (i < |cs| ==> cs[i].name == name)
    ensures forall k :: 0 <= k < i ==> cs[k].name != name
  {
    if cs == [] || cs[0].name == name then 0
    else
      var r := FindContainer(cs[1..], name);
      assert forall k :: 0 < k < r + 1 ==> cs[k] == cs[1..][k - 1];
      r + 1
  }

  function Argv(c: Container): seq<string> {
    c.command + c.args
  }

  /** A main container that was wrapped before still counts by its own command. */
  function Unwrapped(argv: seq<string>): seq<string> {
    if |argv| > 2 && argv[0] == HELPER && argv[1] == "recovery-guard" && argv[2] == "--" then argv[3..] else argv
  }

  predicate ManagerArgv(argv: seq<string>) {
    && |argv| >= 3 && argv[0] == "/controller/manager" && argv[1] == "instance"
    && (argv[2] == "run" || argv[2] == "init" || argv[2] == "join" || argv[2] == "restore")
  }

  predicate LogLevel(value: string) {
    value == "error" || value == "warning" || value == "info" || value == "debug" || value == "trace"
  }

  predicate LogFieldChar(c: char) {
    'a' <= c <= 'z' || 'A' <= c <= 'Z' || '0' <= c <= '9' || c == '_' || c == '.' || c == '-'
  }

  predicate LogField(value: string) {
    && 1 <= |value| <= 64 && ('a' <= value[0] <= 'z' || 'A' <= value[0] <= 'Z')
    && forall i :: 0 <= i < |value| ==> LogFieldChar(value[i])
  }

  /** One optional logging flag of the recovery command line. */
  function DropFlag(rest: seq<string>, flag: string, level: bool): Option<seq<string>> {
    if rest == [] || !HasPrefix(rest[0], flag) then Some(rest)
    else
      var value := rest[0][|flag|..];
      if (if level then LogLevel(value) else LogField(value)) then Some(rest[1..]) else None
  }

  predicate LogFlags(rest: seq<string>) {
    var a := DropFlag(rest, "--log-level=", true);
    a.Some? &&
    var b := DropFlag(a.value, "--log-field-level=", false);
    b.Some? &&
    var c := DropFlag(b.value, "--log-field-timestamp=", false);
    c.Some? && c.value == []
  }

  function RestoreArgv(wal: bool): seq<string> {
    ["/controller/manager", "instance", "restore"] +
    (if wal then ["--pg-wal", "/var/lib/postgresql/wal/pg_wal"] else [])
  }

  /** WrapArgv admits exactly the recovery generator's argv. */
  predicate Wrappable(argv: seq<string>, wal: bool) {
    RestoreArgv(wal) <= argv && LogFlags(argv[|RestoreArgv(wal)|..])
  }

  function Wrapped(argv: seq<string>): seq<string> {
    [HELPER, "recovery-guard", "--"] + argv
  }

  lemma UnwrapWrapped(argv: seq<string>)
    ensures Unwrapped(Wrapped(argv)) == argv
  {
    assert Wrapped(argv)[3..] == argv;
  }

  // ---------------------------------------------------------------- target mounts

  function Lower(c: char): char {
    if 'A' <= c <= 'Z' then c + ' ' else if c == '_' || c == '$' then '-' else c
  }

  function LowerAll(s: string): string {
    if s == "" then "" else [Lower(s[0])] + LowerAll(s[1..])
  }

  function TablespaceVolume(name: string): string {
    "tbs-" + LowerAll(if HasPrefix(name, "_") then "1" + name[1..] else name)
  }

  function TablespaceTargets(tables: seq<string>): map<string, string> {
    if tables == [] then map[]
    else TablespaceTargets(tables[..|tables| - 1])
           [TablespaceVolume(tables[|tables| - 1]) := DATABASE + "tablespaces/" + tables[|tables| - 1]]
  }

  /** The database mounts the Pod must have, by volume name. */
  function Targets(r: Request): map<string, string> {
    map["pgdata" := DATABASE + "data"] +
    (if r.wal then map["pg-wal" := DATABASE + "wal"] else map[]) +
    TablespaceTargets(r.tablespaces)
  }

  datatype Verdict = Skip | Take(pvc: string) | Refuse

  /** One main-container mount against the targets not yet seen. */
  function Judge(m: Mount, targets: map<string, string>, vs: seq<Volume>, r: Request, recovery: bool): Verdict {
    if m.name !in targets then
      if HasPrefix(m.name, "tbs-") || HasPrefix(m.path, DATABASE) then Refuse else Skip
    else if m.path != targets[m.name] || m.subPath != "" || m.subPathExpr != "" || m.readOnly || m.propagation then Refuse
    else
      var v := VolumeNamed(vs, m.name);
      if v.None? || !v.value.source.Claim? || v.value.source.readOnly then Refuse
      else if !recovery then Take("")
      else if v.value.source.claim in r.pvcs then Take(r.pvcs[v.value.source.claim])
      else Refuse
  }

  /** The data mounts in order, the PVCs to guard, and the targets not seen. */
  datatype Found = Found(data: seq<Mount>, guard: seq<(string, string)>, missing: map<string, string>)

  function Prepend(m: Mount, pvc: string, f: Option<Found>): Option<Found> {
    if f.None? then None else Some(Found([m] + f.value.data, [(pvc, m.path)] + f.value.guard, f.value.missing))
  }

  function FindTargets(ms: seq<Mount>, targets: map<string, string>, vs: seq<Volume>, r: Request, recovery: bool): Option<Found> {
    if ms == [] then Some(Found([], [], targets))
    else
      match Judge(ms[0], targets, vs, r, recovery)
      case Refuse => None
      case Skip => FindTargets(ms[1..], targets, vs, r, recovery)
      case Take(pvc) => Prepend(ms[0], pvc, FindTargets(ms[1..], targets - {ms[0].name}, vs, r, recovery))
  }

  /** The mount loop. */
  method FindTargetsLoop(ms: seq<Mount>, r: Request, vs: seq<Volume>, recovery: bool) returns (ok: bool, f: Found)
    ensures ok <==> FindTargets(ms, Targets(r), vs, r, recovery).Some?
    ensures ok ==> Some(f) == FindTargets(ms, Targets(r), vs, r, recovery)
  {
    var targets := Targets(r);
    var data, guard := [], [];
    assert ms[0..] == ms;
    OntoNothing(FindTargets(ms, targets, vs, r, recovery));
    for i := 0 to |ms|
      invariant FindTargets(ms, Targets(r), vs, r, recovery) == Onto(data, guard, FindTargets(ms[i..], targets, vs, r, recovery))
    {
      assert ms[i..][1..] == ms[i + 1..];
      match Judge(ms[i], targets, vs, r, recovery) {
        case Refuse =>
          return false, Found([], [], map[]);
        case Skip =>
        case Take(pvc) =>
          OntoStep(data, guard, ms[i], pvc, FindTargets(ms[i + 1..], targets - {ms[i].name}, vs, r, recovery));
          data, guard, targets := data + [ms[i]], guard + [(pvc, ms[i].path)], targets - {ms[i].name};
      }
    }
    assert data + [] == data && guard + [] == guard;
    return true, Found(data, guard, targets);
  }

  ghost function Onto(data: seq<Mount>, guard: seq<(string, string)>, f: Option<Found>): Option<Found> {
    if f.None? then None else Some(Found(data + f.value.data, guard + f.value.guard, f.value.missing))
  }

  lemma OntoNothing(f: Option<Found>)
    ensures Onto([], [], f) == f
  {
    if f.Some? {
      assert [] + f.value.data == f.value.data && [] + f.value.guard == f.value.guard;
    }
  }

  lemma OntoStep(data: seq<Mount>, guard: seq<(string, string)>, m: Mount, pvc: string, f: Option<Found>)
    ensures Onto(data, guard, Prepend(m, pvc, f)) == Onto(data + [m], guard + [(pvc, m.path)], f)
  {
    if f.Some? {
      assert data + ([m] + f.value.data) == data + [m] + f.value.data;
      assert guard + ([(pvc, m.path)] + f.value.guard) == guard + [(pvc, m.path)] + f.value.guard;
    }
  }

  // ---------------------------------------------------------------- what is put in

  function OwnedVolumes(r: Request, recovery: bool): seq<Volume> {
    [Volume(PLUGINS, EmptyDir(1)), Volume(BIN, EmptyDir(128)), Volume(STATE, EmptyDir(64)),
     Volume(PROJECTION, Projected(if recovery then r.recoveryConfig else r.instanceConfig)),
     Volume(WORK, Ephemeral(r.storageClass, r.storageSize))] +
    (if recovery then [Volume(CONFIG, ConfigMap(r.name + "-cb-targets"))] else [])
  }

  const CONFIG_MOUNT := Mount(CONFIG, "/cnpg-backup/config", "", "", true, false)

  function MainMounts(recovery: bool): seq<Mount> {
    [Mount(PLUGINS, "/plugins", "plugins", "", false, false),
     Mount(BIN, "/cnpg-backup/bin", "", "", true, false),
     Mount(STATE, "/cnpg-backup/state", "", "", true, false)] +
    (if recovery then [CONFIG_MOUNT] else [])
  }

  function OwnMounts(recovery: bool): seq<Mount> {
    [Mount(PLUGINS, "/plugins", "plugins", "", false, false),
     Mount(BIN, "/cnpg-backup/bin", "", "", false, false),
     Mount(STATE, "/cnpg-backup/state", "", "", false, false),
     Mount(PROJECTION, "/cnpg-backup/projection", "", "", true, false),
     Mount(WORK, "/cnpg-backup/work", "", "", false, false)] +
    (if recovery then [CONFIG_MOUNT] else [])
  }

  function Mode(recovery: bool): string {
    if recovery then "recovery-job" else "instance"
  }

  const POD_UID := Env("POD_UID", PodUidField)

  function Sidecar(r: Request, recovery: bool, data: seq<Mount>): Container {
    Container(SIDECAR, ["/usr/local/bin/cnpg-backup", Mode(recovery)], [], [POD_UID], data + OwnMounts(recovery),
              Some(r.user), Some(r.group), r.sidecarDetails)
  }

  function Preparer(r: Request): Container {
    Container(PREPARER, ["/usr/local/bin/cnpg-backup", "instance", "--prepare-socket"], [], [],
              [Mount(PLUGINS, "/cnpg-backup/socket-root", "", "", false, false)], Some(r.user), Some(r.group), r.preparerDetails)
  }

  function FindEnv(env: seq<Env>, name: string): (i: nat)
    ensures i <= |env| && (i < |env| ==> env[i].name == name)
    ensures forall k :: 0 <= k < i ==> env[k].name != name
  {
    if env == [] || env[0].name == name then 0
    else
      var r := FindEnv(env[1..], name);
      assert forall k :: 0 < k < r + 1 ==> env[k] == env[1..][k - 1];
      r + 1
  }

  predicate EnvFits(env: seq<Env>) {
    var i := FindEnv(env, "POD_UID");
    i < |env| ==> env[i] == POD_UID
  }

  function EnvPut(env: seq<Env>): seq<Env> {
    if FindEnv(env, "POD_UID") < |env| then env else env + [POD_UID]
  }

  /** guard.Validate over the recovery targets. */
  predicate GuardValid(guard: seq<(string, string)>, r: Request) {
    && r.identityOk && 1 <= |guard| <= 66
    && (forall i :: 0 <= i < |guard| ==> guard[i].0 in r.uuids)
    && (forall i, j :: 0 <= i < j < |guard| ==> guard[i].0 != guard[j].0 && guard[i].1 != guard[j].1)
    && (exists i :: 0 <= i < |guard| && guard[i].1 == DATABASE + "data")
  }

  function NewMain(main: Container, recovery: bool): Container {
    var mounted := main.(mounts := PutMounts(main.mounts, MainMounts(recovery)));
    if recovery then mounted.(command := Wrapped(Unwrapped(Argv(main))), args := [], env := EnvPut(main.env)) else mounted
  }

  /** The order and ownership the init containers must have. */
  predicate InitFits(init: seq<Container>, owned: bool) {
    var i, j := FindContainer(init, SIDECAR), FindContainer(init, PREPARER);
    && (i < |init| ==> owned && j < |init|)
    && (j < |init| ==> owned && i < |init| && j < i)
  }

  function NewInit(init: seq<Container>, preparer: Container, sidecar: Container): seq<Container>
    requires FindContainer(init, SIDECAR) < |init| ==> FindContainer(init, PREPARER) < |init|
  {
    var i, j := FindContainer(init, SIDECAR), FindContainer(init, PREPARER);
    if i < |init| then init[i := sidecar][j := preparer] else init + [preparer, sidecar]
  }

  function NewAnnotations(a: map<string, string>, r: Request, recovery: bool): map<string, string> {
    (if recovery then a[OPERATION := r.operation] else a)
      [OWNER := r.uid][CONFIGURED := if recovery then r.recoveryConfig else r.instanceConfig]
  }

  predicate Owned(p: Pod, r: Request) {
    OWNER in p.annotations && p.annotations[OWNER] == r.uid
  }

  // ---------------------------------------------------------------- the rewrite

  predicate IdentityOK(p: Pod, r: Request) {
    && !p.hostPid && !p.sharedPid
    && p.security.Some? && p.security.value.user == Some(r.user) && p.security.value.group == Some(r.group)
  }

  predicate MainOK(main: Container, p: Pod, r: Request) {
    && (main.user.Some? ==> main.user.value == r.user) && (main.group.Some? ==> main.group.value == r.group)
    && ManagerArgv(Unwrapped(Argv(main)))
    && (p.recoveryJob ==> Unwrapped(Argv(main))[2] == "restore")
  }

  predicate IsRecovery(main: Container) {
    var argv := Unwrapped(Argv(main));
    |argv| >= 3 && argv[2] == "restore"
  }

  predicate AnswersOK(r: Request, recovery: bool) {
    r.destinationOk && if recovery then r.sourceOk else r.secretsOk
  }

  /** The mounts found are all the targets, and recovery can guard them. */
  predicate TargetsOK(main: Container, vs: seq<Volume>, r: Request) {
    var recovery := IsRecovery(main);
    var f := FindTargets(main.mounts, Targets(r), vs, r, recovery);
    && f.Some? && f.value.missing == map[]
    && (recovery ==> GuardValid(f.value.guard, r) && Wrappable(Unwrapped(Argv(main)), r.wal) && EnvFits(main.env))
  }

  predicate VolumesFit(vs: seq<Volume>, list: seq<Volume>, owned: bool) {
    owned || forall i :: 0 <= i < |list| ==> !HasVolume(vs, list[i].name)
  }

  predicate ListsFit(p: Pod, main: Container, r: Request) {
    && VolumesFit(p.volumes, OwnedVolumes(r, IsRecovery(main)), Owned(p, r))
    && MountsFit(main.mounts, MainMounts(IsRecovery(main)), Owned(p, r))
    && InitFits(p.init, Owned(p, r))
  }

  /** The checks made before anything is edited. */
  ghost predicate Admitted(p: Pod, r: Request) {
    && UniqueNames(p) && IdentityOK(p, r) && MainIndex(p.containers) < |p.containers|
    && FindContainer(p.containers, SIDECAR) == |p.containers|
    && var main := p.containers[MainIndex(p.containers)];
       MainOK(main, p, r) && AnswersOK(r, IsRecovery(main)) && TargetsOK(main, p.volumes, r)
  }

  function MainOf(p: Pod): Container
    requires MainIndex(p.containers) < |p.containers|
  {
    p.containers[MainIndex(p.containers)]
  }

  ghost predicate Placeable(p: Pod, r: Request) {
    Admitted(p, r) && ListsFit(p, MainOf(p), r)
  }

  function DataMounts(main: Container, vs: seq<Volume>, r: Request): seq<Mount>
    requires TargetsOK(main, vs, r)
  {
    FindTargets(main.mounts, Targets(r), vs, r, IsRecovery(main)).value.data
  }

  /** The edits, given the data mounts the sidecar is to have. */
  function Edited(p: Pod, r: Request, data: seq<Mount>): Pod
    requires MainIndex(p.containers) < |p.containers| && p.security.Some? && InitFits(p.init, Owned(p, r))
  {
    var main := MainOf(p);
    var recovery := IsRecovery(main);
    p.(init := NewInit(p.init, Preparer(r), Sidecar(r, recovery, data)),
       containers := p.containers[MainIndex(p.containers) := NewMain(main, recovery)],
       volumes := PutVolumes(p.volumes, OwnedVolumes(r, recovery)),
       security := Some(p.security.value.(fsPolicy := ON_ROOT_MISMATCH)),
       annotations := NewAnnotations(p.annotations, r, recovery))
  }

  ghost function Placed(p: Pod, r: Request): Pod
    requires Placeable(p, r)
  {
    Edited(p, r, DataMounts(MainOf(p), p.volumes, r))
  }

  // ---------------------------------------------------------------- the rewrite in place

  class Template {
    var init: seq<Container>
    var containers: seq<Container>
    var volumes: seq<Volume>
    var hostPid: bool
    var sharedPid: bool
    var security: Option<Security>
    var annotations: map<string, string>
    var recoveryJob: bool

    function View(): Pod
      reads this
    {
      Pod(init, containers, volumes, hostPid, sharedPid, security, annotations, recoveryJob)
    }

    constructor (p: Pod)
      ensures View() == p
    {
      init, containers, volumes, hostPid, sharedPid := p.init, p.containers, p.volumes, p.hostPid, p.sharedPid;
      security, annotations, recoveryJob := p.security, p.annotations, p.recoveryJob;
    }

    /** The read-only checks, in the order of the source. */
    method Admit(r: Request) returns (ok: bool, data: seq<Mount>)
      ensures ok <==> Admitted(View(), r)
      ensures ok ==> data == DataMounts(MainOf(View()), volumes, r)
    {
      data := [];
      ok := CheckUniqueNames(View());
      var k := MainIndex(containers);
      if !ok || !IdentityOK(View(), r) || k == |containers| {
        return false, data;
      }
      var main := containers[k];
      var recovery := IsRecovery(main);
      if !MainOK(main, View(), r) || !AnswersOK(r, recovery) || FindContainer(containers, SIDECAR) < |containers| {
        return false, data;
      }
      var found, f := FindTargetsLoop(main.mounts, r, volumes, recovery);
      if !found || f.missing != map[] {
        return false, data;
      }
      if recovery {
        if !GuardValid(f.guard, r) || !Wrappable(Unwrapped(Argv(main)), r.wal) || !EnvFits(main.env) {
          return false, data;
        }
      }
      return true, f.data;
    }

    method EditVolumes(r: Request, recovery: bool, owned: bool) returns (ok: bool)
      modifies this`volumes
      ensures ok <==> VolumesFit(old(volumes), OwnedVolumes(r, recovery), owned)
      ensures ok ==> volumes == PutVolumes(old(volumes), OwnedVolumes(r, recovery))
    {
      OwnedVolumesUnique(r, recovery);
      ok, volumes := PutVolumesLoop(volumes, OwnedVolumes(r, recovery), owned);
    }

    method EditMain(k: nat, recovery: bool, owned: bool) returns (ok: bool)
      requires k < |containers|
      modifies this`containers
      ensures ok <==> MountsFit(old(containers)[k].mounts, MainMounts(recovery), owned)
      ensures ok ==> containers == old(containers)[k := NewMain(old(containers)[k], recovery)]
    {
      var main := containers[k];
      if recovery {
        main := main.(command := Wrapped(Unwrapped(Argv(main))), args := [], env := EnvPut(main.env));
      }
      var mounts;
      ok, mounts := PutMountsLoop(main.mounts, MainMounts(recovery), owned);
      if ok {
        containers := containers[k := main.(mounts := mounts)];
      }
    }

    method EditInit(preparer: Container, sidecar: Container, owned: bool) returns (ok: bool)
      modifies this`init
      ensures ok <==> InitFits(old(init), owned)
      ensures ok ==> init == NewInit(old(init), preparer, sidecar)
    {
      var i, j := FindContainer(init, SIDECAR), FindContainer(init, PREPARER);
      if i < |init| && !owned {
        return false;
      }
      if j < |init| && (!owned || i == |init| || j >= i) {
        return false;
      }
      if i < |init| && j == |init| {
        return false;
      }
      if i < |init| {
        init := init[i := sidecar];
        init := init[j := preparer];
      } else {
        init := init + [preparer, sidecar];
      }
      return true;
    }

    method EditBody(r: Request, k: nat, recovery: bool, owned: bool) returns (ok: bool)
      requires k < |containers|
      modifies this`volumes, this`containers
      ensures ok <==> && VolumesFit(old(volumes), OwnedVolumes(r, recovery), owned)
                      && MountsFit(old(containers)[k].mounts, MainMounts(recovery), owned)
      ensures ok ==> && volumes == PutVolumes(old(volumes), OwnedVolumes(r, recovery))
                     && containers == old(containers)[k := NewMain(old(containers)[k], recovery)]
    {
      ok := EditVolumes(r, recovery, owned);
      if ok {
        ok := EditMain(k, recovery, owned);
      }
    }

    method EditRest(r: Request, recovery: bool, owned: bool, data: seq<Mount>) returns (ok: bool)
      requires security.Some?
      modifies this`init, this`security, this`annotations
      ensures ok <==> InitFits(old(init), owned)
      ensures ok ==> && init == NewInit(old(init), Preparer(r), Sidecar(r, recovery, data))
                     && security == Some(old(security).value.(fsPolicy := ON_ROOT_MISMATCH))
                     && annotations == NewAnnotations(old(annotations), r, recovery)
    {
      security := Some(security.value.(fsPolicy := ON_ROOT_MISMATCH));
      ok := EditInit(Preparer(r), Sidecar(r, recovery, data), owned);
      if ok {
        annotations := NewAnnotations(annotations, r, recovery);
      }
    }

    method EditAll(r: Request, k: nat, recovery: bool, owned: bool, data: seq<Mount>) returns (ok: bool)
      requires k < |containers| && security.Some?
      modifies this`init, this`containers, this`volumes, this`security, this`annotations
      ensures ok <==> && VolumesFit(old(volumes), OwnedVolumes(r, recovery), owned)
                      && MountsFit(old(containers)[k].mounts, MainMounts(recovery), owned)
                      && InitFits(old(init), owned)
      ensures ok ==> && volumes == PutVolumes(old(volumes), OwnedVolumes(r, recovery))
                     && containers == old(containers)[k := NewMain(old(containers)[k], recovery)]
                     && init == NewInit(old(init), Preparer(r), Sidecar(r, recovery, data))
                     && security == Some(old(security).value.(fsPolicy := ON_ROOT_MISMATCH))
                     && annotations == NewAnnotations(old(annotations), r, recovery)
    {
      ok := EditBody(r, k, recovery, owned);
      if ok {
        ok := EditRest(r, recovery, owned, data);
      }
    }

    /** inject: on success the template is the placed Pod; a failed template is discarded. */
    method Inject(r: Request) returns (ok: bool)
      modifies this
      ensures ok <==> Placeable(old(View()), r)
      ensures ok ==> View() == Placed(old(View()), r)
    {
      ghost var p := View();
      var data;
      ok, data := Admit(r);
      if !ok {
        return;
      }
      var k := MainIndex(containers);
      var recovery, owned := IsRecovery(containers[k]), Owned(View(), r);
      FitsIsPlaceable(p, r, k, recovery, owned);
      ok := EditAll(r, k, recovery, owned, data);
      if ok {
        PlacedIs(p, View(), r, k, recovery, data);
      }
    }
  }

  lemma FitsIsPlaceable(p: Pod, r: Request, k: nat, recovery: bool, owned: bool)
    requires Admitted(p, r) && k == MainIndex(p.containers) && recovery == IsRecovery(p.containers[k]) && owned == Owned(p, r)
    ensures Placeable(p, r) <==> && VolumesFit(p.volumes, OwnedVolumes(r, recovery), owned)
                                 && MountsFit(p.containers[k].mounts, MainMounts(recovery), owned)
                                 && InitFits(p.init, owned)
  {
  }

  lemma PlacedIs(p: Pod, q: Pod, r: Request, k: nat, recovery: bool, data: seq<Mount>)
    requires Placeable(p, r) && k == MainIndex(p.containers) && recovery == IsRecovery(p.containers[k])
    requires data == DataMounts(MainOf(p), p.volumes, r)
    requires q.volumes == PutVolumes(p.volumes, OwnedVolumes(r, recovery))
    requires q.containers == p.containers[k := NewMain(p.containers[k], recovery)]
    requires q.init == NewInit(p.init, Preparer(r), Sidecar(r, recovery, data))
    requires q.security == Some(p.security.value.(fsPolicy := ON_ROOT_MISMATCH))
    requires q.annotations == NewAnnotations(p.annotations, r, recovery)
    requires q.hostPid == p.hostPid && q.sharedPid == p.sharedPid && q.recoveryJob == p.recoveryJob
    ensures q == Placed(p, r)
  {
  }

  lemma OwnedVolumesUnique(r: Request, recovery: bool)
    ensures VolumesUnique(OwnedVolumes(r, recovery))
  {
    var list := OwnedVolumes(r, recovery);
    assert |PLUGINS| == 19 && |BIN| == 15 && |STATE| == 17 && |PROJECTION| == 22 && |WORK| == 16 && |CONFIG| == 18;
  }
}
