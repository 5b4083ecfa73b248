/** What the Pod rewrite keeps: foreign content and order, and its own result. */
module PlacementSafety {
  import opened Basics
  import opened PodLists
  import opened Placement

  // ---------------------------------------------------------------- the lists that are put in

  lemma OwnNames(r: Request, recovery: bool)
    ensures forall i :: 0 <= i < |OwnedVolumes(r, recovery)| ==> OwnedVolumes(r, recovery)[i].name in OWNED_VOLUMES
    ensures forall i :: 0 <= i < |MainMounts(recovery)| ==> MainMounts(recovery)[i].name in OWNED_VOLUMES
  {
  }

  lemma MainMountsApart(recovery: bool)
    ensures Apart(MainMounts(recovery))
  {
    var list := MainMounts(recovery);
    assert |PLUGINS| == 19 && |BIN| == 15 && |STATE| == 17 && |CONFIG| == 18;
    assert |"/plugins"| == 8 && |"/cnpg-backup/bin"| == 16 && |"/cnpg-backup/state"| == 18 && |"/cnpg-backup/config"| == 19;
    assert list[0].name == PLUGINS && list[1].name == BIN && list[2].name == STATE;
    assert recovery ==> list[3].name == CONFIG;
  }

  /** No owned name or path can be mistaken for a database target. */
  predicate Outside(m: Mount) {
    !HasPrefix(m.name, "tbs-") && !HasPrefix(m.path, DATABASE)
  }

  lemma StartsOutside(name: string, path: string)
    requires |name| > 0 && name[0] == 'c' && |path| > 1 && path[1] != 'v'
    ensures !HasPrefix(name, "tbs-") && !HasPrefix(path, DATABASE)
  {
  }

  lemma MainMountsOutside(recovery: bool)
    ensures forall i :: 0 <= i < |MainMounts(recovery)| ==> Outside(MainMounts(recovery)[i])
  {
    StartsOutside(PLUGINS, "/plugins");
    StartsOutside(BIN, "/cnpg-backup/bin");
    StartsOutside(STATE, "/cnpg-backup/state");
    StartsOutside(CONFIG, "/cnpg-backup/config");
  }

  lemma {:induction false} TablespaceTargetNames(tables: seq<string>, k: string)
    requires k in TablespaceTargets(tables)
    ensures |k| > 0 && k[0] == 't' && HasPrefix(TablespaceTargets(tables)[k], DATABASE)
  {
    var n := |tables| - 1;
    if k == TablespaceVolume(tables[n]) {
      var path := DATABASE + "tablespaces/" + tables[n];
      assert path == DATABASE + ("tablespaces/" + tables[n]);
      assert path[..|DATABASE|] == DATABASE;
    } else {
      TablespaceTargetNames(tables[..n], k);
    }
  }

  lemma TargetNames(r: Request, k: string)
    requires k in Targets(r)
    ensures k !in OWNED_VOLUMES && HasPrefix(Targets(r)[k], DATABASE)
  {
    if k in TablespaceTargets(r.tablespaces) {
      TablespaceTargetNames(r.tablespaces, k);
    } else {
      assert (DATABASE + "data")[..|DATABASE|] == DATABASE && (DATABASE + "wal")[..|DATABASE|] == DATABASE;
      assert k == "pgdata" || k == "pg-wal";
    }
  }

  // ---------------------------------------------------------------- the targets found do not change

  ghost predicate OwnedOutside(ms: seq<Mount>) {
    forall i :: 0 <= i < |ms| && ms[i].name in OWNED_VOLUMES ==> Outside(ms[i])
  }

  ghost predicate Foreign(targets: map<string, string>) {
    forall k :: k in targets ==> k !in OWNED_VOLUMES
  }

  /** The loop over the mounts passes the owned ones by. */
  lemma {:induction false} OwnedMountsSkipped(ms: seq<Mount>, targets: map<string, string>, vs: seq<Volume>, r: Request, recovery: bool)
    requires Foreign(targets) && OwnedOutside(ms)
    ensures FindTargets(ms, targets, vs, r, recovery) == FindTargets(OtherMounts(ms, OWNED_VOLUMES), targets, vs, r, recovery)
    decreases |ms|
  {
    if ms != [] {
      var rest := ms[1..];
      forall i | 0 <= i < |rest| && rest[i].name in OWNED_VOLUMES ensures Outside(rest[i]) {
        assert rest[i] == ms[i + 1];
      }
      OwnedMountsSkipped(rest, targets, vs, r, recovery);
      OwnedMountsSkipped(rest, targets - {ms[0].name}, vs, r, recovery);
      var others := OtherMounts(ms, OWNED_VOLUMES);
      if ms[0].name in OWNED_VOLUMES {
        assert others == OtherMounts(rest, OWNED_VOLUMES);
        assert Judge(ms[0], targets, vs, r, recovery) == Skip;
      } else {
        assert others[0] == ms[0] && others[1..] == OtherMounts(rest, OWNED_VOLUMES);
      }
    }
  }

  /** A loop that succeeds met no owned mount inside the database. */
  lemma {:induction false} SuccessMeansOutside(ms: seq<Mount>, targets: map<string, string>, vs: seq<Volume>, r: Request, recovery: bool)
    requires Foreign(targets) && FindTargets(ms, targets, vs, r, recovery).Some?
    ensures OwnedOutside(ms)
    decreases |ms|
  {
    if ms != [] {
      var rest := ms[1..];
      if Judge(ms[0], targets, vs, r, recovery) == Skip {
        SuccessMeansOutside(rest, targets, vs, r, recovery);
      } else {
        SuccessMeansOutside(rest, targets - {ms[0].name}, vs, r, recovery);
      }
      forall i | 0 <= i < |ms| && ms[i].name in OWNED_VOLUMES ensures Outside(ms[i]) {
        if i > 0 {
          assert rest[i - 1] == ms[i];
        }
      }
    }
  }

  /** Only the volumes of the targets matter. */
  lemma {:induction false} SameVolumesSameTargets(ms: seq<Mount>, targets: map<string, string>, vs: seq<Volume>, vs': seq<Volume>, r: Request, recovery: bool)
    requires forall k :: k in targets ==> VolumeNamed(vs', k) == VolumeNamed(vs, k)
    ensures FindTargets(ms, targets, vs', r, recovery) == FindTargets(ms, targets, vs, r, recovery)
    decreases |ms|
  {
    if ms != [] {
      SameVolumesSameTargets(ms[1..], targets, vs, vs', r, recovery);
      SameVolumesSameTargets(ms[1..], targets - {ms[0].name}, vs, vs', r, recovery);
    }
  }

  lemma {:induction false} PutMountsOutside(ms: seq<Mount>, list: seq<Mount>)
    requires OwnedOutside(ms) && forall i :: 0 <= i < |list| ==> Outside(list[i])
    ensures OwnedOutside(PutMounts(ms, list))
  {
    if list != [] {
      var k := |list| - 1;
      PutMountsOutside(ms, list[..k]);
    }
  }

  /** The rewritten mounts and volumes show the same targets. */
  lemma TargetsStay(ms: seq<Mount>, vs: seq<Volume>, r: Request, recovery: bool, owned: bool)
    requires PathsUnique(ms) && VolumesUnique(vs) && MountsFit(ms, MainMounts(recovery), owned)
    requires FindTargets(ms, Targets(r), vs, r, recovery).Some?
    ensures FindTargets(PutMounts(ms, MainMounts(recovery)), Targets(r), PutVolumes(vs, OwnedVolumes(r, recovery)), r, recovery)
            == FindTargets(ms, Targets(r), vs, r, recovery)
  {
    var targets := Targets(r);
    var ms', vs' := PutMounts(ms, MainMounts(recovery)), PutVolumes(vs, OwnedVolumes(r, recovery));
    forall k | k in targets ensures k !in OWNED_VOLUMES {
      TargetNames(r, k);
    }
    OwnNames(r, recovery);
    SuccessMeansOutside(ms, targets, vs, r, recovery);
    MainMountsOutside(recovery);
    PutMountsOutside(ms, MainMounts(recovery));
    PutMountsFrame(ms, MainMounts(recovery), owned, OWNED_VOLUMES);
    OwnedMountsSkipped(ms, targets, vs, r, recovery);
    OwnedMountsSkipped(ms', targets, vs, r, recovery);
    PutVolumesFrame(vs, OwnedVolumes(r, recovery), OWNED_VOLUMES);
    SameVolumesSameTargets(ms', targets, vs, vs', r, recovery);
  }

  // ---------------------------------------------------------------- the sidecar's own mounts

  ghost predicate InDatabase(ms: seq<Mount>) {
    forall i :: 0 <= i < |ms| ==> HasPrefix(ms[i].path, DATABASE)
  }

  ghost predicate TargetsInDatabase(targets: map<string, string>) {
    forall k :: k in targets ==> HasPrefix(targets[k], DATABASE)
  }

  /** The data mounts are mounts of the main container, inside the database, and distinct. */
  lemma {:induction false} DataMountsDistinct(ms: seq<Mount>, targets: map<string, string>, vs: seq<Volume>, r: Request, recovery: bool)
    requires PathsUnique(ms) && TargetsInDatabase(targets) && FindTargets(ms, targets, vs, r, recovery).Some?
    ensures var data := FindTargets(ms, targets, vs, r, recovery).value.data;
            PathsUnique(data) && InDatabase(data) && forall m :: m in data ==> m in ms
    decreases |ms|
  {
    if ms != [] {
      var rest := ms[1..];
      var v := Judge(ms[0], targets, vs, r, recovery);
      if v == Skip {
        DataMountsDistinct(rest, targets, vs, r, recovery);
      } else {
        DataMountsDistinct(rest, targets - {ms[0].name}, vs, r, recovery);
        PrependDistinct(ms, FindTargets(rest, targets - {ms[0].name}, vs, r, recovery).value.data);
      }
    }
  }

  lemma PrependDistinct(ms: seq<Mount>, data: seq<Mount>)
    requires ms != [] && PathsUnique(ms) && PathsUnique(data) && forall m :: m in data ==> m in ms[1..]
    ensures PathsUnique([ms[0]] + data) && forall m :: m in [ms[0]] + data ==> m in ms
  {
    forall i | 0 <= i < |data| ensures data[i].path != ms[0].path {
      assert data[i] in ms[1..];
      var k :| 0 <= k < |ms[1..]| && ms[1..][k] == data[i];
      assert ms[k + 1] == data[i];
    }
  }

  lemma OwnMountsOutside(recovery: bool)
    ensures forall i :: 0 <= i < |OwnMounts(recovery)| ==> Outside(OwnMounts(recovery)[i])
  {
    StartsOutside(PLUGINS, "/plugins");
    StartsOutside(BIN, "/cnpg-backup/bin");
    StartsOutside(STATE, "/cnpg-backup/state");
    StartsOutside(PROJECTION, "/cnpg-backup/projection");
    StartsOutside(WORK, "/cnpg-backup/work");
    StartsOutside(CONFIG, "/cnpg-backup/config");
  }

  /** Paths of different lengths are different. */
  lemma LengthsApart(ms: seq<Mount>)
    requires forall i, j :: 0 <= i < j < |ms| ==> |ms[i].path| != |ms[j].path|
    ensures PathsUnique(ms)
  {
  }

  lemma OwnMountsDistinct(recovery: bool)
    ensures PathsUnique(OwnMounts(recovery))
  {
    var list := OwnMounts(recovery);
    assert |list[0].path| == 8 && |list[1].path| == 16 && |list[2].path| == 18;
    assert |list[3].path| == 23 && |list[4].path| == 17;
    assert recovery ==> |list[5].path| == 19;
    LengthsApart(list);
  }

  lemma SidecarPathsUnique(main: Container, vs: seq<Volume>, r: Request)
    requires PathsUnique(main.mounts) && TargetsOK(main, vs, r)
    ensures PathsUnique(Sidecar(r, IsRecovery(main), DataMounts(main, vs, r)).mounts)
  {
    var recovery, data := IsRecovery(main), DataMounts(main, vs, r);
    forall k | k in Targets(r) ensures HasPrefix(Targets(r)[k], DATABASE) {
      TargetNames(r, k);
    }
    DataMountsDistinct(main.mounts, Targets(r), vs, r, recovery);
    OwnMountsDistinct(recovery);
    OwnMountsOutside(recovery);
  }

  // ---------------------------------------------------------------- the main container

  lemma {:induction false} FirstMainByNames(cs: seq<Container>, cs': seq<Container>)
    requires |cs| == |cs'| && forall i :: 0 <= i < |cs| ==> cs'[i].name == cs[i].name
    ensures FirstMain(cs') == FirstMain(cs)
    decreases |cs|
  {
    if cs != [] {
      FirstMainByNames(cs[1..], cs'[1..]);
    }
  }

  lemma FindContainerIs(cs: seq<Container>, name: string, i: nat)
    requires i <= |cs| && (i < |cs| ==> cs[i].name == name)
    requires forall k :: 0 <= k < i ==> cs[k].name != name
    ensures FindContainer(cs, name) == i
  {
  }

  lemma ArgvStays(main: Container, recovery: bool)
    ensures Unwrapped(Argv(NewMain(main, recovery))) == Unwrapped(Argv(main))
    ensures IsRecovery(NewMain(main, recovery)) == IsRecovery(main)
  {
    if recovery {
      var argv := Unwrapped(Argv(main));
      assert Argv(NewMain(main, recovery)) == Wrapped(argv);
      UnwrapWrapped(argv);
    }
  }

  lemma EnvTwice(env: seq<Env>)
    requires EnvFits(env)
    ensures EnvFits(EnvPut(env)) && EnvPut(EnvPut(env)) == EnvPut(env)
  {
    var i := FindEnv(env, "POD_UID");
    if i == |env| {
      var now := EnvPut(env);
      assert now[|env|] == POD_UID;
      assert FindEnv(now, "POD_UID") == |env|;
    }
  }

  lemma NewMainTwice(main: Container, recovery: bool, owned: bool)
    requires MountsFit(main.mounts, MainMounts(recovery), owned) && (recovery ==> EnvFits(main.env))
    ensures NewMain(NewMain(main, recovery), recovery) == NewMain(main, recovery)
    ensures MountsFit(NewMain(main, recovery).mounts, MainMounts(recovery), true)
    ensures recovery ==> EnvFits(NewMain(main, recovery).env)
  {
    ArgvStays(main, recovery);
    MainMountsApart(recovery);
    PutMountsTwice(main.mounts, MainMounts(recovery), owned);
    if recovery {
      EnvTwice(main.env);
    }
  }

  // ---------------------------------------------------------------- init containers

  ghost function OtherContainers(cs: seq<Container>, names: set<string>): seq<Container> {
    if cs == [] then []
    else (if cs[0].name in names then [] else [cs[0]]) + OtherContainers(cs[1..], names)
  }

  const OWN_INIT: set<string> := {SIDECAR, PREPARER}

  lemma OwnInitNames()
    ensures SIDECAR != PREPARER
  {
    assert |SIDECAR| == 11 && |PREPARER| == 23;
  }

  lemma {:induction false} OtherContainersUpdate(cs: seq<Container>, i: nat, c: Container, names: set<string>)
    requires i < |cs| && c.name in names && cs[i].name in names
    ensures OtherContainers(cs[i := c], names) == OtherContainers(cs, names)
  {
    if i == 0 {
      assert cs[i := c][1..] == cs[1..];
    } else {
      assert cs[i := c][1..] == cs[1..][i - 1 := c];
      OtherContainersUpdate(cs[1..], i - 1, c, names);
    }
  }

  lemma {:induction false} OtherContainersAppend(cs: seq<Container>, c: Container, names: set<string>)
    requires c.name in names
    ensures OtherContainers(cs + [c], names) == OtherContainers(cs, names)
  {
    if cs == [] {
      assert (cs + [c])[1..] == [];
    } else {
      assert (cs + [c])[1..] == cs[1..] + [c];
      OtherContainersAppend(cs[1..], c, names);
    }
  }

  lemma InitFrame(init: seq<Container>, preparer: Container, sidecar: Container, owned: bool)
    requires InitFits(init, owned) && preparer.name == PREPARER && sidecar.name == SIDECAR
    ensures OtherContainers(NewInit(init, preparer, sidecar), OWN_INIT) == OtherContainers(init, OWN_INIT)
  {
    var i, j := FindContainer(init, SIDECAR), FindContainer(init, PREPARER);
    if i < |init| {
      OtherContainersUpdate(init, i, sidecar, OWN_INIT);
      OtherContainersUpdate(init[i := sidecar], j, preparer, OWN_INIT);
    } else {
      OtherContainersAppend(init, preparer, OWN_INIT);
      OtherContainersAppend(init + [preparer], sidecar, OWN_INIT);
      assert init + [preparer, sidecar] == init + [preparer] + [sidecar];
    }
  }

  /** The pair is found where it was put. */
  lemma InitFound(init: seq<Container>, preparer: Container, sidecar: Container, owned: bool)
    requires InitFits(init, owned) && preparer.name == PREPARER && sidecar.name == SIDECAR
    ensures var now := NewInit(init, preparer, sidecar);
            var i, j := FindContainer(now, SIDECAR), FindContainer(now, PREPARER);
            i < |now| && j < i && now[i] == sidecar && now[j] == preparer
  {
    OwnInitNames();
    var i, j := FindContainer(init, SIDECAR), FindContainer(init, PREPARER);
    var now := NewInit(init, preparer, sidecar);
    if i < |init| {
      FindContainerIs(now, SIDECAR, i);
      FindContainerIs(now, PREPARER, j);
    } else {
      FindContainerIs(now, SIDECAR, |init| + 1);
      FindContainerIs(now, PREPARER, |init|);
    }
  }

  lemma InitTwice(init: seq<Container>, preparer: Container, sidecar: Container, owned: bool)
    requires InitFits(init, owned) && preparer.name == PREPARER && sidecar.name == SIDECAR
    ensures var now := NewInit(init, preparer, sidecar);
            InitFits(now, true) && NewInit(now, preparer, sidecar) == now
  {
    InitFound(init, preparer, sidecar, owned);
  }

  // ---------------------------------------------------------------- names stay unique

  lemma MainRenamesNothing(p: Pod, r: Request)
    requires Placeable(p, r)
    ensures var q := Placed(p, r);
            && |q.containers| == |p.containers|
            && forall i :: 0 <= i < |p.containers| ==> q.containers[i].name == p.containers[i].name
  {
  }

  ghost predicate NoneNamed(cs: seq<Container>, name: string) {
    forall i :: 0 <= i < |cs| ==> cs[i].name != name
  }

  lemma PairUnique(cs: seq<Container>, init: seq<Container>, preparer: Container, sidecar: Container)
    requires ContainersUnique(cs + init) && preparer.name != sidecar.name
    requires NoneNamed(cs + init, preparer.name) && NoneNamed(cs + init, sidecar.name)
    ensures ContainersUnique(cs + (init + [preparer, sidecar]))
  {
    var all, was := cs + (init + [preparer, sidecar]), cs + init;
    assert all == was + [preparer, sidecar];
  }

  lemma SameNamesUnique(cs: seq<Container>, cs': seq<Container>)
    requires ContainersUnique(cs) && |cs| == |cs'| && forall i :: 0 <= i < |cs| ==> cs'[i].name == cs[i].name
    ensures ContainersUnique(cs')
  {
  }

  lemma NoneNamedSplit(cs: seq<Container>, init: seq<Container>, name: string)
    ensures NoneNamed(cs + init, name) <==> NoneNamed(cs, name) && NoneNamed(init, name)
  {
    var all := cs + init;
    if NoneNamed(all, name) {
      assert forall i :: 0 <= i < |cs| ==> cs[i] == all[i];
      assert forall i :: 0 <= i < |init| ==> init[i] == all[|cs| + i];
    }
  }

  lemma FoundMeansNamed(cs: seq<Container>, name: string)
    ensures FindContainer(cs, name) == |cs| <==> NoneNamed(cs, name)
  {
  }

  /** Names after the rewrite, when no ordinary container took the preparer's. */
  lemma ContainersStayUnique(cs: seq<Container>, cs': seq<Container>, init: seq<Container>, preparer: Container, sidecar: Container, owned: bool)
    requires ContainersUnique(cs + init) && InitFits(init, owned) && preparer.name == PREPARER && sidecar.name == SIDECAR
    requires |cs| == |cs'| && forall i :: 0 <= i < |cs| ==> cs'[i].name == cs[i].name
    requires NoneNamed(cs, PREPARER) && NoneNamed(cs, SIDECAR)
    ensures ContainersUnique(cs' + NewInit(init, preparer, sidecar))
  {
    OwnInitNames();
    SameNamesUnique(cs + init, cs' + init);
    FoundMeansNamed(init, SIDECAR);
    FoundMeansNamed(init, PREPARER);
    if FindContainer(init, SIDECAR) < |init| {
      SameNamesUnique(cs' + init, cs' + NewInit(init, preparer, sidecar));
    } else {
      NoneNamedSplit(cs', init, PREPARER);
      NoneNamedSplit(cs', init, SIDECAR);
      PairUnique(cs', init, preparer, sidecar);
    }
  }

  /** Otherwise the names clash. */
  lemma PreparerClash(cs: seq<Container>, cs': seq<Container>, init: seq<Container>, preparer: Container, sidecar: Container, owned: bool)
    requires InitFits(init, owned) && preparer.name == PREPARER && sidecar.name == SIDECAR
    requires |cs| == |cs'| && forall i :: 0 <= i < |cs| ==> cs'[i].name == cs[i].name
    requires !NoneNamed(cs, PREPARER)
    ensures !ContainersUnique(cs' + NewInit(init, preparer, sidecar))
  {
    InitFound(init, preparer, sidecar, owned);
    var now := NewInit(init, preparer, sidecar);
    var i, j :| 0 <= i < |cs| && cs[i].name == PREPARER && j == FindContainer(now, PREPARER);
    var all := cs' + now;
    assert all[i].name == PREPARER && all[|cs'| + j] == now[j];
  }

  // ---------------------------------------------------------------- results

  lemma InitPathsUnique(init: seq<Container>, preparer: Container, sidecar: Container, owned: bool)
    requires InitFits(init, owned) && PathsUnique(preparer.mounts) && PathsUnique(sidecar.mounts)
    requires forall c :: c in init ==> PathsUnique(c.mounts)
    ensures forall c :: c in NewInit(init, preparer, sidecar) ==> PathsUnique(c.mounts)
  {
    var now := NewInit(init, preparer, sidecar);
    forall c | c in now ensures PathsUnique(c.mounts) {
      assert c in init || c == preparer || c == sidecar;
    }
  }

  /** The rewritten Pod has unique names exactly when no ordinary container has the
      preparer's name. */
  lemma UniqueAfter(p: Pod, r: Request)
    requires Placeable(p, r)
    ensures UniqueNames(Placed(p, r)) <==> NoneNamed(p.containers, PREPARER)
  {
    var q, main, owned := Placed(p, r), MainOf(p), Owned(p, r);
    var recovery := IsRecovery(main);
    var sidecar := Sidecar(r, recovery, DataMounts(main, p.volumes, r));
    MainRenamesNothing(p, r);
    FoundMeansNamed(p.containers, SIDECAR);
    if NoneNamed(p.containers, PREPARER) {
      ContainersStayUnique(p.containers, q.containers, p.init, Preparer(r), sidecar, owned);
      PathsAfter(p, r);
    } else {
      PreparerClash(p.containers, q.containers, p.init, Preparer(r), sidecar, owned);
    }
  }

  lemma ContainerPathsUnique(cs: seq<Container>, k: nat, main: Container)
    requires k < |cs| && PathsUnique(main.mounts) && forall c :: c in cs ==> PathsUnique(c.mounts)
    ensures forall c :: c in cs[k := main] ==> PathsUnique(c.mounts)
  {
    forall c | c in cs[k := main] ensures PathsUnique(c.mounts) {
      assert c in cs || c == main;
    }
  }

  lemma PathsAfter(p: Pod, r: Request)
    requires Placeable(p, r)
    ensures var q := Placed(p, r);
            && VolumesUnique(q.volumes)
            && (forall c :: c in q.containers ==> PathsUnique(c.mounts))
            && (forall c :: c in q.init ==> PathsUnique(c.mounts))
  {
    var main, owned := MainOf(p), Owned(p, r);
    var recovery := IsRecovery(main);
    assert main in p.containers;
    OwnNames(r, recovery);
    PutVolumesFrame(p.volumes, OwnedVolumes(r, recovery), OWNED_VOLUMES);
    PutMountsFrame(main.mounts, MainMounts(recovery), owned, OWNED_VOLUMES);
    ContainerPathsUnique(p.containers, MainIndex(p.containers), NewMain(main, recovery));
    SidecarPathsUnique(main, p.volumes, r);
    InitPathsUnique(p.init, Preparer(r), Sidecar(r, recovery, DataMounts(main, p.volumes, r)), owned);
  }

  /** MAIN: volumes and init containers of others keep their content and order. */
  lemma ForeignListsKept(p: Pod, r: Request)
    requires Placeable(p, r)
    ensures OtherVolumes(Placed(p, r).volumes, OWNED_VOLUMES) == OtherVolumes(p.volumes, OWNED_VOLUMES)
    ensures OtherContainers(Placed(p, r).init, OWN_INIT) == OtherContainers(p.init, OWN_INIT)
  {
    var recovery := IsRecovery(MainOf(p));
    OwnNames(r, recovery);
    PutVolumesFrame(p.volumes, OwnedVolumes(r, recovery), OWNED_VOLUMES);
    InitFrame(p.init, Preparer(r), Sidecar(r, recovery, DataMounts(MainOf(p), p.volumes, r)), Owned(p, r));
  }

  lemma MainFrame(main: Container, recovery: bool, owned: bool)
    requires PathsUnique(main.mounts) && MountsFit(main.mounts, MainMounts(recovery), owned)
    ensures var now := NewMain(main, recovery);
            && OtherMounts(now.mounts, OWNED_VOLUMES) == OtherMounts(main.mounts, OWNED_VOLUMES)
            && main.env <= now.env && now.name == main.name && now.details == main.details && now.user == main.user && now.group == main.group
            && Unwrapped(Argv(now)) == Unwrapped(Argv(main))
  {
    ArgvStays(main, recovery);
    forall i | 0 <= i < |MainMounts(recovery)| ensures MainMounts(recovery)[i].name in OWNED_VOLUMES {
    }
    PutMountsFrame(main.mounts, MainMounts(recovery), owned, OWNED_VOLUMES);
  }

  /** MAIN: every other container is untouched; the main container keeps its name, its user
      and group, its own command line, its environment and all mounts of others, in order. */
  lemma ForeignContainersKept(p: Pod, r: Request)
    requires Placeable(p, r)
    ensures var q, k := Placed(p, r), MainIndex(p.containers);
            && |q.containers| == |p.containers|
            && (forall i :: 0 <= i < |p.containers| && i != k ==> q.containers[i] == p.containers[i])
            && q.containers[k].name == p.containers[k].name && q.containers[k].details == p.containers[k].details
            && q.containers[k].user == p.containers[k].user && q.containers[k].group == p.containers[k].group
            && OtherMounts(q.containers[k].mounts, OWNED_VOLUMES) == OtherMounts(p.containers[k].mounts, OWNED_VOLUMES)
            && p.containers[k].env <= q.containers[k].env
            && Unwrapped(Argv(q.containers[k])) == Unwrapped(Argv(p.containers[k]))
  {
    var main := MainOf(p);
    assert main in p.containers;
    MainFrame(main, IsRecovery(main), Owned(p, r));
  }

  lemma AnnotationsKept(a: map<string, string>, r: Request, recovery: bool)
    ensures var now := NewAnnotations(a, r, recovery);
            && (forall k :: k !in {OWNER, CONFIGURED, OPERATION} ==> (k in now <==> k in a))
            && (forall k :: k in a && k !in {OWNER, CONFIGURED, OPERATION} ==> now[k] == a[k])
            && NewAnnotations(now, r, recovery) == now
            && OWNER in now && now[OWNER] == r.uid
  {
    assert |OWNER| == 35 && |CONFIGURED| == 36;
  }

  /** The main container of the result is the rewritten main container. */
  lemma MainStays(p: Pod, r: Request)
    requires Placeable(p, r)
    ensures var q := Placed(p, r);
            && MainIndex(q.containers) == MainIndex(p.containers) < |q.containers|
            && MainOf(q) == NewMain(MainOf(p), IsRecovery(MainOf(p)))
            && FindContainer(q.containers, SIDECAR) == |q.containers|
  {
    var q := Placed(p, r);
    MainRenamesNothing(p, r);
    FirstMainByNames(p.containers, q.containers);
    FindContainerIs(q.containers, SIDECAR, |q.containers|);
  }

  lemma AdmittedAgain(p: Pod, r: Request)
    requires Placeable(p, r) && UniqueNames(Placed(p, r))
    ensures Admitted(Placed(p, r), r)
    ensures DataMounts(MainOf(Placed(p, r)), Placed(p, r).volumes, r) == DataMounts(MainOf(p), p.volumes, r)
  {
    var q, main, owned := Placed(p, r), MainOf(p), Owned(p, r);
    var recovery := IsRecovery(main);
    assert main in p.containers;
    MainStays(p, r);
    ArgvStays(main, recovery);
    NewMainTwice(main, recovery, owned);
    TargetsStay(main.mounts, p.volumes, r, recovery, owned);
  }

  lemma EditedFixed(q: Pod, r: Request, data: seq<Mount>)
    requires MainIndex(q.containers) < |q.containers| && q.security.Some? && InitFits(q.init, Owned(q, r))
    requires q.security.value.fsPolicy == ON_ROOT_MISMATCH
    requires NewMain(MainOf(q), IsRecovery(MainOf(q))) == MainOf(q)
    requires PutVolumes(q.volumes, OwnedVolumes(r, IsRecovery(MainOf(q)))) == q.volumes
    requires NewInit(q.init, Preparer(r), Sidecar(r, IsRecovery(MainOf(q)), data)) == q.init
    requires NewAnnotations(q.annotations, r, IsRecovery(MainOf(q))) == q.annotations
    ensures Edited(q, r, data) == q
  {
  }

  /** The owner's mark is in the result, and the edits find everything as they leave it. */
  lemma ListsFitAgain(p: Pod, r: Request)
    requires Placeable(p, r)
    ensures var q, main := Placed(p, r), MainOf(p);
            && Owned(q, r) && InitFits(q.init, true)
            && MountsFit(NewMain(main, IsRecovery(main)).mounts, MainMounts(IsRecovery(main)), true)
            && PutVolumes(q.volumes, OwnedVolumes(r, IsRecovery(main))) == q.volumes
            && NewInit(q.init, Preparer(r), Sidecar(r, IsRecovery(main), DataMounts(main, p.volumes, r))) == q.init
            && NewAnnotations(q.annotations, r, IsRecovery(main)) == q.annotations
  {
    var main, owned := MainOf(p), Owned(p, r);
    var recovery := IsRecovery(main);
    AnnotationsKept(p.annotations, r, recovery);
    NewMainTwice(main, recovery, owned);
    OwnedVolumesUnique(r, recovery);
    PutVolumesTwice(p.volumes, OwnedVolumes(r, recovery));
    InitTwice(p.init, Preparer(r), Sidecar(r, recovery, DataMounts(main, p.volumes, r)), owned);
  }

  lemma EditedAgain(p: Pod, r: Request)
    requires Placeable(p, r) && MainIndex(Placed(p, r).containers) < |Placed(p, r).containers|
    ensures ListsFit(Placed(p, r), MainOf(Placed(p, r)), r)
    ensures Edited(Placed(p, r), r, DataMounts(MainOf(p), p.volumes, r)) == Placed(p, r)
  {
    var main := MainOf(p);
    MainStays(p, r);
    ArgvStays(main, IsRecovery(main));
    NewMainTwice(main, IsRecovery(main), Owned(p, r));
    ListsFitAgain(p, r);
    EditedFixed(Placed(p, r), r, DataMounts(main, p.volumes, r));
  }

  /** MAIN: with the same answers, placing a placed Pod changes nothing; and it is accepted
      at all exactly when no ordinary container has the socket preparer's name. */
  lemma PlacedTwice(p: Pod, r: Request)
    requires Placeable(p, r)
    ensures Placeable(Placed(p, r), r) <==> NoneNamed(p.containers, PREPARER)
    ensures NoneNamed(p.containers, PREPARER) ==> Placed(Placed(p, r), r) == Placed(p, r)
  {
    UniqueAfter(p, r);
    if NoneNamed(p.containers, PREPARER) {
      MainStays(p, r);
      AdmittedAgain(p, r);
      EditedAgain(p, r);
    }
  }

  // ---------------------------------------------------------------- a Pod that cannot be placed twice

  const DATA := Mount("pgdata", "/var/lib/postgresql/data", "", "", false, false)
  const MANAGER := Container("postgres", ["/controller/manager", "instance", "run"], [], [], [DATA], None, None, 0)
  const IMPOSTOR := Container(PREPARER, [], [], [], [], None, None, 0)
  const PGDATA := Volume("pgdata", Claim("claim", false))
  const ANSWERS := Request("uid", 26, 26, false, [], "c", "", true, false, true, true, map[], {}, "", "", "", "", 0, 0)
  const POD := Pod([], [MANAGER, IMPOSTOR], [PGDATA], false, false, Some(Security(Some(26), Some(26), "")), map[], false)

  lemma ManagerRuns()
    ensures Unwrapped(Argv(MANAGER)) == ["/controller/manager", "instance", "run"] && !IsRecovery(MANAGER)
    ensures MainOK(MANAGER, POD, ANSWERS)
  {
    assert Argv(MANAGER) == ["/controller/manager", "instance", "run"];
    assert "/controller/manager"[1] == 'c' && HELPER[2] == 'n';
    assert "run" != "restore";
  }

  lemma ManagerMounts()
    ensures TargetsOK(MANAGER, POD.volumes, ANSWERS)
  {
    ManagerRuns();
    assert DATABASE + "data" == "/var/lib/postgresql/data";
    var targets := Targets(ANSWERS);
    assert targets == map["pgdata" := "/var/lib/postgresql/data"];
    assert VolumeNamed([PGDATA], "pgdata") == Some(PGDATA);
    assert Judge(DATA, targets, [PGDATA], ANSWERS, false) == Take("");
    assert targets - {"pgdata"} == map[];
    assert [DATA][1..] == [];
  }

  lemma ManagerIsMain()
    ensures MainIndex(POD.containers) == 0 && MainOf(POD) == MANAGER
    ensures FindContainer(POD.containers, SIDECAR) == |POD.containers| && ContainersUnique(POD.containers + POD.init)
  {
    OwnInitNames();
    assert |SIDECAR| == 11 && |PREPARER| == 23 && |"postgres"| == 8;
    assert POD.containers[0] == MANAGER && POD.containers[1] == IMPOSTOR;
    assert MANAGER.name == "postgres" && IMPOSTOR.name == PREPARER;
    FindContainerIs(POD.containers, SIDECAR, 2);
  }

  lemma NothingTaken()
    ensures ListsFit(POD, MANAGER, ANSWERS)
  {
    ManagerRuns();
    assert POD.annotations == map[] && !Owned(POD, ANSWERS);
    var list := OwnedVolumes(ANSWERS, false);
    forall i | 0 <= i < |list| ensures !HasVolume([PGDATA], list[i].name) {
      assert list[i].name[0] == 'c' && PGDATA.name[0] == 'p';
      FindVolumeIs([PGDATA], list[i].name, 1);
    }
    DataLeavesRoom();
  }

  lemma DataLeavesRoom()
    ensures MountsFit([DATA], MainMounts(false), false)
  {
    var list := MainMounts(false);
    assert DATA.name[0] == 'p' && DATA.path[1] == 'v';
    assert PLUGINS[0] == 'c' && BIN[0] == 'c' && STATE[0] == 'c';
    assert "/plugins"[1] == 'p' && "/cnpg-backup/bin"[1] == 'c' && "/cnpg-backup/state"[1] == 'c';
    MainMountsApart(false);
    var ms := [DATA];
    var one := [DATA, list[0]];
    var two := [DATA, list[0], list[1]];
    assert list[..0] == [] && list[..1] == [list[0]] && list[..2] == [list[0], list[1]] && list[..3] == list;
    FindMountIs(ms, list[0], 1);
    assert list[..1][..0] == [] && PutMounts(ms, []) == ms && MountsFit(ms, [], false);
    assert MountsFit(ms, list[..1], false) && PutMounts(ms, list[..1]) == one;
    FindMountIs(one, list[1], 2);
    assert list[..2][..1] == list[..1];
    assert MountsFit(ms, list[..2], false) && PutMounts(ms, list[..2]) == two;
    FindMountIs(two, list[2], 3);
  }

  /** The exception is real: this Pod is placed once and then refused. */
  lemma ImpostorRefusedSecondTime()
    ensures Placeable(POD, ANSWERS) && !Placeable(Placed(POD, ANSWERS), ANSWERS)
  {
    ManagerIsMain();
    ManagerRuns();
    ManagerMounts();
    NothingTaken();
    assert UniqueNames(POD);
    assert POD.containers[1].name == PREPARER;
    PlacedTwice(POD, ANSWERS);
  }
}
