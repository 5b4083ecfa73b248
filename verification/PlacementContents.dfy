/** What the Pod rewrite puts in: the guarded command line, volumes, mounts, the preparer before
    the sidecar, and the annotations; and which database mounts it admits. */
module PlacementContents {
  import opened Basics
  import opened PodLists
  import opened Placement
  import opened PlacementSafety

  // ---------------------------------------------------------------- the command line

  const GUARD := ["/cnpg-backup/bin/cnpg-backup", "recovery-guard", "--"]

  /** own is the container's own command line, without the guard of an earlier placement. */
  ghost predicate OwnCommand(c: Container, own: seq<string>) {
    c.command + c.args == GUARD + own || (c.command + c.args == own && !(GUARD <= own))
  }

  lemma OwnIsUnwrapped(c: Container, own: seq<string>)
    requires OwnCommand(c, own)
    ensures Unwrapped(Argv(c)) == own
  {
    var argv := Argv(c);
    if argv == GUARD + own {
      assert argv[..3] == GUARD && argv[3..] == own;
      assert argv[0] == GUARD[0] && argv[1] == GUARD[1] && argv[2] == GUARD[2];
    }
    assert |argv| > 2 && argv[0] == HELPER && argv[1] == "recovery-guard" && argv[2] == "--" ==> argv[..3] == GUARD;
  }

  /** The rewritten main container: in a recovery its own command line runs behind the guard and
      knows its Pod UID, otherwise both stay; the helper's mounts are there. */
  ghost predicate MainHolds(main: Container, now: Container, own: seq<string>, recovery: bool) {
    && (recovery ==> now.command == GUARD + own && now.args == [] && Env("POD_UID", PodUidField) in now.env)
    && (!recovery ==> now.command == main.command && now.args == main.args && now.env == main.env)
    && Mount("cnpg-backup-plugins", "/plugins", "plugins", "", false, false) in now.mounts
    && Mount("cnpg-backup-bin", "/cnpg-backup/bin", "", "", true, false) in now.mounts
    && Mount("cnpg-backup-state", "/cnpg-backup/state", "", "", true, false) in now.mounts
    && (recovery ==> Mount("cnpg-backup-config", "/cnpg-backup/config", "", "", true, false) in now.mounts)
  }

  lemma MainContents(main: Container, own: seq<string>, recovery: bool, owned: bool)
    requires OwnCommand(main, own) && MountsFit(main.mounts, MainMounts(recovery), owned) && (recovery ==> EnvFits(main.env))
    ensures MainHolds(main, NewMain(main, recovery), own, recovery)
  {
    OwnIsUnwrapped(main, own);
    MainMountsApart(recovery);
    var list, now := MainMounts(recovery), NewMain(main, recovery);
    forall i | 0 <= i < |list| ensures list[i] in now.mounts {
      PutMountsThere(main.mounts, list, owned, i);
    }
    assert list[0] in now.mounts && list[1] in now.mounts && list[2] in now.mounts;
    assert recovery ==> list[3] in now.mounts;
  }

  // ---------------------------------------------------------------- volumes and annotations

  ghost predicate VolumesHold(now: seq<Volume>, r: Request, recovery: bool) {
    && VolumeNamed(now, "cnpg-backup-plugins") == Some(Volume("cnpg-backup-plugins", EmptyDir(1)))
    && VolumeNamed(now, "cnpg-backup-bin") == Some(Volume("cnpg-backup-bin", EmptyDir(128)))
    && VolumeNamed(now, "cnpg-backup-state") == Some(Volume("cnpg-backup-state", EmptyDir(64)))
    && VolumeNamed(now, "cnpg-backup-projection") ==
       Some(Volume("cnpg-backup-projection", Projected(if recovery then r.recoveryConfig else r.instanceConfig)))
    && VolumeNamed(now, "cnpg-backup-work") == Some(Volume("cnpg-backup-work", Ephemeral(r.storageClass, r.storageSize)))
    && (recovery ==> VolumeNamed(now, "cnpg-backup-config") == Some(Volume("cnpg-backup-config", ConfigMap(r.name + "-cb-targets"))))
  }

  lemma VolumeContents(vs: seq<Volume>, r: Request, recovery: bool)
    ensures VolumesHold(PutVolumes(vs, OwnedVolumes(r, recovery)), r, recovery)
  {
    var list := OwnedVolumes(r, recovery);
    OwnedVolumesUnique(r, recovery);
    PutVolumesThere(vs, list, 0);
    PutVolumesThere(vs, list, 1);
    PutVolumesThere(vs, list, 2);
    PutVolumesThere(vs, list, 3);
    PutVolumesThere(vs, list, 4);
    if recovery {
      PutVolumesThere(vs, list, 5);
    }
  }

  ghost predicate AnnotationsHold(a: map<string, string>, now: map<string, string>, r: Request, recovery: bool) {
    && "cnpg-backup.djosh34.github.io/owner" in now && now["cnpg-backup.djosh34.github.io/owner"] == r.uid
    && "cnpg-backup.djosh34.github.io/config" in now
    && now["cnpg-backup.djosh34.github.io/config"] == (if recovery then r.recoveryConfig else r.instanceConfig)
    && (recovery ==> "cnpg-backup.djosh34.github.io/recovery" in now && now["cnpg-backup.djosh34.github.io/recovery"] == r.operation)
    && (forall k :: k in a ==> k in now)
    && (forall k :: k in now ==>
          || k == "cnpg-backup.djosh34.github.io/owner" || k == "cnpg-backup.djosh34.github.io/config"
          || (recovery && k == "cnpg-backup.djosh34.github.io/recovery")
          || (k in a && now[k] == a[k]))
  }

  lemma AnnotationContents(a: map<string, string>, r: Request, recovery: bool)
    ensures AnnotationsHold(a, NewAnnotations(a, r, recovery), r, recovery)
  {
    assert |OWNER| == 35 && |CONFIGURED| == 36 && |OPERATION| == 38;
  }

  // ---------------------------------------------------------------- database mounts

  /** A whole, writable mount at the path its volume is for. */
  ghost predicate Whole(m: Mount, path: string) {
    m.path == path && m.subPath == "" && m.subPathExpr == "" && !m.readOnly && !m.propagation
  }

  ghost predicate WritableClaim(vs: seq<Volume>, name: string) {
    VolumeNamed(vs, name).Some? && VolumeNamed(vs, name).value.source.Claim? && !VolumeNamed(vs, name).value.source.readOnly
  }

  ghost predicate InDatabaseArea(m: Mount) {
    HasPrefix(m.name, "tbs-") || HasPrefix(m.path, "/var/lib/postgresql/")
  }

  ghost function NamesOf(data: seq<Mount>): seq<string> {
    seq(|data|, i requires 0 <= i < |data| => data[i].name)
  }

  ghost predicate NoEarlier(ms: seq<Mount>, i: nat)
    requires i < |ms|
  {
    forall j :: 0 <= j < i ==> ms[j].name != ms[i].name
  }

  /** Mount i is the one of a target, and fits it; or it stays out of the database area. */
  ghost predicate Tolerated(ms: seq<Mount>, i: nat, targets: map<string, string>, vs: seq<Volume>, r: Request, recovery: bool)
    requires i < |ms|
  {
    var m := ms[i];
    if m.name in targets && NoEarlier(ms, i)
    then Whole(m, targets[m.name]) && WritableClaim(vs, m.name) && (recovery ==> VolumeNamed(vs, m.name).value.source.claim in r.pvcs)
    else !InDatabaseArea(m)
  }

  ghost predicate AllTolerated(ms: seq<Mount>, targets: map<string, string>, vs: seq<Volume>, r: Request, recovery: bool) {
    forall i :: 0 <= i < |ms| ==> Tolerated(ms, i, targets, vs, r, recovery)
  }

  /** Which mounts pass does not depend on where the walk over them stands. */
  lemma ToleratedStep(ms: seq<Mount>, targets: map<string, string>, vs: seq<Volume>, r: Request, recovery: bool)
    requires ms != []
    ensures var fewer := if ms[0].name in targets then targets - {ms[0].name} else targets;
            AllTolerated(ms, targets, vs, r, recovery) <==>
              Tolerated(ms, 0, targets, vs, r, recovery) && AllTolerated(ms[1..], fewer, vs, r, recovery)
  {
    var rest := ms[1..];
    var fewer := if ms[0].name in targets then targets - {ms[0].name} else targets;
    forall i | 0 <= i < |rest| ensures Tolerated(rest, i, fewer, vs, r, recovery) <==> Tolerated(ms, i + 1, targets, vs, r, recovery) {
      assert rest[i] == ms[i + 1];
      assert NoEarlier(ms, i + 1) <==> NoEarlier(rest, i) && ms[0].name != rest[i].name by {
        assert forall j :: 0 <= j < i ==> rest[j] == ms[j + 1];
      }
    }
    if Tolerated(ms, 0, targets, vs, r, recovery) && AllTolerated(rest, fewer, vs, r, recovery) {
      forall i | 0 <= i < |ms| ensures Tolerated(ms, i, targets, vs, r, recovery) {
        assert i > 0 ==> Tolerated(rest, i - 1, fewer, vs, r, recovery);
      }
    }
    if AllTolerated(ms, targets, vs, r, recovery) {
      forall i | 0 <= i < |rest| ensures Tolerated(rest, i, fewer, vs, r, recovery) {
        assert Tolerated(ms, i + 1, targets, vs, r, recovery);
      }
    }
  }

  /** The loop succeeds exactly when every mount is tolerated. */
  lemma {:induction false} LoopSucceeds(ms: seq<Mount>, targets: map<string, string>, vs: seq<Volume>, r: Request, recovery: bool)
    ensures FindTargets(ms, targets, vs, r, recovery).Some? <==> AllTolerated(ms, targets, vs, r, recovery)
    decreases |ms|
  {
    if ms != [] {
      ToleratedStep(ms, targets, vs, r, recovery);
      if ms[0].name in targets {
        LoopSucceeds(ms[1..], targets - {ms[0].name}, vs, r, recovery);
      } else {
        LoopSucceeds(ms[1..], targets, vs, r, recovery);
      }
      assert Tolerated(ms, 0, targets, vs, r, recovery) <==> Judge(ms[0], targets, vs, r, recovery) != Refuse;
    }
  }

  /** What the mount loop found: one whole mount of a writable claim for every target it saw,
      and nothing else inside the database area. */
  ghost predicate FoundExactly(ms: seq<Mount>, targets: map<string, string>, vs: seq<Volume>, f: Found) {
    && (forall m :: m in f.data ==> m in ms && m.name in targets && Whole(m, targets[m.name]) && WritableClaim(vs, m.name))
    && (forall m :: m in ms && InDatabaseArea(m) ==> m in f.data)
  }

  ghost predicate NamesExactly(ms: seq<Mount>, targets: map<string, string>, f: Found) {
    && Distinct(NamesOf(f.data))
    && (forall k :: k in targets <==> k in NamesOf(f.data) || k in f.missing)
    && (forall k :: k in f.missing ==> k !in NamesOf(f.data))
    && (forall m :: m in ms && m.name in targets ==> m.name in NamesOf(f.data))
  }

  lemma {:induction false} FoundTargets(ms: seq<Mount>, targets: map<string, string>, vs: seq<Volume>, r: Request, recovery: bool)
    requires FindTargets(ms, targets, vs, r, recovery).Some?
    ensures FoundExactly(ms, targets, vs, FindTargets(ms, targets, vs, r, recovery).value)
    decreases |ms|
  {
    if ms != [] {
      var m, rest := ms[0], ms[1..];
      assert ms == [m] + rest;
      if Judge(m, targets, vs, r, recovery) == Skip {
        FoundTargets(rest, targets, vs, r, recovery);
      } else {
        var fewer := targets - {m.name};
        FoundTargets(rest, fewer, vs, r, recovery);
        var more := FindTargets(rest, fewer, vs, r, recovery).value.data;
        assert forall x :: x in [m] + more <==> x == m || x in more;
      }
    }
  }

  lemma {:induction false} FoundNames(ms: seq<Mount>, targets: map<string, string>, vs: seq<Volume>, r: Request, recovery: bool)
    requires FindTargets(ms, targets, vs, r, recovery).Some?
    ensures NamesExactly(ms, targets, FindTargets(ms, targets, vs, r, recovery).value)
    decreases |ms|
  {
    if ms != [] {
      var m, rest := ms[0], ms[1..];
      assert ms == [m] + rest;
      if Judge(m, targets, vs, r, recovery) == Skip {
        FoundNames(rest, targets, vs, r, recovery);
      } else {
        var fewer := targets - {m.name};
        FoundNames(rest, fewer, vs, r, recovery);
        var more := FindTargets(rest, fewer, vs, r, recovery).value.data;
        assert NamesOf([m] + more) == [m.name] + NamesOf(more);
      }
    }
  }

  /** The guard pairs each data mount with the UID of its claim. */
  lemma {:induction false} GuardPairs(ms: seq<Mount>, targets: map<string, string>, vs: seq<Volume>, r: Request, i: nat)
    requires FindTargets(ms, targets, vs, r, true).Some?
    ensures var f := FindTargets(ms, targets, vs, r, true).value;
            && |f.guard| == |f.data|
            && (i < |f.data| ==> VolumeNamed(vs, f.data[i].name).Some? && VolumeNamed(vs, f.data[i].name).value.source.Claim?
                                 && var claim := VolumeNamed(vs, f.data[i].name).value.source.claim;
                                    claim in r.pvcs && f.guard[i] == (r.pvcs[claim], f.data[i].path))
    decreases |ms|
  {
    if ms != [] {
      if Judge(ms[0], targets, vs, r, true) == Skip {
        GuardPairs(ms[1..], targets, vs, r, i);
      } else {
        GuardPairs(ms[1..], targets - {ms[0].name}, vs, r, if i > 0 then i - 1 else 0);
      }
    }
  }

  /** All mounts are tolerated and every target is mounted. */
  ghost predicate MountsComplete(main: Container, vs: seq<Volume>, r: Request, recovery: bool) {
    && AllTolerated(main.mounts, Targets(r), vs, r, recovery)
    && forall k :: k in Targets(r) ==> exists m :: m in main.mounts && m.name == k
  }

  /** MAIN: the mount loop finds all targets exactly when each is mounted and every mount of the
      main container is tolerated. */
  lemma TargetsFound(main: Container, vs: seq<Volume>, r: Request, recovery: bool)
    ensures var f := FindTargets(main.mounts, Targets(r), vs, r, recovery);
            f.Some? && f.value.missing == map[] <==> MountsComplete(main, vs, r, recovery)
  {
    LoopSucceeds(main.mounts, Targets(r), vs, r, recovery);
    var f := FindTargets(main.mounts, Targets(r), vs, r, recovery);
    if f.Some? {
      FoundNames(main.mounts, Targets(r), vs, r, recovery);
      FoundTargets(main.mounts, Targets(r), vs, r, recovery);
      if f.value.missing == map[] {
        forall k | k in Targets(r) ensures exists m :: m in main.mounts && m.name == k {
          assert k in NamesOf(f.value.data);
          var i :| 0 <= i < |f.value.data| && NamesOf(f.value.data)[i] == k;
          assert f.value.data[i] in f.value.data;
        }
      }
      if MountsComplete(main, vs, r, recovery) {
        assert forall k :: k !in f.value.missing;
        assert f.value.missing == map[];
      }
    }
  }

  /** MAIN: a Pod that is admitted mounts each database target once, whole and writable, from a
      claim, and nothing else inside the database area. */
  lemma AdmittedMounts(main: Container, vs: seq<Volume>, r: Request)
    requires TargetsOK(main, vs, r)
    ensures var data := DataMounts(main, vs, r);
            && (forall m :: m in data ==> m in main.mounts && m.name in Targets(r) && Whole(m, Targets(r)[m.name]) && WritableClaim(vs, m.name))
            && (forall m :: m in main.mounts && InDatabaseArea(m) ==> m in data)
            && Distinct(NamesOf(data)) && Elements(NamesOf(data)) == Targets(r).Keys
  {
    FoundTargets(main.mounts, Targets(r), vs, r, IsRecovery(main));
    FoundNames(main.mounts, Targets(r), vs, r, IsRecovery(main));
  }

  /** The targets by name: the data directory always, the WAL volume if there is one, and one
      volume per tablespace. */
  lemma TargetPaths(r: Request)
    ensures "pgdata" in Targets(r) && Targets(r)["pgdata"] == "/var/lib/postgresql/data"
    ensures r.wal ==> "pg-wal" in Targets(r) && Targets(r)["pg-wal"] == "/var/lib/postgresql/wal"
    ensures forall k :: k in Targets(r) ==>
              || k == "pgdata" || (r.wal && k == "pg-wal")
              || exists t :: t in r.tablespaces && k == TablespaceVolume(t) && Targets(r)[k] == "/var/lib/postgresql/tablespaces/" + t
    ensures forall t :: t in r.tablespaces ==> TablespaceVolume(t) in Targets(r)
  {
    assert DATABASE + "data" == "/var/lib/postgresql/data" && DATABASE + "wal" == "/var/lib/postgresql/wal";
    forall k | k in TablespaceTargets(r.tablespaces) ensures k != "pgdata" && k != "pg-wal" {
      TablespaceTargetNames(r.tablespaces, k);
    }
    assert DATABASE + "tablespaces/" == "/var/lib/postgresql/tablespaces/";
    TablespaceNames(r.tablespaces);
    forall k | k in TablespaceTargets(r.tablespaces)
      ensures exists t :: t in r.tablespaces && k == TablespaceVolume(t) && Targets(r)[k] == "/var/lib/postgresql/tablespaces/" + t
    {
      var t := TablespacePath(r.tablespaces, k);
    }
  }

  lemma {:induction false} TablespaceNames(tables: seq<string>)
    ensures forall t :: t in tables ==> TablespaceVolume(t) in TablespaceTargets(tables)
  {
    if tables != [] {
      var n := |tables| - 1;
      TablespaceNames(tables[..n]);
      assert tables == tables[..n] + [tables[n]];
    }
  }

  lemma {:induction false} TablespacePath(tables: seq<string>, k: string) returns (t: string)
    requires k in TablespaceTargets(tables)
    ensures t in tables && k == TablespaceVolume(t) && TablespaceTargets(tables)[k] == DATABASE + "tablespaces/" + t
  {
    var n := |tables| - 1;
    if k == TablespaceVolume(tables[n]) {
      t := tables[n];
    } else {
      t := TablespacePath(tables[..n], k);
    }
  }

  // ---------------------------------------------------------------- the recovery command line

  ghost predicate LevelValue(v: string) {
    v in {"error", "warning", "info", "debug", "trace"}
  }

  ghost predicate Letter(c: char) {
    'a' <= c <= 'z' || 'A' <= c <= 'Z'
  }

  /** A letter, then at most 63 letters, digits, underscores, dots and dashes. */
  ghost predicate FieldValue(v: string) {
    && 0 < |v| <= 64 && Letter(v[0])
    && forall i :: 0 <= i < |v| ==> Letter(v[i]) || '0' <= v[i] <= '9' || v[i] in {'_', '.', '-'}
  }

  lemma FlagValues(v: string)
    ensures LogLevel(v) <==> LevelValue(v)
    ensures LogField(v) <==> FieldValue(v)
  {
  }

  /** No flag, or this one with an admitted value. */
  ghost predicate FlagPart(part: seq<string>, flag: string, level: bool) {
    part == [] || (|part| == 1 && HasPrefix(part[0], flag)
                   && var value := part[0][|flag|..]; if level then LevelValue(value) else FieldValue(value))
  }

  ghost predicate NotFlag(rest: seq<string>, flag: string) {
    rest == [] || !HasPrefix(rest[0], flag)
  }

  lemma DropFlagMeans(rest: seq<string>, flag: string, level: bool, part: seq<string>, more: seq<string>)
    requires rest == part + more && FlagPart(part, flag, level) && NotFlag(more, flag)
    ensures DropFlag(rest, flag, level) == Some(more)
  {
    if part == [] {
      assert rest == more;
    } else {
      assert rest[0] == part[0] && rest[1..] == more;
      FlagValues(part[0][|flag|..]);
    }
  }

  lemma FlagsDiffer(s: string)
    ensures HasPrefix(s, "--log-level=") ==> !HasPrefix(s, "--log-field-level=") && !HasPrefix(s, "--log-field-timestamp=")
    ensures HasPrefix(s, "--log-field-level=") ==> !HasPrefix(s, "--log-field-timestamp=")
  {
    if HasPrefix(s, "--log-level=") {
      assert s[6] == s[..12][6] == 'l';
    }
    if HasPrefix(s, "--log-field-level=") {
      assert s[6] == s[..18][6] == 'f' && s[12] == s[..18][12] == 'l';
    }
    if HasPrefix(s, "--log-field-timestamp=") {
      assert s[6] == s[..22][6] == 'f' && s[12] == s[..22][12] == 't';
    }
  }

  /** At most one of each logging flag, in their order. */
  ghost predicate FlagParts(a: seq<string>, b: seq<string>, c: seq<string>) {
    FlagPart(a, "--log-level=", true) && FlagPart(b, "--log-field-level=", false) && FlagPart(c, "--log-field-timestamp=", false)
  }

  lemma ThreeTaken(rest: seq<string>, f: string, g: string, h: string) returns (a: seq<string>, b: seq<string>, c: seq<string>)
    requires var x := DropFlag(rest, f, true);
             x.Some? && var y := DropFlag(x.value, g, false); y.Some? && DropFlag(y.value, h, false) == Some([])
    ensures rest == a + b + c && FlagPart(a, f, true) && FlagPart(b, g, false) && FlagPart(c, h, false)
  {
    a := FlagTaken(rest, f, true);
    var second := rest[|a|..];
    b := FlagTaken(second, g, false);
    var third := second[|b|..];
    c := FlagTaken(third, h, false);
    assert third == c && second == b + c;
  }

  lemma ThreeGiven(a: seq<string>, b: seq<string>, c: seq<string>, f: string, g: string, h: string)
    requires FlagPart(a, f, true) && FlagPart(b, g, false) && FlagPart(c, h, false) && NotFlag(b + c, f) && NotFlag(c, g)
    ensures DropFlag(a + b + c, f, true) == Some(b + c) && DropFlag(b + c, g, false) == Some(c) && DropFlag(c, h, false) == Some([])
  {
    assert a + b + c == a + (b + c) && c + [] == c;
    DropFlagMeans(a + b + c, f, true, a, b + c);
    DropFlagMeans(b + c, g, false, b, c);
    DropFlagMeans(c, h, false, c, []);
  }

  ghost predicate LoggingFlags(rest: seq<string>) {
    exists a, b, c :: rest == a + b + c && FlagParts(a, b, c)
  }

  lemma LogFlagsMeans(rest: seq<string>)
    ensures LogFlags(rest) <==> LoggingFlags(rest)
  {
    if LogFlags(rest) {
      var a, b, c := ThreeTaken(rest, "--log-level=", "--log-field-level=", "--log-field-timestamp=");
      assert FlagParts(a, b, c);
    }
    if LoggingFlags(rest) {
      var a, b, c :| rest == a + b + c && FlagParts(a, b, c);
      FlagsInOrder(a, b, c);
      ThreeGiven(a, b, c, "--log-level=", "--log-field-level=", "--log-field-timestamp=");
    }
  }

  lemma FlagsInOrder(a: seq<string>, b: seq<string>, c: seq<string>)
    requires FlagParts(a, b, c)
    ensures NotFlag(b + c, "--log-level=") && NotFlag(c, "--log-field-level=")
  {
    if b + c != [] {
      FlagsDiffer((b + c)[0]);
    }
    if c != [] {
      FlagsDiffer(c[0]);
    }
  }

  /** MAIN: the guard admits the restore command with the WAL volume's option exactly if there is
      one, followed by at most one of each logging flag in their order; nothing else. */
  lemma WrappableMeans(argv: seq<string>, wal: bool)
    ensures Wrappable(argv, wal) <==>
              exists rest :: LoggingFlags(rest)
                             && argv == ["/controller/manager", "instance", "restore"]
                                        + (if wal then ["--pg-wal", "/var/lib/postgresql/wal/pg_wal"] else []) + rest
  {
    var base := RestoreArgv(wal);
    if base <= argv {
      LogFlagsMeans(argv[|base|..]);
      assert argv == base + argv[|base|..];
    }
    forall rest | argv == base + rest ensures argv[|base|..] == rest {
    }
  }

  lemma FlagTaken(rest: seq<string>, flag: string, level: bool) returns (part: seq<string>)
    requires DropFlag(rest, flag, level).Some?
    ensures |part| <= |rest| && rest == part + rest[|part|..] && FlagPart(part, flag, level)
    ensures DropFlag(rest, flag, level) == Some(rest[|part|..])
  {
    if rest == [] || !HasPrefix(rest[0], flag) {
      part := [];
    } else {
      part := [rest[0]];
      FlagValues(rest[0][|flag|..]);
    }
  }

  // ---------------------------------------------------------------- the placed Pod

  /** The preparer stands before the sidecar, each found under its name. */
  ghost predicate InitPair(init: seq<Container>, preparer: Container, sidecar: Container) {
    exists j, i :: 0 <= j < i < |init| && init[j] == preparer && init[i] == sidecar
                   && (forall k :: 0 <= k < i ==> init[k].name != "cnpg-backup")
                   && (forall k :: 0 <= k < j ==> init[k].name != "cnpg-backup-socket-init")
  }

  ghost predicate SidecarContents(c: Container, r: Request, recovery: bool, data: seq<Mount>) {
    && c.name == "cnpg-backup" && c.command == ["/usr/local/bin/cnpg-backup", if recovery then "recovery-job" else "instance"]
    && c.args == [] && c.env == [Env("POD_UID", PodUidField)] && c.user == Some(r.user) && c.group == Some(r.group)
    && c.mounts == data + [Mount("cnpg-backup-plugins", "/plugins", "plugins", "", false, false),
                           Mount("cnpg-backup-bin", "/cnpg-backup/bin", "", "", false, false),
                           Mount("cnpg-backup-state", "/cnpg-backup/state", "", "", false, false),
                           Mount("cnpg-backup-projection", "/cnpg-backup/projection", "", "", true, false),
                           Mount("cnpg-backup-work", "/cnpg-backup/work", "", "", false, false)]
                        + (if recovery then [Mount("cnpg-backup-config", "/cnpg-backup/config", "", "", true, false)] else [])
  }

  ghost predicate PreparerContents(c: Container, r: Request) {
    && c.name == "cnpg-backup-socket-init" && c.command == ["/usr/local/bin/cnpg-backup", "instance", "--prepare-socket"]
    && c.args == [] && c.env == [] && c.user == Some(r.user) && c.group == Some(r.group)
    && c.mounts == [Mount("cnpg-backup-plugins", "/cnpg-backup/socket-root", "", "", false, false)]
  }

  lemma OwnContainers(r: Request, recovery: bool, data: seq<Mount>)
    ensures PreparerContents(Preparer(r), r) && SidecarContents(Sidecar(r, recovery, data), r, recovery, data)
  {
  }

  lemma InitContents(init: seq<Container>, r: Request, recovery: bool, data: seq<Mount>, owned: bool)
    requires InitFits(init, owned)
    ensures InitHolds(NewInit(init, Preparer(r), Sidecar(r, recovery, data)), r, recovery, data)
  {
    var preparer, sidecar := Preparer(r), Sidecar(r, recovery, data);
    InitFound(init, preparer, sidecar, owned);
    var now := NewInit(init, preparer, sidecar);
    var i, j := FindContainer(now, SIDECAR), FindContainer(now, PREPARER);
    assert now[j] == preparer && now[i] == sidecar;
    assert InitPair(now, preparer, sidecar);
    OwnContainers(r, recovery, data);
  }

  ghost predicate InitHolds(init: seq<Container>, r: Request, recovery: bool, data: seq<Mount>) {
    exists preparer, sidecar :: InitPair(init, preparer, sidecar) && PreparerContents(preparer, r) && SidecarContents(sidecar, r, recovery, data)
  }

  /** What the rest of the placement goes by. */
  lemma PlacementMode(p: Pod, r: Request, own: seq<string>)
    requires Placeable(p, r) && OwnCommand(MainOf(p), own)
    ensures |own| >= 3 && own[0] == "/controller/manager" && own[1] == "instance"
    ensures IsRecovery(MainOf(p)) == (own[2] == "restore")
    ensures MountsFit(MainOf(p).mounts, MainMounts(IsRecovery(MainOf(p))), Owned(p, r)) && (own[2] == "restore" ==> EnvFits(MainOf(p).env))
  {
    OwnIsUnwrapped(MainOf(p), own);
  }

  /** MAIN: what a placed Pod holds. A recovery main container runs its own command line behind the
      guard and knows its Pod UID, any other keeps its command line; every owned volume, main mount
      and annotation is there with its content; the preparer runs before the sidecar, whose mode is
      that of the main container and whose mounts are the database targets and its own. */
  lemma PlacedContents(p: Pod, r: Request, own: seq<string>)
    requires Placeable(p, r) && OwnCommand(MainOf(p), own)
    ensures |own| >= 3 && own[0] == "/controller/manager" && own[1] == "instance"
    ensures var q, k, recovery := Placed(p, r), MainIndex(p.containers), own[2] == "restore";
            && k < |q.containers| && MainHolds(p.containers[k], q.containers[k], own, recovery)
            && VolumesHold(q.volumes, r, recovery)
            && AnnotationsHold(p.annotations, q.annotations, r, recovery)
            && InitHolds(q.init, r, recovery, DataMounts(MainOf(p), p.volumes, r))
            && q.security == Some(p.security.value.(fsPolicy := "OnRootMismatch"))
            && q.hostPid == p.hostPid && q.sharedPid == p.sharedPid && q.recoveryJob == p.recoveryJob
  {
    PlacementMode(p, r, own);
    var main := MainOf(p);
    var recovery := own[2] == "restore";
    MainContents(main, own, recovery, Owned(p, r));
    VolumeContents(p.volumes, r, recovery);
    AnnotationContents(p.annotations, r, recovery);
    InitContents(p.init, r, recovery, DataMounts(main, p.volumes, r), Owned(p, r));
  }

  // ---------------------------------------------------------------- who is admitted

  ghost predicate MainAt(cs: seq<Container>, k: nat) {
    k < |cs| && cs[k].name in {"postgres", "full-recovery", "initdb", "join"}
  }

  /** MAIN: the main container is the first one with a name of CloudNativePG's, or the only one. */
  lemma MainIndexMeans(cs: seq<Container>, k: nat)
    ensures k == MainIndex(cs) && k < |cs| <==>
              || (MainAt(cs, k) && forall j: nat :: j < k ==> !MainAt(cs, j))
              || (k == 0 && |cs| == 1)
  {
    FirstMainMeans(cs);
    if |cs| == 1 {
      assert MainAt(cs, 0) <==> MainName(cs[0].name);
    }
  }

  lemma {:induction false} FirstMainMeans(cs: seq<Container>)
    ensures var i := FirstMain(cs); (i < |cs| ==> MainAt(cs, i)) && forall j: nat :: j < i ==> !MainAt(cs, j)
  {
    if cs != [] {
      assert MainName(cs[0].name) <==> MainAt(cs, 0);
      FirstMainMeans(cs[1..]);
      assert forall j: nat :: 0 < j < |cs| ==> (MainAt(cs, j) <==> MainAt(cs[1..], j - 1));
    }
  }

  lemma {:induction false} LowerMeans(s: string, i: nat)
    requires i < |s|
    ensures |LowerAll(s)| == |s|
    ensures LowerAll(s)[i] == if 'A' <= s[i] <= 'Z' then (s[i] as int - 'A' as int + 'a' as int) as char else if s[i] == '_' || s[i] == '$' then '-' else s[i]
  {
    if i > 0 {
      LowerMeans(s[1..], i - 1);
    } else if |s| > 1 {
      LowerMeans(s[1..], 0);
    }
  }

  /** The volume of a tablespace: a leading underscore becomes a 1, other underscores and dollar signs
      become dashes, and capitals small. */
  lemma TablespaceVolumeMeans(name: string, i: nat)
    requires i < |name|
    ensures var v := TablespaceVolume(name);
            && |v| == 4 + |name| && v[..4] == "tbs-"
            && v[4 + i] == if i == 0 && name[0] == '_' then '1'
                           else if 'A' <= name[i] <= 'Z' then (name[i] as int - 'A' as int + 'a' as int) as char
                           else if name[i] == '_' || name[i] == '$' then '-' else name[i]
  {
    var n := if HasPrefix(name, "_") then "1" + name[1..] else name;
    assert HasPrefix(name, "_") <==> name[0] == '_' by {
      assert name[..1] == [name[0]];
    }
    LowerMeans(n, i);
  }

  /** What the checks before the edit establish about identities. */
  ghost predicate Identified(p: Pod, main: Container, r: Request) {
    && !p.hostPid && !p.sharedPid
    && p.security.Some? && p.security.value.user == Some(r.user) && p.security.value.group == Some(r.group)
    && (main.user == None || main.user == Some(r.user)) && (main.group == None || main.group == Some(r.group))
    && (forall i :: 0 <= i < |p.containers| ==> p.containers[i].name != "cnpg-backup")
  }

  /** MAIN: a Pod is placed only in its own PID namespace, under the Cluster's user and group, for one
      of the manager's four commands, a recovery Job only for a restore; and a recovery only with a
      source and behind an admitted command line. */
  lemma PlacedOnlyIf(p: Pod, r: Request, own: seq<string>)
    requires Placeable(p, r) && OwnCommand(MainOf(p), own)
    ensures Identified(p, MainOf(p), r)
    ensures |own| >= 3 && own[0] == "/controller/manager" && own[1] == "instance" && own[2] in {"run", "init", "join", "restore"}
    ensures p.recoveryJob ==> own[2] == "restore"
    ensures r.destinationOk && (if own[2] == "restore" then r.sourceOk && Wrappable(own, r.wal) else r.secretsOk)
    ensures MountsComplete(MainOf(p), p.volumes, r, own[2] == "restore")
  {
    OwnIsUnwrapped(MainOf(p), own);
    TargetsFound(MainOf(p), p.volumes, r, IsRecovery(MainOf(p)));
  }

  /** MAIN: the guard of a placed recovery: every database mount is guarded under the UUID of a claim
      of its own, the data directory is among them, and the Pod's identity is known. */
  lemma GuardIsSound(p: Pod, r: Request, own: seq<string>)
    requires Placeable(p, r) && OwnCommand(MainOf(p), own) && |own| > 2 && own[2] == "restore"
    ensures var f := FindTargets(MainOf(p).mounts, Targets(r), p.volumes, r, true);
            && f.Some? && r.identityOk && 1 <= |f.value.data| <= 66 && |f.value.guard| == |f.value.data|
            && (forall i :: 0 <= i < |f.value.data| ==> f.value.guard[i].1 == f.value.data[i].path && f.value.guard[i].0 in r.uuids)
            && (forall i, j :: 0 <= i < j < |f.value.data| ==> f.value.guard[i].0 != f.value.guard[j].0)
            && exists i :: 0 <= i < |f.value.data| && f.value.data[i].path == "/var/lib/postgresql/data"
  {
    OwnIsUnwrapped(MainOf(p), own);
    var ms, vs := MainOf(p).mounts, p.volumes;
    var f := FindTargets(ms, Targets(r), vs, r, true);
    assert IsRecovery(MainOf(p)) && f.Some? && GuardValid(f.value.guard, r);
    forall i | 0 <= i < |f.value.data| ensures |f.value.guard| == |f.value.data| && f.value.guard[i].1 == f.value.data[i].path {
      GuardPairs(ms, Targets(r), vs, r, i);
    }
    GuardPairs(ms, Targets(r), vs, r, 0);
    assert DATABASE + "data" == "/var/lib/postgresql/data";
  }

  /** MAIN: what bears one of the owned names is replaced only under this Cluster's mark: without it,
      a Pod that already has an owned volume, init container or main mount is not placed. */
  lemma ReplacesOnlyOwn(p: Pod, r: Request)
    requires Placeable(p, r)
    requires !("cnpg-backup.djosh34.github.io/owner" in p.annotations && p.annotations["cnpg-backup.djosh34.github.io/owner"] == r.uid)
    ensures forall i :: 0 <= i < |p.init| ==> p.init[i].name != "cnpg-backup" && p.init[i].name != "cnpg-backup-socket-init"
    ensures forall i :: 0 <= i < |OwnedVolumes(r, IsRecovery(MainOf(p)))| ==>
              VolumeNamed(p.volumes, OwnedVolumes(r, IsRecovery(MainOf(p)))[i].name) == None
    ensures forall m :: m in MainOf(p).mounts ==> m.path != "/plugins" && m.name != "cnpg-backup-plugins"
  {
    var main := MainOf(p);
    assert !Owned(p, r);
    FoundMeansNamed(p.init, SIDECAR);
    FoundMeansNamed(p.init, PREPARER);
    var list := MainMounts(IsRecovery(main));
    MountsFitPrefix(main.mounts, list, false, 1);
    assert list[..1][..0] == [] && list[..1][0] == list[0];
    assert PutMounts(main.mounts, []) == main.mounts;
    assert MountFits(main.mounts, list[0], false);
    forall m | m in main.mounts ensures !Touches(m, list[0]) {
      var k :| 0 <= k < |main.mounts| && main.mounts[k] == m;
    }
  }

  // ---------------------------------------------------------------- a recovery Pod that is placed

  const RESTORE := Container("full-recovery", ["/controller/manager", "instance", "restore"], [], [], [DATA], None, None, 0)
  const RECOVERY := Request("uid", 26, 26, false, [], "c", "op", true, true, false, true, map["claim" := "pvc"], {"pvc"}, "", "", "", "", 0, 0)
  const JOB_POD := Pod([], [RESTORE], [PGDATA], false, false, Some(Security(Some(26), Some(26), "")), map[], true)

  lemma RestoreRuns()
    ensures Unwrapped(Argv(RESTORE)) == ["/controller/manager", "instance", "restore"] && IsRecovery(RESTORE)
    ensures MainOK(RESTORE, JOB_POD, RECOVERY) && OwnCommand(RESTORE, ["/controller/manager", "instance", "restore"])
  {
    var argv := Argv(RESTORE);
    assert argv == ["/controller/manager", "instance", "restore"];
    assert "/controller/manager"[2] == 'o' && HELPER[2] == 'n';
    assert argv[0] != GUARD[0];
  }

  lemma RestoreFound()
    ensures FindTargets([DATA], Targets(RECOVERY), [PGDATA], RECOVERY, true)
            == Some(Found([DATA], [("pvc", "/var/lib/postgresql/data")], map[]))
  {
    assert DATABASE + "data" == "/var/lib/postgresql/data";
    var targets := Targets(RECOVERY);
    assert targets == map["pgdata" := "/var/lib/postgresql/data"];
    assert VolumeNamed([PGDATA], "pgdata") == Some(PGDATA);
    assert Judge(DATA, targets, [PGDATA], RECOVERY, true) == Take("pvc");
    var none: seq<Mount> := [];
    assert targets - {"pgdata"} == map[] && [DATA][1..] == none;
    var rest := FindTargets(none, targets - {"pgdata"}, [PGDATA], RECOVERY, true);
    assert rest == Some(Found([], [], map[]));
    assert FindTargets([DATA], targets, [PGDATA], RECOVERY, true) == Prepend(DATA, "pvc", rest);
    var unguarded: seq<(string, string)> := [];
    assert [DATA] + none == [DATA] && [("pvc", DATA.path)] + unguarded == [("pvc", DATA.path)];
    assert DATA.path == "/var/lib/postgresql/data";
  }

  lemma RestoreMounts()
    ensures TargetsOK(RESTORE, JOB_POD.volumes, RECOVERY)
  {
    RestoreRuns();
    RestoreFound();
    RestoreWraps();
    var guard := [("pvc", "/var/lib/postgresql/data")];
    assert DATABASE + "data" == "/var/lib/postgresql/data" && guard[0].1 == DATABASE + "data";
    assert GuardValid(guard, RECOVERY);
  }

  lemma RestoreWraps()
    ensures Wrappable(["/controller/manager", "instance", "restore"], false)
  {
    var argv: seq<string> := ["/controller/manager", "instance", "restore"];
    var none: seq<string> := [];
    assert none == none + none + none && FlagParts(none, none, none);
    assert argv == argv + [] + none;
    WrappableMeans(argv, false);
  }

  lemma RestoreLeavesRoom()
    ensures ListsFit(JOB_POD, RESTORE, RECOVERY)
  {
    RestoreRuns();
    assert JOB_POD.annotations == map[] && !Owned(JOB_POD, RECOVERY);
    var list := OwnedVolumes(RECOVERY, true);
    forall i | 0 <= i < |list| ensures !HasVolume([PGDATA], list[i].name) {
      assert list[i].name[0] == 'c' && PGDATA.name[0] == 'p';
      FindVolumeIs([PGDATA], list[i].name, 1);
    }
    GuardedLeavesRoom();
  }

  lemma GuardedLeavesRoom()
    ensures MountsFit([DATA], MainMounts(true), false)
  {
    DataLeavesRoom();
    MainMountsApart(false);
    var list := MainMounts(true);
    var n := |list| - 1;
    assert list[..n] == MainMounts(false) && list[n] == CONFIG_MOUNT;
    var ms := PutMounts([DATA], MainMounts(false));
    MainMountsApart(true);
    MainMountsPut();
    FindMountIs(ms, CONFIG_MOUNT, |ms|);
  }

  /** The first three mounts are appended to the data mount. */
  lemma MainMountsPut()
    ensures PutMounts([DATA], MainMounts(false)) == [DATA] + MainMounts(false)
    ensures forall m :: m in [DATA] + MainMounts(false) ==> !Touches(m, CONFIG_MOUNT)
  {
    var list := MainMounts(false);
    assert DATA.name[0] == 'p' && DATA.path[1] == 'v' && |CONFIG| == 18 && |"/cnpg-backup/config"| == 19;
    assert PLUGINS[0] == 'c' && BIN[0] == 'c' && STATE[0] == 'c' && |PLUGINS| == 19 && |BIN| == 15 && |STATE| == 17;
    assert "/plugins"[1] == 'p' && "/cnpg-backup/bin"[1] == 'c' && "/cnpg-backup/state"[1] == 'c';
    MainMountsApart(false);
    var one, two := [DATA, list[0]], [DATA, list[0], list[1]];
    assert list[..0] == [] && list[..1] == [list[0]] && list[..2] == [list[0], list[1]] && list[..3] == list;
    FindMountIs([DATA], list[0], 1);
    assert PutMounts([DATA], list[..1]) == one;
    FindMountIs(one, list[1], 2);
    assert list[..2][..1] == list[..1];
    assert PutMounts([DATA], list[..2]) == two;
    FindMountIs(two, list[2], 3);
  }

  /** Recovery Pods are placed: this one is, and runs behind the guard. */
  lemma RecoveryIsPlaced()
    ensures Placeable(JOB_POD, RECOVERY) && Placed(JOB_POD, RECOVERY).containers[0].command == GUARD + RESTORE.command
  {
    RestoreRuns();
    RestoreMounts();
    RestoreLeavesRoom();
    assert JOB_POD.containers[0] == RESTORE && MainName("full-recovery");
    assert |SIDECAR| == 11 && |"full-recovery"| == 13;
    FindContainerIs(JOB_POD.containers, SIDECAR, 1);
    assert UniqueNames(JOB_POD);
    PlacedContents(JOB_POD, RECOVERY, ["/controller/manager", "instance", "restore"]);
  }
}
