/** In-place edits of Pod lists: the volumes, mounts and environment that placement rewrites,
    with what each edit keeps. Models the upsert loops of inject and addMount. */
module PodLists {
  import opened Basics

  // ---------------------------------------------------------------- values

  datatype Source =
    | Claim(claim: string, readOnly: bool)
    | EmptyDir(size: int)
    | Projected(config: string)
    | Ephemeral(storageClass: string, quantity: string)
    | ConfigMap(name: string)
    | OtherSource(code: int)

  datatype Volume = Volume(name: string, source: Source)

  datatype Mount = Mount(name: string, path: string, subPath: string, subPathExpr: string, readOnly: bool, propagation: bool)

  // ---------------------------------------------------------------- volumes

  /** slices.IndexFunc by name: the first match, or the length. */
  function FindVolume(vs: seq<Volume>, name: string): (i: nat)
    ensures i <= |vs| && (i < |vs| ==> vs[i].name == name)
    ensures forall k :: 0 <= k < i ==> vs[k].name != name
  {
    if vs == [] || vs[0].name == name then 0
    else
      var r := FindVolume(vs[1..], name);
      assert forall k :: 0 < k < r + 1 ==> vs[k] == vs[1..][k - 1];
      r + 1
  }

  predicate HasVolume(vs: seq<Volume>, name: string) {
    FindVolume(vs, name) < |vs|
  }

  function VolumeNamed(vs: seq<Volume>, name: string): Option<Volume> {
    var i := FindVolume(vs, name);
    if i < |vs| then Some(vs[i]) else None
  }

  function PutVolume(vs: seq<Volume>, v: Volume): seq<Volume> {
    var i := FindVolume(vs, v.name);
    if i < |vs| then vs[i := v] else vs + [v]
  }

  function PutVolumes(vs: seq<Volume>, list: seq<Volume>): seq<Volume> {
    if list == [] then vs else PutVolume(PutVolumes(vs, list[..|list| - 1]), list[|list| - 1])
  }

  ghost predicate VolumesUnique(vs: seq<Volume>) {
    forall i, j :: 0 <= i < j < |vs| ==> vs[i].name != vs[j].name
  }

  /** The volumes with other names, in order. */
  ghost function OtherVolumes(vs: seq<Volume>, names: set<string>): seq<Volume> {
    if vs == [] then []
    else (if vs[0].name in names then [] else [vs[0]]) + OtherVolumes(vs[1..], names)
  }

  lemma FindVolumeIs(vs: seq<Volume>, name: string, i: nat)
    requires i <= |vs| && (i < |vs| ==> vs[i].name == name)
    requires forall k :: 0 <= k < i ==> vs[k].name != name
    ensures FindVolume(vs, name) == i
  {
  }

  lemma PutVolumeNames(vs: seq<Volume>, v: Volume)
    requires VolumesUnique(vs)
    ensures VolumesUnique(PutVolume(vs, v))
  {
  }

  lemma PutVolumeThere(vs: seq<Volume>, v: Volume)
    ensures VolumeNamed(PutVolume(vs, v), v.name) == Some(v)
  {
    FindVolumeIs(PutVolume(vs, v), v.name, FindVolume(vs, v.name));
  }

  lemma PutVolumeElsewhere(vs: seq<Volume>, v: Volume, name: string)
    requires name != v.name
    ensures VolumeNamed(PutVolume(vs, v), name) == VolumeNamed(vs, name)
  {
    var i, now := FindVolume(vs, name), PutVolume(vs, v);
    if i < |vs| {
      FindVolumeIs(now, name, i);
    } else {
      FindVolumeIs(now, name, |now|);
    }
  }

  lemma PutVolumeAgain(vs: seq<Volume>, v: Volume)
    requires VolumeNamed(vs, v.name) == Some(v)
    ensures PutVolume(vs, v) == vs
  {
  }

  lemma {:induction false} OtherVolumesAppend(vs: seq<Volume>, v: Volume, names: set<string>)
    requires v.name in names
    ensures OtherVolumes(vs + [v], names) == OtherVolumes(vs, names)
  {
    if vs == [] {
      assert (vs + [v])[1..] == [];
    } else {
      assert (vs + [v])[1..] == vs[1..] + [v];
      OtherVolumesAppend(vs[1..], v, names);
    }
  }

  lemma {:induction false} OtherVolumesUpdate(vs: seq<Volume>, i: nat, v: Volume, names: set<string>)
    requires i < |vs| && v.name in names && vs[i].name in names
    ensures OtherVolumes(vs[i := v], names) == OtherVolumes(vs, names)
  {
    if i == 0 {
      assert vs[i := v][1..] == vs[1..];
    } else {
      assert vs[i := v][1..] == vs[1..][i - 1 := v];
      OtherVolumesUpdate(vs[1..], i - 1, v, names);
    }
  }

  lemma PutVolumeOthers(vs: seq<Volume>, v: Volume, names: set<string>)
    requires v.name in names
    ensures OtherVolumes(PutVolume(vs, v), names) == OtherVolumes(vs, names)
  {
    var i := FindVolume(vs, v.name);
    if i < |vs| {
      OtherVolumesUpdate(vs, i, v, names);
    } else {
      OtherVolumesAppend(vs, v, names);
    }
  }

  /** After the loop: names stay unique, foreign volumes keep content and order, and
      lookups of foreign names are unchanged. */
  lemma {:induction false} PutVolumesFrame(vs: seq<Volume>, list: seq<Volume>, names: set<string>)
    requires VolumesUnique(vs) && forall i :: 0 <= i < |list| ==> list[i].name in names
    ensures VolumesUnique(PutVolumes(vs, list))
    ensures OtherVolumes(PutVolumes(vs, list), names) == OtherVolumes(vs, names)
    ensures forall n :: n !in names ==> VolumeNamed(PutVolumes(vs, list), n) == VolumeNamed(vs, n)
  {
    if list != [] {
      var k := |list| - 1;
      var before := PutVolumes(vs, list[..k]);
      PutVolumesFrame(vs, list[..k], names);
      PutVolumeNames(before, list[k]);
      PutVolumeOthers(before, list[k], names);
      forall n | n !in names ensures VolumeNamed(PutVolumes(vs, list), n) == VolumeNamed(vs, n) {
        PutVolumeElsewhere(before, list[k], n);
      }
    }
  }

  /** Every listed volume is in place afterwards. */
  lemma {:induction false} PutVolumesThere(vs: seq<Volume>, list: seq<Volume>, i: nat)
    requires i < |list| && VolumesUnique(list)
    ensures VolumeNamed(PutVolumes(vs, list), list[i].name) == Some(list[i])
  {
    var k := |list| - 1;
    var before := PutVolumes(vs, list[..k]);
    if i == k {
      PutVolumeThere(before, list[k]);
    } else {
      PutVolumesThere(vs, list[..k], i);
      PutVolumeElsewhere(before, list[k], list[i].name);
    }
  }

  lemma {:induction false} PutVolumesStable(vs: seq<Volume>, list: seq<Volume>)
    requires forall i :: 0 <= i < |list| ==> VolumeNamed(vs, list[i].name) == Some(list[i])
    ensures PutVolumes(vs, list) == vs
  {
    if list != [] {
      var k := |list| - 1;
      forall i | 0 <= i < k ensures VolumeNamed(vs, list[..k][i].name) == Some(list[..k][i]) {
        assert list[..k][i] == list[i];
      }
      PutVolumesStable(vs, list[..k]);
      PutVolumeAgain(vs, list[k]);
    }
  }

  /** MAIN: running the volume loop on its own result changes nothing. */
  lemma PutVolumesTwice(vs: seq<Volume>, list: seq<Volume>)
    requires VolumesUnique(list)
    ensures PutVolumes(PutVolumes(vs, list), list) == PutVolumes(vs, list)
  {
    forall i | 0 <= i < |list| ensures VolumeNamed(PutVolumes(vs, list), list[i].name) == Some(list[i]) {
      PutVolumesThere(vs, list, i);
    }
    PutVolumesStable(PutVolumes(vs, list), list);
  }

  /** The loop over the owned volumes: it fails on the first name taken by someone else. */
  method PutVolumesLoop(vs: seq<Volume>, list: seq<Volume>, owned: bool) returns (ok: bool, r: seq<Volume>)
    requires VolumesUnique(list)
    ensures ok <==> owned || forall i :: 0 <= i < |list| ==> !HasVolume(vs, list[i].name)
    ensures ok ==> r == PutVolumes(vs, list)
  {
    r := vs;
    for k := 0 to |list|
      invariant r == PutVolumes(vs, list[..k])
      invariant owned || forall i :: 0 <= i < k ==> !HasVolume(vs, list[i].name)
    {
      var v := list[k];
      var i := FindVolume(r, v.name);
      PutVolumesElsewhere(vs, list[..k], v.name);
      if i < |r| {
        if !owned {
          return false, r;
        }
        r := r[i := v];
      } else {
        r := r + [v];
      }
      assert list[..k + 1][..k] == list[..k];
    }
    assert list[..|list|] == list;
    return true, r;
  }

  lemma {:induction false} PutVolumesElsewhere(vs: seq<Volume>, list: seq<Volume>, name: string)
    requires forall i :: 0 <= i < |list| ==> list[i].name != name
    ensures VolumeNamed(PutVolumes(vs, list), name) == VolumeNamed(vs, name)
    ensures HasVolume(PutVolumes(vs, list), name) == HasVolume(vs, name)
  {
    if list != [] {
      var k := |list| - 1;
      PutVolumesElsewhere(vs, list[..k], name);
      PutVolumeElsewhere(PutVolumes(vs, list[..k]), list[k], name);
    }
  }

  // ---------------------------------------------------------------- mounts

  predicate Touches(m: Mount, wanted: Mount) {
    m.name == wanted.name || m.path == wanted.path
  }

  predicate Same(m: Mount, wanted: Mount) {
    m.name == wanted.name && m.path == wanted.path
  }

  function FindMount(ms: seq<Mount>, m: Mount): (i: nat)
    ensures i <= |ms| && (i < |ms| ==> Touches(ms[i], m))
    ensures forall k :: 0 <= k < i ==> !Touches(ms[k], m)
  {
    if ms == [] || Touches(ms[0], m) then 0
    else
      var r := FindMount(ms[1..], m);
      assert forall k :: 0 < k < r + 1 ==> ms[k] == ms[1..][k - 1];
      r + 1
  }

  lemma FindMountIs(ms: seq<Mount>, m: Mount, i: nat)
    requires i <= |ms| && (i < |ms| ==> Touches(ms[i], m))
    requires forall k :: 0 <= k < i ==> !Touches(ms[k], m)
    ensures FindMount(ms, m) == i
  {
  }

  /** addMount admits a new mount, or replaces an owned one with the same name and path. */
  predicate MountFits(ms: seq<Mount>, m: Mount, owned: bool) {
    var i := FindMount(ms, m);
    i == |ms| || (owned && Same(ms[i], m))
  }

  function PutMount(ms: seq<Mount>, m: Mount): seq<Mount> {
    var i := FindMount(ms, m);
    if i < |ms| then ms[i := m] else ms + [m]
  }

  function PutMounts(ms: seq<Mount>, list: seq<Mount>): seq<Mount> {
    if list == [] then ms else PutMount(PutMounts(ms, list[..|list| - 1]), list[|list| - 1])
  }

  predicate MountsFit(ms: seq<Mount>, list: seq<Mount>, owned: bool) {
    list == [] ||
    (MountsFit(ms, list[..|list| - 1], owned) && MountFits(PutMounts(ms, list[..|list| - 1]), list[|list| - 1], owned))
  }

  ghost predicate PathsUnique(ms: seq<Mount>) {
    forall i, j :: 0 <= i < j < |ms| ==> ms[i].path != ms[j].path
  }

  /** Mounts that share neither name nor path. */
  ghost predicate Apart(list: seq<Mount>) {
    forall i, j :: 0 <= i < j < |list| ==> !Touches(list[i], list[j])
  }

  ghost function OtherMounts(ms: seq<Mount>, names: set<string>): seq<Mount> {
    if ms == [] then []
    else (if ms[0].name in names then [] else [ms[0]]) + OtherMounts(ms[1..], names)
  }

  /** The mount is there, and is what addMount would find. */
  predicate InPlace(ms: seq<Mount>, m: Mount) {
    var i := FindMount(ms, m);
    i < |ms| && ms[i] == m
  }

  lemma PutMountThere(ms: seq<Mount>, m: Mount)
    ensures InPlace(PutMount(ms, m), m)
  {
    FindMountIs(PutMount(ms, m), m, FindMount(ms, m));
  }

  lemma PutMountElsewhere(ms: seq<Mount>, m: Mount, other: Mount, owned: bool)
    requires MountFits(ms, m, owned) && InPlace(ms, other) && !Touches(m, other)
    ensures InPlace(PutMount(ms, m), other)
  {
    FindMountIs(PutMount(ms, m), other, FindMount(ms, other));
  }

  lemma PutMountPaths(ms: seq<Mount>, m: Mount, owned: bool)
    requires PathsUnique(ms) && MountFits(ms, m, owned)
    ensures PathsUnique(PutMount(ms, m))
  {
  }

  lemma {:induction false} OtherMountsAppend(ms: seq<Mount>, m: Mount, names: set<string>)
    requires m.name in names
    ensures OtherMounts(ms + [m], names) == OtherMounts(ms, names)
  {
    if ms == [] {
      assert (ms + [m])[1..] == [];
    } else {
      assert (ms + [m])[1..] == ms[1..] + [m];
      OtherMountsAppend(ms[1..], m, names);
    }
  }

  lemma {:induction false} OtherMountsUpdate(ms: seq<Mount>, i: nat, m: Mount, names: set<string>)
    requires i < |ms| && m.name in names && ms[i].name in names
    ensures OtherMounts(ms[i := m], names) == OtherMounts(ms, names)
  {
    if i == 0 {
      assert ms[i := m][1..] == ms[1..];
    } else {
      assert ms[i := m][1..] == ms[1..][i - 1 := m];
      OtherMountsUpdate(ms[1..], i - 1, m, names);
    }
  }

  lemma PutMountOthers(ms: seq<Mount>, m: Mount, owned: bool, names: set<string>)
    requires MountFits(ms, m, owned) && m.name in names
    ensures OtherMounts(PutMount(ms, m), names) == OtherMounts(ms, names)
  {
    var i := FindMount(ms, m);
    if i < |ms| {
      OtherMountsUpdate(ms, i, m, names);
    } else {
      OtherMountsAppend(ms, m, names);
    }
  }

  lemma {:induction false} PutMountsFrame(ms: seq<Mount>, list: seq<Mount>, owned: bool, names: set<string>)
    requires PathsUnique(ms) && MountsFit(ms, list, owned) && forall i :: 0 <= i < |list| ==> list[i].name in names
    ensures PathsUnique(PutMounts(ms, list)) && OtherMounts(PutMounts(ms, list), names) == OtherMounts(ms, names)
  {
    if list != [] {
      var k := |list| - 1;
      PutMountsFrame(ms, list[..k], owned, names);
      PutMountPaths(PutMounts(ms, list[..k]), list[k], owned);
      PutMountOthers(PutMounts(ms, list[..k]), list[k], owned, names);
    }
  }

  lemma {:induction false} PutMountsThere(ms: seq<Mount>, list: seq<Mount>, owned: bool, i: nat)
    requires MountsFit(ms, list, owned) && Apart(list) && i < |list|
    ensures InPlace(PutMounts(ms, list), list[i])
  {
    var k := |list| - 1;
    var before := PutMounts(ms, list[..k]);
    if i == k {
      PutMountThere(before, list[k]);
    } else {
      PutMountsThere(ms, list[..k], owned, i);
      PutMountElsewhere(before, list[k], list[i], owned);
    }
  }

  lemma {:induction false} PutMountsStable(ms: seq<Mount>, list: seq<Mount>)
    requires forall i :: 0 <= i < |list| ==> InPlace(ms, list[i])
    ensures PutMounts(ms, list) == ms && MountsFit(ms, list, true)
  {
    if list != [] {
      var k := |list| - 1;
      forall i | 0 <= i < k ensures InPlace(ms, list[..k][i]) {
        assert list[..k][i] == list[i];
      }
      PutMountsStable(ms, list[..k]);
    }
  }

  /** MAIN: adding the mounts again is admitted and changes nothing. */
  lemma PutMountsTwice(ms: seq<Mount>, list: seq<Mount>, owned: bool)
    requires MountsFit(ms, list, owned) && Apart(list)
    ensures PutMounts(PutMounts(ms, list), list) == PutMounts(ms, list) && MountsFit(PutMounts(ms, list), list, true)
  {
    forall i | 0 <= i < |list| ensures InPlace(PutMounts(ms, list), list[i]) {
      PutMountsThere(ms, list, owned, i);
    }
    PutMountsStable(PutMounts(ms, list), list);
  }

  /** The calls of addMount. */
  method PutMountsLoop(ms: seq<Mount>, list: seq<Mount>, owned: bool) returns (ok: bool, r: seq<Mount>)
    ensures ok <==> MountsFit(ms, list, owned)
    ensures ok ==> r == PutMounts(ms, list)
  {
    r := ms;
    for k := 0 to |list|
      invariant r == PutMounts(ms, list[..k]) && MountsFit(ms, list[..k], owned)
    {
      var m := list[k];
      assert list[..k + 1][..k] == list[..k];
      var i := FindMount(r, m);
      if i < |r| {
        if !owned || r[i].name != m.name || r[i].path != m.path {
          if MountsFit(ms, list, owned) {
            MountsFitPrefix(ms, list, owned, k + 1);
          }
          return false, r;
        }
        r := r[i := m];
      } else {
        r := r + [m];
      }
    }
    assert list[..|list|] == list;
    return true, r;
  }

  lemma {:induction false} MountsFitPrefix(ms: seq<Mount>, list: seq<Mount>, owned: bool, k: nat)
    requires MountsFit(ms, list, owned) && k <= |list|
    ensures MountsFit(ms, list[..k], owned)
    decreases |list|
  {
    if k == |list| {
      assert list[..k] == list;
    } else {
      var n := |list| - 1;
      assert list[..n][..k] == list[..k];
      MountsFitPrefix(ms, list[..n], owned, k);
    }
  }
}
