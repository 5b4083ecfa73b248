/** The cross-archive inventory of a capture and its comparison with the native manifest,
    and the tablespace map. Models the archive loop of capture and validateTablespaceMap. */
module CaptureInventory {
  import opened Basics
  import A = ArchiveScan
  import W = WalNames

  // ---------------------------------------------------------------- archives

  /** One tar file: base.tar, pg_wal.tar, then one archive per tablespace OID. */
  datatype Archive = Archive(oid: string, bytes: int, members: seq<A.Member>, ended: bool, tail: seq<bv8>)

  /** The configured limits, the WAL segment size and the size of the manifest file. */
  datatype Limits = Limits(maxBackup: int, maxWal: int, segment: int, manifestBytes: int)

  function FullPath(i: nat, oid: string, p: string): string {
    if i >= 2 then "pg_tblspc/" + oid + "/" + p else p
  }

  predicate HasSuffix(s: string, suffix: string) {
    |suffix| <= |s| && s[|s| - |suffix|..] == suffix
  }

  predicate UpperHexName(p: string) {
    |p| == 24 && (forall i :: 0 <= i < |p| ==> '0' <= p[i] <= '9' || 'A' <= p[i] <= 'F') && p[..8] != "00000000"
  }

  /** The visitor's rule for a file of the WAL archive. */
  predicate WalFileOK(p: string, size: int, segment: int) {
    if p == "archive_status" || HasPrefix(p, "archive_status/") then size == 0 && HasSuffix(p, ".done")
    else UpperHexName(p) && size == segment
  }

  /** The metadata files copied out of the base archive stay small. */
  predicate MetadataOK(i: nat, p: string, size: int) {
    i == 0 && (p == "backup_label" || p == "tablespace_map" || p == "global/pg_control") ==> size <= 0x1_0000
  }

  predicate FileOK(i: nat, f: (string, int), limits: Limits) {
    if i == 1 then WalFileOK(f.0, f.1, limits.segment) else MetadataOK(i, f.0, f.1)
  }

  /** The data files an archive contributes, under their cluster-wide paths. */
  function Contributed(i: nat, oid: string, files: seq<(string, int)>): seq<(string, int)> {
    if i == 1 then [] else seq(|files|, k requires 0 <= k < |files| => (FullPath(i, oid, files[k].0), files[k].1))
  }

  /** All data files of archives 0..n-1. */
  function DataFiles(archives: seq<Archive>, n: nat): seq<(string, int)>
    requires n <= |archives|
  {
    if n == 0 then []
    else DataFiles(archives, n - 1) + Contributed(n - 1, archives[n - 1].oid, A.Files(archives[n - 1].members))
  }

  function RawBytes(archives: seq<Archive>, n: nat): int
    requires n <= |archives|
  {
    if n == 0 then 0 else RawBytes(archives, n - 1) + archives[n - 1].bytes
  }

  function Entries(archives: seq<Archive>, n: nat): nat
    requires n <= |archives|
  {
    if n == 0 then 0 else Entries(archives, n - 1) + |archives[n - 1].members|
  }

  ghost predicate PathsDistinct(files: seq<(string, int)>) {
    forall i, j :: 0 <= i < j < |files| ==> files[i].0 != files[j].0
  }

  /** Archive i alone, within the running total. */
  ghost predicate ArchiveOK(archives: seq<Archive>, i: nat, limits: Limits)
    requires i < |archives|
  {
    var a := archives[i];
    && limits.manifestBytes + RawBytes(archives, i + 1) <= limits.maxBackup
    && (i == 1 ==> a.bytes <= limits.maxWal)
    && A.Admissible(a.members, a.bytes) && a.ended && A.ZeroTail(a.tail) && A.StreamFits(a.members, |a.tail|, a.bytes)
    && (forall f :: f in A.Files(a.members) ==> FileOK(i, f, limits))
    && Entries(archives, i + 1) <= A.MAX_ENTRIES
  }

  /** The first n archives are admissible and no path occurs twice across them. */
  ghost predicate ArchivesOK(archives: seq<Archive>, n: nat, limits: Limits)
    requires n <= |archives|
  {
    (forall i :: 0 <= i < n ==> ArchiveOK(archives, i, limits)) && PathsDistinct(DataFiles(archives, n))
  }

  predicate Sanctioned(p: string) {
    p == "backup_label" || p == "tablespace_map"
  }

  /** The inventory and the manifest agree, up to the two sanctioned metadata files. */
  ghost predicate Matches(actual: map<string, int>, manifest: map<string, int>) {
    && (forall p :: p in actual && !Sanctioned(p) ==> p in manifest && manifest[p] == actual[p])
    && (forall p :: p in manifest ==> p in actual && actual[p] == manifest[p])
  }

  // ---------------------------------------------------------------- the loops

  lemma PathsDistinctStep(files: seq<(string, int)>, f: (string, int), actual: map<string, int>)
    requires PathsDistinct(files) && A.Tabulates(actual, files)
    ensures PathsDistinct(files + [f]) <==> f.0 !in actual
    ensures f.0 !in actual ==> A.Tabulates(actual[f.0 := f.1], files + [f])
  {
    var all := files + [f];
    if f.0 in actual {
      assert (f.0, actual[f.0]) in files;
      var k :| 0 <= k < |files| && files[k] == (f.0, actual[f.0]);
      assert all[k].0 == all[|files|].0;
    } else {
      forall i | 0 <= i < |files| ensures files[i].0 != f.0 {
        assert files[i] in files;
      }
      A.TabulatesStep(actual, files, f.0, f.1);
    }
  }

  lemma PrefixDistinct(a: seq<(string, int)>, b: seq<(string, int)>)
    requires PathsDistinct(a + b)
    ensures PathsDistinct(a)
  {
    forall i, j | 0 <= i < j < |a| ensures a[i].0 != a[j].0 {
      assert (a + b)[i] == a[i] && (a + b)[j] == a[j];
    }
  }

  /** The visitor over the WAL archive. */
  method VisitWal(files: seq<(string, int)>, limits: Limits) returns (ok: bool)
    ensures ok <==> forall f :: f in files ==> FileOK(1, f, limits)
  {
    for k := 0 to |files|
      invariant forall j :: 0 <= j < k ==> FileOK(1, files[j], limits)
    {
      if !WalFileOK(files[k].0, files[k].1, limits.segment) {
        assert files[k] in files;
        return false;
      }
    }
    return true;
  }

  lemma Extended(known: seq<(string, int)>, all: seq<(string, int)>, k: nat, f: (string, int))
    requires k < |all| && all[k] == f
    ensures known + all[..k + 1] == known + all[..k] + [f]
    ensures PathsDistinct(known + all) ==> PathsDistinct(known + all[..k] + [f])
  {
    assert all[..k + 1] == all[..k] + [f];
    if PathsDistinct(known + all) {
      assert known + all == (known + all[..k] + [f]) + all[k + 1..];
      PrefixDistinct(known + all[..k] + [f], all[k + 1..]);
    }
  }

  /** The visitor over a data archive; known lists the paths recorded before it. */
  method VisitData(i: nat, oid: string, files: seq<(string, int)>, limits: Limits, before: map<string, int>, ghost known: seq<(string, int)>)
    returns (ok: bool, actual: map<string, int>)
    requires i != 1 && PathsDistinct(known) && A.Tabulates(before, known)
    ensures ok <==> (forall f :: f in files ==> FileOK(i, f, limits)) && PathsDistinct(known + Contributed(i, oid, files))
    ensures ok ==> A.Tabulates(actual, known + Contributed(i, oid, files))
  {
    actual := before;
    ghost var all := Contributed(i, oid, files);
    ghost var now := known;
    for k := 0 to |files|
      invariant forall j :: 0 <= j < k ==> FileOK(i, files[j], limits)
      invariant now == known + all[..k]
      invariant PathsDistinct(now) && A.Tabulates(actual, now)
    {
      var f := files[k];
      var full := FullPath(i, oid, f.0);
      PathsDistinctStep(now, (full, f.1), actual);
      Extended(known, all, k, (full, f.1));
      now := now + [(full, f.1)];
      if full in actual {
        return false, actual;
      }
      actual := actual[full := f.1];
      if !MetadataOK(i, f.0, f.1) {
        assert f in files;
        return false, actual;
      }
    }
    assert all[..|files|] == all;
    return true, actual;
  }

  /** The visitor over one archive's files. */
  method VisitFiles(i: nat, oid: string, files: seq<(string, int)>, limits: Limits, before: map<string, int>, ghost known: seq<(string, int)>)
    returns (ok: bool, actual: map<string, int>)
    requires PathsDistinct(known) && A.Tabulates(before, known)
    ensures ok <==> (forall f :: f in files ==> FileOK(i, f, limits)) && PathsDistinct(known + Contributed(i, oid, files))
    ensures ok ==> A.Tabulates(actual, known + Contributed(i, oid, files))
  {
    if i == 1 {
      ok := VisitWal(files, limits);
      actual := before;
      assert known + [] == known;
    } else {
      ok, actual := VisitData(i, oid, files, limits, before, known);
    }
  }

  lemma {:induction false} DataFilesPrefix(archives: seq<Archive>, k: nat, n: nat)
    requires k <= n <= |archives| && PathsDistinct(DataFiles(archives, n))
    ensures PathsDistinct(DataFiles(archives, k))
    decreases n - k
  {
    if k < n {
      PrefixDistinct(DataFiles(archives, n - 1), Contributed(n - 1, archives[n - 1].oid, A.Files(archives[n - 1].members)));
      DataFilesPrefix(archives, k, n - 1);
    }
  }

  /** One archive, within the running totals. */
  method AdmitArchive(archives: seq<Archive>, i: nat, limits: Limits, total: int, entries: nat, before: map<string, int>)
    returns (ok: bool, entryCount: nat, actual: map<string, int>)
    requires i < |archives| && PathsDistinct(DataFiles(archives, i)) && A.Tabulates(before, DataFiles(archives, i))
    requires total == limits.manifestBytes + RawBytes(archives, i + 1) && entries == Entries(archives, i)
    ensures ok <==> ArchiveOK(archives, i, limits) && PathsDistinct(DataFiles(archives, i + 1))
    ensures ok ==> A.Tabulates(actual, DataFiles(archives, i + 1)) && entryCount == Entries(archives, i + 1)
  {
    var a := archives[i];
    entryCount, actual := entries, before;
    if total > limits.maxBackup || (i == 1 && a.bytes > limits.maxWal) {
      return false, entryCount, actual;
    }
    var scanned, inv := A.ScanArchive(a.members, a.bytes, a.ended, a.tail);
    if !scanned {
      return false, entryCount, actual;
    }
    ok, actual := VisitFiles(i, a.oid, inv.visited, limits, before, DataFiles(archives, i));
    entryCount := entries + inv.entries;
    ok := ok && entryCount <= A.MAX_ENTRIES;
  }

  /** The archive loop of capture. */
  method CollectInventory(archives: seq<Archive>, limits: Limits) returns (ok: bool, actual: map<string, int>)
    ensures ok <==> ArchivesOK(archives, |archives|, limits)
    ensures ok ==> A.Tabulates(actual, DataFiles(archives, |archives|))
  {
    var total, entryCount := limits.manifestBytes, 0;
    actual := map[];
    for i := 0 to |archives|
      invariant ArchivesOK(archives, i, limits)
      invariant A.Tabulates(actual, DataFiles(archives, i))
      invariant total == limits.manifestBytes + RawBytes(archives, i) && entryCount == Entries(archives, i)
    {
      total := total + archives[i].bytes;
      ok, entryCount, actual := AdmitArchive(archives, i, limits, total, entryCount, actual);
      if !ok {
        if PathsDistinct(DataFiles(archives, |archives|)) {
          DataFilesPrefix(archives, i + 1, |archives|);
        }
        return false, actual;
      }
    }
    return true, actual;
  }

  /** The two comparison loops against the manifest. */
  method CompareManifest(actual: map<string, int>, manifest: map<string, int>) returns (ok: bool)
    ensures ok <==> Matches(actual, manifest)
  {
    var rest := actual.Keys;
    while rest != {}
      invariant rest <= actual.Keys
      invariant forall p :: p in actual && p !in rest && !Sanctioned(p) ==> p in manifest && manifest[p] == actual[p]
      decreases rest
    {
      var p :| p in rest;
      if !Sanctioned(p) && (p !in manifest || manifest[p] != actual[p]) {
        return false;
      }
      rest := rest - {p};
    }
    rest := manifest.Keys;
    while rest != {}
      invariant rest <= manifest.Keys
      invariant forall p :: p in manifest && p !in rest ==> p in actual && actual[p] == manifest[p]
      decreases rest
    {
      var p :| p in rest;
      if p !in actual || actual[p] != manifest[p] {
        return false;
      }
      rest := rest - {p};
    }
    return true;
  }

  /** Archives and manifest together: what reaches native verification. */
  method AdmitCapture(archives: seq<Archive>, manifest: map<string, int>, limits: Limits) returns (ok: bool)
    ensures ok <==> Reaches(archives, manifest, limits)
  {
    var collected, actual := CollectInventory(archives, limits);
    if !collected {
      return false;
    }
    ok := CompareManifest(actual, manifest);
    TableIsUnique(actual, DataFiles(archives, |archives|));
    assert ArchivesOK(archives, |archives|, limits);
  }

  ghost function TableOf(files: seq<(string, int)>): map<string, int> {
    if files == [] then map[]
    else TableOf(files[..|files| - 1])[files[|files| - 1].0 := files[|files| - 1].1]
  }

  ghost predicate Reaches(archives: seq<Archive>, manifest: map<string, int>, limits: Limits) {
    ArchivesOK(archives, |archives|, limits) && Matches(TableOf(DataFiles(archives, |archives|)), manifest)
  }

  lemma {:induction false} TableTabulates(files: seq<(string, int)>)
    requires PathsDistinct(files)
    ensures A.Tabulates(TableOf(files), files)
  {
    if files != [] {
      var n := |files| - 1;
      assert files == files[..n] + [files[n]];
      PrefixDistinct(files[..n], [files[n]]);
      TableTabulates(files[..n]);
      PathsDistinctStep(files[..n], files[n], TableOf(files[..n]));
    }
  }

  lemma TableIsUnique(actual: map<string, int>, files: seq<(string, int)>)
    requires PathsDistinct(files) && A.Tabulates(actual, files)
    ensures actual == TableOf(files)
  {
    TableTabulates(files);
    var t := TableOf(files);
    forall p | p in actual ensures p in t && t[p] == actual[p] {
      assert (p, actual[p]) in files;
    }
    forall p | p in t ensures p in actual {
      assert (p, t[p]) in files;
    }
  }

  /** MAIN: in a capture that reaches native verification every data file of every archive
      has its own path, the manifest lists nothing that is absent, and everything but the
      two sanctioned files is listed with its size. */
  lemma AdmittedCaptureIsManifested(archives: seq<Archive>, manifest: map<string, int>, limits: Limits)
    requires Reaches(archives, manifest, limits)
    ensures var files := DataFiles(archives, |archives|);
            && PathsDistinct(files)
            && (forall f :: f in files && !Sanctioned(f.0) ==> f.0 in manifest && manifest[f.0] == f.1)
            && (forall p :: p in manifest ==> (p, manifest[p]) in files)
  {
    TableTabulates(DataFiles(archives, |archives|));
  }

  /** Every regular file of a data archive is one of those data files. */
  lemma {:induction false} EveryFileCounts(archives: seq<Archive>, n: nat, i: nat, m: A.Member)
    requires i < n <= |archives| && i != 1 && Distinct(A.Names(archives[i].members))
    requires m in archives[i].members && m.kind == A.Regular
    ensures (FullPath(i, archives[i].oid, A.EntryName(m)), m.size) in DataFiles(archives, n)
  {
    if i < n - 1 {
      EveryFileCounts(archives, n - 1, i, m);
    } else {
      A.VisitedExactlyOnce(archives[i].members);
      ContributedHas(i, archives[i].oid, A.Files(archives[i].members), (A.EntryName(m), m.size));
    }
  }

  lemma ContributedHas(i: nat, oid: string, files: seq<(string, int)>, f: (string, int))
    requires i != 1 && f in files
    ensures (FullPath(i, oid, f.0), f.1) in Contributed(i, oid, files)
  {
    var k :| 0 <= k < |files| && files[k] == f;
    assert Contributed(i, oid, files)[k] == (FullPath(i, oid, f.0), f.1);
  }

  // ---------------------------------------------------------------- member by member

  /** Where a regular member of data archive i lies in the cluster. */
  function ClusterPath(archives: seq<Archive>, i: nat, m: A.Member): string
    requires i < |archives|
  {
    if i < 2 then A.EntryName(m) else "pg_tblspc/" + archives[i].oid + "/" + A.EntryName(m)
  }

  ghost predicate DataMember(archives: seq<Archive>, i: nat, m: A.Member) {
    i < |archives| && i != 1 && m in archives[i].members && m.kind == A.Regular
  }

  lemma ReachesArchive(archives: seq<Archive>, manifest: map<string, int>, limits: Limits, i: nat)
    requires Reaches(archives, manifest, limits) && i < |archives|
    ensures ArchiveOK(archives, i, limits) && Distinct(A.Names(archives[i].members))
  {
    assert ArchiveOK(archives, i, limits);
  }

  /** MAIN: in an admitted capture every regular member of a data archive is in the manifest under
      its cluster-wide path and with its size, but for the two sanctioned files; the metadata files
      of the base archive are at most 64 KiB. */
  lemma MemberIsManifested(archives: seq<Archive>, manifest: map<string, int>, limits: Limits, i: nat, m: A.Member)
    requires Reaches(archives, manifest, limits) && DataMember(archives, i, m)
    ensures var p := ClusterPath(archives, i, m);
            && (p != "backup_label" && p != "tablespace_map" ==> p in manifest && manifest[p] == m.size)
            && (i == 0 && (p == "backup_label" || p == "tablespace_map" || p == "global/pg_control") ==> m.size <= 65536)
  {
    ReachesArchive(archives, manifest, limits, i);
    EveryFileCounts(archives, |archives|, i, m);
    AdmittedCaptureIsManifested(archives, manifest, limits);
    MemberPasses(archives, manifest, limits, i, m);
  }

  /** The visitor's rule held for every regular member. */
  lemma MemberPasses(archives: seq<Archive>, manifest: map<string, int>, limits: Limits, i: nat, m: A.Member)
    requires Reaches(archives, manifest, limits) && i < |archives| && m in archives[i].members && m.kind == A.Regular
    ensures FileOK(i, (A.EntryName(m), m.size), limits)
  {
    ReachesArchive(archives, manifest, limits, i);
    A.VisitedExactlyOnce(archives[i].members);
    assert (A.EntryName(m), m.size) in A.Files(archives[i].members);
  }

  lemma ContributedIsMember(archives: seq<Archive>, i: nat, f: (string, int)) returns (m: A.Member)
    requires i < |archives| && Distinct(A.Names(archives[i].members))
    requires f in Contributed(i, archives[i].oid, A.Files(archives[i].members))
    ensures DataMember(archives, i, m) && f == (ClusterPath(archives, i, m), m.size)
  {
    var files := A.Files(archives[i].members);
    var own := Contributed(i, archives[i].oid, files);
    var k :| 0 <= k < |own| && own[k] == f;
    var g := files[k];
    assert g in files && f == (FullPath(i, archives[i].oid, g.0), g.1);
    A.VisitedExactlyOnce(archives[i].members);
    m :| m in archives[i].members && m.kind == A.Regular && g == (A.EntryName(m), m.size);
  }

  lemma {:induction false} DataFileIsMember(archives: seq<Archive>, n: nat, f: (string, int)) returns (i: nat, m: A.Member)
    requires n <= |archives| && f in DataFiles(archives, n) && forall k :: 0 <= k < n ==> Distinct(A.Names(archives[k].members))
    ensures DataMember(archives, i, m) && f == (ClusterPath(archives, i, m), m.size)
  {
    if f in DataFiles(archives, n - 1) {
      i, m := DataFileIsMember(archives, n - 1, f);
    } else {
      i := n - 1;
      m := ContributedIsMember(archives, i, f);
    }
  }

  /** MAIN: and the manifest lists nothing else: each of its entries is a regular member of a data
      archive, with that path and size. */
  lemma ManifestIsMembers(archives: seq<Archive>, manifest: map<string, int>, limits: Limits, p: string) returns (i: nat, m: A.Member)
    requires Reaches(archives, manifest, limits) && p in manifest
    ensures DataMember(archives, i, m) && ClusterPath(archives, i, m) == p && m.size == manifest[p]
  {
    AdmittedCaptureIsManifested(archives, manifest, limits);
    forall k | 0 <= k < |archives| ensures Distinct(A.Names(archives[k].members)) {
      ReachesArchive(archives, manifest, limits, k);
    }
    i, m := DataFileIsMember(archives, |archives|, (p, manifest[p]));
  }

  /** Every regular data member but the two sanctioned files is in the manifest. */
  ghost predicate MembersListed(archives: seq<Archive>, manifest: map<string, int>) {
    forall i: nat, m :: DataMember(archives, i, m) ==>
      var p := ClusterPath(archives, i, m);
      p == "backup_label" || p == "tablespace_map" || (p in manifest && manifest[p] == m.size)
  }

  /** Every manifest entry is a regular data member. */
  ghost predicate ListedAreMembers(archives: seq<Archive>, manifest: map<string, int>) {
    forall p :: p in manifest ==> exists i: nat, m :: DataMember(archives, i, m) && ClusterPath(archives, i, m) == p && m.size == manifest[p]
  }

  lemma MemberIsDataFile(archives: seq<Archive>, limits: Limits, i: nat, m: A.Member)
    requires ArchivesOK(archives, |archives|, limits) && DataMember(archives, i, m)
    ensures (ClusterPath(archives, i, m), m.size) in DataFiles(archives, |archives|)
  {
    assert ArchiveOK(archives, i, limits);
    EveryFileCounts(archives, |archives|, i, m);
  }

  /** MAIN: admissible archives are admitted exactly when members and manifest list each other. */
  lemma ManifestDecides(archives: seq<Archive>, manifest: map<string, int>, limits: Limits)
    requires ArchivesOK(archives, |archives|, limits)
    ensures Reaches(archives, manifest, limits) <==> MembersListed(archives, manifest) && ListedAreMembers(archives, manifest)
  {
    var files := DataFiles(archives, |archives|);
    var table := TableOf(files);
    TableTabulates(files);
    if Reaches(archives, manifest, limits) {
      forall i: nat, m | DataMember(archives, i, m)
        ensures var p := ClusterPath(archives, i, m); p == "backup_label" || p == "tablespace_map" || (p in manifest && manifest[p] == m.size)
      {
        MemberIsManifested(archives, manifest, limits, i, m);
      }
      forall p | p in manifest
        ensures exists i: nat, m :: DataMember(archives, i, m) && ClusterPath(archives, i, m) == p && m.size == manifest[p]
      {
        var i, m := ManifestIsMembers(archives, manifest, limits, p);
      }
    }
    if MembersListed(archives, manifest) && ListedAreMembers(archives, manifest) {
      ListsMatch(archives, manifest, limits);
    }
  }

  lemma ListsMatch(archives: seq<Archive>, manifest: map<string, int>, limits: Limits)
    requires ArchivesOK(archives, |archives|, limits) && MembersListed(archives, manifest) && ListedAreMembers(archives, manifest)
    ensures Matches(TableOf(DataFiles(archives, |archives|)), manifest)
  {
    var files := DataFiles(archives, |archives|);
    var table := TableOf(files);
    TableTabulates(files);
    forall k | 0 <= k < |archives| ensures Distinct(A.Names(archives[k].members)) {
      assert ArchiveOK(archives, k, limits);
    }
    forall p | p in table && !Sanctioned(p) ensures p in manifest && manifest[p] == table[p] {
      var i, m := DataFileIsMember(archives, |archives|, (p, table[p]));
    }
    forall p | p in manifest ensures p in table && table[p] == manifest[p] {
      var i: nat, m :| DataMember(archives, i, m) && ClusterPath(archives, i, m) == p && m.size == manifest[p];
      MemberIsDataFile(archives, limits, i, m);
    }
  }

  /** Every archive of an admitted capture ends properly, with zeros only behind the end, and holds
      nothing but members that pass. */
  lemma ArchivesAreClean(archives: seq<Archive>, manifest: map<string, int>, limits: Limits, i: nat)
    requires Reaches(archives, manifest, limits) && i < |archives|
    ensures archives[i].ended && |archives[i].tail| <= 10240 && forall k :: 0 <= k < |archives[i].tail| ==> archives[i].tail[k] == 0
    ensures A.EachPasses(archives[i].members) && A.NamesApart(archives[i].members) && A.NoneBelowFile(archives[i].members)
    ensures A.Sum(archives[i].members, A.Stored) + 1024 + |archives[i].tail| <= archives[i].bytes
  {
    ReachesArchive(archives, manifest, limits, i);
    A.AdmissibleMeans(archives[i].members, archives[i].bytes);
  }

  /** A WAL file name: 24 upper-case hexadecimal digits of a timeline that is not 0. */
  ghost predicate BootstrapName(p: string) {
    |p| == 24 && W.AllUpperHex(p) && exists i :: 0 <= i < 8 && p[i] != '0'
  }

  /** An empty archive-status file. */
  ghost predicate DoneMark(p: string, size: int) {
    (p == "archive_status" || HasPrefix(p, "archive_status/")) && size == 0 && HasSuffix(p, ".done")
  }

  lemma WalFileMeans(p: string, size: int, segment: int)
    ensures WalFileOK(p, size, segment) <==> DoneMark(p, size) || (BootstrapName(p) && size == segment)
  {
    if HasPrefix(p, "archive_status/") || p == "archive_status" {
      assert p[0] == 'a';
    }
    if |p| == 24 {
      assert W.AllUpperHex(p) <==> forall i :: 0 <= i < |p| ==> '0' <= p[i] <= '9' || 'A' <= p[i] <= 'F';
      assert p[..8] == "00000000" <==> forall i :: 0 <= i < 8 ==> p[i] == '0';
    }
  }

  /** MAIN: in an admitted capture the WAL archive holds whole segments under WAL names and empty
      archive-status marks, nothing else; and all archives stay within the configured sizes. */
  lemma BootstrapWalIsWhole(archives: seq<Archive>, manifest: map<string, int>, limits: Limits, m: A.Member)
    requires Reaches(archives, manifest, limits) && |archives| > 1 && m in archives[1].members && m.kind == A.Regular
    ensures DoneMark(A.EntryName(m), m.size) || (BootstrapName(A.EntryName(m)) && m.size == limits.segment)
    ensures archives[1].bytes <= limits.maxWal
    ensures limits.manifestBytes + RawBytes(archives, |archives|) <= limits.maxBackup && Entries(archives, |archives|) <= 100000
  {
    ReachesArchive(archives, manifest, limits, 1);
    ReachesArchive(archives, manifest, limits, |archives| - 1);
    MemberPasses(archives, manifest, limits, 1, m);
    WalFileMeans(A.EntryName(m), m.size, limits.segment);
  }

  // ---------------------------------------------------------------- the tablespace map

  datatype Tablespace = Tablespace(oid: nat, name: string)

  function Digit(d: nat): char
    requires d < 10
  {
    '0' + d as char
  }

  /** strconv.FormatUint(n, 10). */
  function FormatDec(n: nat): (s: string)
    ensures |s| > 0 && forall i :: 0 <= i < |s| ==> '0' <= s[i] <= '9'
  {
    if n < 10 then [Digit(n)] else FormatDec(n / 10) + [Digit(n % 10)]
  }

  function DecValue(s: string): int {
    if s == [] then 0 else 10 * DecValue(s[..|s| - 1]) + (s[|s| - 1] as int - '0' as int)
  }

  lemma {:induction false} DecRoundTrip(n: nat)
    ensures DecValue(FormatDec(n)) == n
  {
    if n >= 10 {
      DecRoundTrip(n / 10);
      var s := FormatDec(n);
      assert s[..|s| - 1] == FormatDec(n / 10);
    } else {
      assert FormatDec(n)[..0] == [];
    }
  }

  /** strings.SplitN(line, sep, 2): the position of the first separator, or the length. */
  function FirstOf(line: string, sep: char): (i: nat)
    ensures i <= |line| && (i < |line| ==> line[i] == sep)
    ensures forall k :: 0 <= k < i ==> line[k] != sep
  {
    if line == [] then 0 else if line[0] == sep then 0
    else
      var r := FirstOf(line[1..], sep);
      assert forall k :: 0 < k < r + 1 ==> line[k] == line[1..][k - 1];
      r + 1
  }

  /** strings.Split(text, sep). */
  function SplitOn(text: string, sep: char): (lines: seq<string>)
    ensures |lines| > 0
    decreases |text|
  {
    var i := FirstOf(text, sep);
    if i == |text| then [text] else [text[..i]] + SplitOn(text[i + 1..], sep)
  }

  function TrimNewline(text: string): string {
    if text != [] && text[|text| - 1] == '\n' then text[..|text| - 1] else text
  }

  /** The key and the value of one map line. */
  function Key(line: string): string {
    line[..FirstOf(line, ' ')]
  }

  function Value(line: string): string
    requires FirstOf(line, ' ') < |line|
  {
    line[FirstOf(line, ' ') + 1..]
  }

  function Location(paths: map<string, string>, name: string): string {
    if name in paths then paths[name] else ""
  }

  /** The line a tablespace must have. */
  function ExpectedLine(t: Tablespace, paths: map<string, string>): string {
    FormatDec(t.oid) + " " + Location(paths, t.name)
  }

  function ExpectedLines(tables: seq<Tablespace>, paths: map<string, string>): seq<string> {
    seq(|tables|, i requires 0 <= i < |tables| => ExpectedLine(tables[i], paths))
  }

  ghost predicate OidsDistinct(tables: seq<Tablespace>) {
    forall i, j :: 0 <= i < j < |tables| ==> tables[i].oid != tables[j].oid
  }

  /** The expected map holds exactly the tables' texts. */
  ghost predicate Expects(expected: map<string, string>, tables: seq<Tablespace>, paths: map<string, string>) {
    && (forall t :: t in tables ==> FormatDec(t.oid) in expected && expected[FormatDec(t.oid)] == Location(paths, t.name))
    && (forall k :: k in expected ==> exists t :: t in tables && FormatDec(t.oid) == k)
    && |expected| == |tables|
  }

  predicate LineOK(line: string, expected: map<string, string>) {
    && FirstOf(line, ' ') < |line|
    && Key(line) in expected && expected[Key(line)] != "" && expected[Key(line)] == Value(line)
  }

  lemma LineParts(t: Tablespace, paths: map<string, string>)
    ensures var line := ExpectedLine(t, paths);
            FirstOf(line, ' ') < |line| && Key(line) == FormatDec(t.oid) && Value(line) == Location(paths, t.name)
  {
    var key, line := FormatDec(t.oid), ExpectedLine(t, paths);
    assert line[|key|] == ' ';
    assert forall k :: 0 <= k < |key| ==> line[k] == key[k];
    assert FirstOf(line, ' ') == |key|;
    assert line[..|key|] == key;
  }

  lemma LineFromParts(line: string)
    requires FirstOf(line, ' ') < |line|
    ensures line == Key(line) + " " + Value(line)
  {
    SplitAt(line, FirstOf(line, ' '));
  }

  lemma SplitAt(line: string, i: nat)
    requires i < |line|
    ensures line == line[..i] + [line[i]] + line[i + 1..]
  {
  }

  /** An acceptable line is exactly the expected line of one table. */
  lemma AcceptedLineIsExpected(line: string, expected: map<string, string>, tables: seq<Tablespace>, paths: map<string, string>)
    requires Expects(expected, tables, paths) && LineOK(line, expected)
    ensures line in ExpectedLines(tables, paths)
  {
    LineFromParts(line);
    var t :| t in tables && FormatDec(t.oid) == Key(line);
    var i :| 0 <= i < |tables| && tables[i] == t;
    assert ExpectedLines(tables, paths)[i] == line;
  }

  lemma ExpectedLineAccepted(i: nat, expected: map<string, string>, tables: seq<Tablespace>, paths: map<string, string>)
    requires Expects(expected, tables, paths) && i < |tables| && Location(paths, tables[i].name) != ""
    ensures LineOK(ExpectedLines(tables, paths)[i], expected)
  {
    LineParts(tables[i], paths);
    assert tables[i] in tables;
  }

  ghost predicate KeysDistinct(lines: seq<string>) {
    forall i, j :: 0 <= i < j < |lines| ==> Key(lines[i]) != Key(lines[j])
  }

  lemma ExpectedKeysDistinct(tables: seq<Tablespace>, paths: map<string, string>)
    requires OidsDistinct(tables)
    ensures KeysDistinct(ExpectedLines(tables, paths)) && Distinct(ExpectedLines(tables, paths))
  {
    var lines := ExpectedLines(tables, paths);
    forall i, j | 0 <= i < j < |lines| ensures Key(lines[i]) != Key(lines[j]) {
      LineParts(tables[i], paths);
      LineParts(tables[j], paths);
      DecRoundTrip(tables[i].oid);
      DecRoundTrip(tables[j].oid);
    }
  }

  lemma {:induction false} DistinctMultiset(s: seq<string>, x: string)
    requires Distinct(s)
    ensures multiset(s)[x] == if x in s then 1 else 0
  {
    if s != [] {
      var n := |s| - 1;
      assert s == s[..n] + [s[n]];
      DistinctMultiset(s[..n], x);
    }
  }

  lemma DistinctPermutation(a: seq<string>, b: seq<string>)
    requires Distinct(a) && Distinct(b) && Elements(a) == Elements(b)
    ensures multiset(a) == multiset(b)
  {
    forall x ensures multiset(a)[x] == multiset(b)[x] {
      DistinctMultiset(a, x);
      DistinctMultiset(b, x);
      assert x in a <==> x in Elements(a);
      assert x in b <==> x in Elements(b);
    }
  }

  /** The expected map as the loop builds it: a later tablespace with the same OID wins. */
  function ExpectedMap(tables: seq<Tablespace>, paths: map<string, string>): map<string, string> {
    if tables == [] then map[]
    else
      var n := |tables| - 1;
      ExpectedMap(tables[..n], paths)[FormatDec(tables[n].oid) := Location(paths, tables[n].name)]
  }

  lemma FreshKey(tables: seq<Tablespace>, t: Tablespace, expected: map<string, string>, paths: map<string, string>)
    requires OidsDistinct(tables + [t]) && Expects(expected, tables, paths)
    ensures FormatDec(t.oid) !in expected
  {
    forall k | 0 <= k < |tables| ensures tables[k].oid != t.oid {
      assert (tables + [t])[k].oid != (tables + [t])[|tables|].oid;
    }
    if FormatDec(t.oid) in expected {
      var u :| u in tables && FormatDec(u.oid) == FormatDec(t.oid);
      DecRoundTrip(u.oid);
      DecRoundTrip(t.oid);
    }
  }

  lemma ExpectsStep(tables: seq<Tablespace>, t: Tablespace, expected: map<string, string>, paths: map<string, string>)
    requires Expects(expected, tables, paths) && FormatDec(t.oid) !in expected
    ensures Expects(expected[FormatDec(t.oid) := Location(paths, t.name)], tables + [t], paths)
  {
    var all, more := tables + [t], expected[FormatDec(t.oid) := Location(paths, t.name)];
    forall u | u in all
      ensures FormatDec(u.oid) in more && more[FormatDec(u.oid)] == Location(paths, u.name)
    {
      assert u in tables || u == t;
    }
    forall k | k in more ensures exists u :: u in all && FormatDec(u.oid) == k {
      if k == FormatDec(t.oid) {
        assert t in all;
      } else {
        var u :| u in tables && FormatDec(u.oid) == k;
        assert u in all;
      }
    }
  }

  lemma {:induction false} ExpectedMapExpects(tables: seq<Tablespace>, paths: map<string, string>)
    requires OidsDistinct(tables)
    ensures Expects(ExpectedMap(tables, paths), tables, paths)
  {
    if tables != [] {
      var n := |tables| - 1;
      assert tables == tables[..n] + [tables[n]];
      ExpectedMapExpects(tables[..n], paths);
      FreshKey(tables[..n], tables[n], ExpectedMap(tables[..n], paths), paths);
      ExpectsStep(tables[..n], tables[n], ExpectedMap(tables[..n], paths), paths);
    }
  }

  method BuildExpected(tables: seq<Tablespace>, paths: map<string, string>) returns (expected: map<string, string>)
    ensures expected == ExpectedMap(tables, paths)
  {
    expected := map[];
    for i := 0 to |tables|
      invariant expected == ExpectedMap(tables[..i], paths)
    {
      expected := expected[FormatDec(tables[i].oid) := Location(paths, tables[i].name)];
      assert tables[..i + 1][..i] == tables[..i];
    }
    assert tables[..|tables|] == tables;
  }

  ghost predicate AllLocated(tables: seq<Tablespace>, paths: map<string, string>) {
    forall t :: t in tables ==> Location(paths, t.name) != ""
  }

  ghost predicate LinesAccepted(lines: seq<string>, expected: map<string, string>) {
    |lines| == |expected| && (forall l :: l in lines ==> LineOK(l, expected)) && KeysDistinct(lines)
  }

  /** validateTablespaceMap. */
  method ValidateTablespaceMap(text: string, tables: seq<Tablespace>, paths: map<string, string>) returns (ok: bool)
    ensures ok <==> LinesAccepted(SplitOn(TrimNewline(text), '\n'), ExpectedMap(tables, paths))
    ensures OidsDistinct(tables) ==>
              (ok <==> && AllLocated(tables, paths)
                       && multiset(SplitOn(TrimNewline(text), '\n')) == multiset(ExpectedLines(tables, paths)))
  {
    var expected := BuildExpected(tables, paths);
    var lines := SplitOn(TrimNewline(text), '\n');
    ok := |lines| == |expected|;
    if ok {
      ok := CheckLines(lines, expected);
    }
    if OidsDistinct(tables) {
      MapIsPermutation(lines, tables, paths);
    }
  }

  method CheckLines(lines: seq<string>, expected: map<string, string>) returns (ok: bool)
    ensures ok <==> (forall l :: l in lines ==> LineOK(l, expected)) && KeysDistinct(lines)
  {
    var seen: set<string> := {};
    for i := 0 to |lines|
      invariant forall k :: 0 <= k < i ==> LineOK(lines[k], expected)
      invariant KeysDistinct(lines[..i])
      invariant forall key :: key in seen <==> exists k :: 0 <= k < i && Key(lines[k]) == key
    {
      var line := lines[i];
      if FirstOf(line, ' ') == |line| || Key(line) in seen || Key(line) !in expected
         || expected[Key(line)] == "" || expected[Key(line)] != Value(line) {
        assert line in lines;
        return false;
      }
      seen := seen + {Key(line)};
    }
    assert lines[..|lines|] == lines;
    return true;
  }

  /** MAIN: with distinct OIDs the accepted maps are exactly the permutations of the
      expected lines, provided every managed tablespace has a location. */
  lemma MapIsPermutation(lines: seq<string>, tables: seq<Tablespace>, paths: map<string, string>)
    requires OidsDistinct(tables)
    ensures LinesAccepted(lines, ExpectedMap(tables, paths))
            <==> AllLocated(tables, paths) && multiset(lines) == multiset(ExpectedLines(tables, paths))
  {
    var expected := ExpectedMap(tables, paths);
    ExpectedMapExpects(tables, paths);
    if LinesAccepted(lines, expected) {
      AcceptedIsPermutation(lines, expected, tables, paths);
    }
    if AllLocated(tables, paths) && multiset(lines) == multiset(ExpectedLines(tables, paths)) {
      PermutationIsAccepted(lines, expected, tables, paths);
    }
  }

  lemma AcceptedIsPermutation(lines: seq<string>, expected: map<string, string>, tables: seq<Tablespace>, paths: map<string, string>)
    requires Expects(expected, tables, paths) && OidsDistinct(tables)
    requires LinesAccepted(lines, expected)
    ensures AllLocated(tables, paths)
    ensures multiset(lines) == multiset(ExpectedLines(tables, paths))
  {
    var want := ExpectedLines(tables, paths);
    forall l | l in lines ensures l in want {
      AcceptedLineIsExpected(l, expected, tables, paths);
    }
    ExpectedKeysDistinct(tables, paths);
    assert Distinct(lines);
    DistinctCardinality(lines);
    DistinctCardinality(want);
    SubsetOfEqualSize(Elements(lines), Elements(want));
    DistinctPermutation(lines, want);
    forall t | t in tables ensures Location(paths, t.name) != "" {
      var i :| 0 <= i < |tables| && tables[i] == t;
      assert want[i] in Elements(want);
      assert want[i] in lines;
      LineParts(t, paths);
    }
  }

  lemma {:induction false} PermutationKeepsKeys(lines: seq<string>, want: seq<string>)
    requires multiset(lines) == multiset(want) && KeysDistinct(want)
    ensures KeysDistinct(lines)
  {
    SameMultisetSameElements(lines, want);
    DistinctCardinality(lines);
    DistinctCardinality(want);
    forall i, j | 0 <= i < j < |lines| ensures Key(lines[i]) != Key(lines[j]) {
      assert lines[i] in Elements(lines) && lines[j] in Elements(lines) && lines[i] != lines[j];
      var a :| 0 <= a < |want| && want[a] == lines[i];
      var b :| 0 <= b < |want| && want[b] == lines[j];
      assert a < b || b < a;
    }
  }

  lemma PermutationLineOK(l: string, lines: seq<string>, expected: map<string, string>, tables: seq<Tablespace>, paths: map<string, string>)
    requires Expects(expected, tables, paths) && AllLocated(tables, paths)
    requires multiset(lines) == multiset(ExpectedLines(tables, paths)) && l in lines
    ensures LineOK(l, expected)
  {
    var want := ExpectedLines(tables, paths);
    assert l in multiset(lines);
    var i :| 0 <= i < |want| && want[i] == l;
    assert tables[i] in tables;
    ExpectedLineAccepted(i, expected, tables, paths);
  }

  lemma PermutationIsAccepted(lines: seq<string>, expected: map<string, string>, tables: seq<Tablespace>, paths: map<string, string>)
    requires Expects(expected, tables, paths) && OidsDistinct(tables)
    requires AllLocated(tables, paths) && multiset(lines) == multiset(ExpectedLines(tables, paths))
    ensures LinesAccepted(lines, expected)
  {
    forall l | l in lines ensures LineOK(l, expected) {
      PermutationLineOK(l, lines, expected, tables, paths);
    }
    SameMultisetSameElements(lines, ExpectedLines(tables, paths));
    ExpectedKeysDistinct(tables, paths);
    PermutationKeepsKeys(lines, ExpectedLines(tables, paths));
  }
}
