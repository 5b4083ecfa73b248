/** Admission of a hostile tar archive: scanArchive on a stream of member headers. */
module ArchiveScan {
  import opened Basics

  const MAX_ENTRIES := 100000
  const MAX_FILE_BYTES := 0x4010_0000

  // ---------------------------------------------------------------- paths

  predicate BadChar(c: char) {
    c == '\0' || c == '\\' || c == '\r' || c == '\n'
  }

  /** Position of the last slash before `end`, or -1. */
  function LastSlash(p: string, end: nat): (i: int)
    requires end <= |p|
    ensures -1 <= i < end
    ensures i >= 0 ==> p[i] == '/'
    ensures forall k :: i < k < end ==> p[k] != '/'
  {
    if end == 0 then -1 else if p[end - 1] == '/' then end - 1 else LastSlash(p, end - 1)
  }

  /** strings.Split(p, "/"), last component last. */
  function Components(p: string): seq<string>
    decreases |p|
  {
    var i := LastSlash(p, |p|);
    if i < 0 then [p] else Components(p[..i]) + [p[i + 1..]]
  }

  /** nativePath. A path whose components are all proper names is clean and relative, so
      path.Clean and path.IsAbs add nothing. */
  predicate NativePath(p: string) {
    && p != "" && |p| <= 1023
    && (forall i :: 0 <= i < |p| ==> !BadChar(p[i]))
    && (forall c :: c in Components(p) ==> c != "" && c != "." && c != "..")
  }

  /** path.Dir on an admitted path. */
  function Dir(p: string): string {
    var i := LastSlash(p, |p|);
    if i < 0 then "." else p[..i]
  }

  /** a names a proper ancestor directory of p. */
  predicate Ancestor(a: string, p: string) {
    |a| < |p| && p[..|a|] == a && p[|a|] == '/'
  }

  lemma EmptyComponent()
    ensures "" in Components("")
  {
    assert Components("") == [""];
  }

  lemma {:induction false} ComponentsOfDir(p: string)
    requires NativePath(p) && Dir(p) != "."
    ensures NativePath(Dir(p)) && |Dir(p)| < |p| && Ancestor(Dir(p), p)
  {
    var i := LastSlash(p, |p|);
    assert Components(p) == Components(p[..i]) + [p[i + 1..]];
    assert forall c :: c in Components(p[..i]) ==> c in Components(p);
    EmptyComponent();
    assert p[..0] == "";
  }

  lemma DirOfNative(p: string)
    requires NativePath(p)
    ensures Dir(p) == "." <==> LastSlash(p, |p|) < 0
  {
    var i := LastSlash(p, |p|);
    if i >= 0 && p[..i] == "." {
      assert LastSlash(".", 1) == -1;
      assert Components(".") == ["."];
      assert "." in Components(p);
    }
  }

  /** The ancestors of p are its directory and that directory's ancestors. */
  lemma AncestorStep(a: string, p: string)
    requires NativePath(p)
    ensures Ancestor(a, p) <==> Dir(p) != "." && (a == Dir(p) || Ancestor(a, Dir(p)))
  {
    DirOfNative(p);
    var i := LastSlash(p, |p|);
    if Ancestor(a, p) {
      assert |a| <= i;
      if |a| < i {
        assert p[..i][..|a|] == a;
      }
    }
    if i >= 0 && Ancestor(a, p[..i]) {
      assert p[..|a|] == p[..i][..|a|];
    }
  }

  // ---------------------------------------------------------------- where a path leads

  /** A walk from a root, component by component: a dot stays, two dots go up and are not
      followed at the root, any other component goes down. None is a walk that leaves the root. */
  ghost function Walk(cs: seq<string>, at: seq<string>): Option<seq<string>>
    decreases |cs|
  {
    if cs == [] then Some(at)
    else if cs[0] == "" || cs[0] == "." then Walk(cs[1..], at)
    else if cs[0] == ".." then if at == [] then None else Walk(cs[1..], at[..|at| - 1])
    else Walk(cs[1..], at + [cs[0]])
  }

  ghost predicate Proper(c: string) {
    c != "" && c != "." && c != ".."
  }

  lemma {:induction false} WalkDown(cs: seq<string>, at: seq<string>)
    requires forall c :: c in cs ==> Proper(c)
    ensures Walk(cs, at) == Some(at + cs)
    decreases |cs|
  {
    if cs == [] {
      assert at + cs == at;
    } else {
      assert cs[0] in cs;
      WalkDown(cs[1..], at + [cs[0]]);
      assert at + [cs[0]] + cs[1..] == at + cs;
    }
  }

  lemma {:induction false} WalkEndsProper(cs: seq<string>, at: seq<string>)
    requires (forall c :: c in at ==> Proper(c)) && Walk(cs, at).Some?
    ensures forall c :: c in Walk(cs, at).value ==> Proper(c)
    decreases |cs|
  {
    if cs != [] {
      if cs[0] == "" || cs[0] == "." {
        WalkEndsProper(cs[1..], at);
      } else if cs[0] == ".." {
        WalkEndsProper(cs[1..], at[..|at| - 1]);
      } else {
        WalkEndsProper(cs[1..], at + [cs[0]]);
      }
    }
  }

  function Join(cs: seq<string>): string {
    if cs == [] then "" else if |cs| == 1 then cs[0] else Join(cs[..|cs| - 1]) + "/" + cs[|cs| - 1]
  }

  /** The components are what lies between the slashes. */
  lemma {:induction false} ComponentsJoin(p: string)
    ensures Components(p) != [] && Join(Components(p)) == p && forall c :: c in Components(p) ==> '/' !in c
    decreases |p|
  {
    var i := LastSlash(p, |p|);
    if i >= 0 {
      ComponentsJoin(p[..i]);
      var cs := Components(p);
      assert cs == Components(p[..i]) + [p[i + 1..]] && cs[..|cs| - 1] == Components(p[..i]);
      assert p == p[..i] + "/" + p[i + 1..];
    }
  }

  /** MAIN: the admitted paths are those whose walk from any root stays below it and arrives
      exactly where the path says, component by component; so no admitted name is absolute,
      escapes, or has a second spelling. */
  lemma NativePathMeans(p: string)
    ensures NativePath(p) <==>
              && |p| <= 1023 && (forall i :: 0 <= i < |p| ==> p[i] !in {'\0', '\\', '\r', '\n'})
              && Walk(Components(p), []) == Some(Components(p))
  {
    var cs := Components(p);
    if NativePath(p) {
      WalkDown(cs, []);
      assert [] + cs == cs;
    }
    if Walk(cs, []) == Some(cs) {
      WalkEndsProper(cs, []);
      if p == "" {
        EmptyComponent();
      }
    }
  }

  lemma {:induction false} AbsoluteStartsEmpty(p: string)
    requires p != "" && p[0] == '/'
    ensures "" in Components(p)
    decreases |p|
  {
    var i := LastSlash(p, |p|);
    if i == 0 {
      assert p[..0] == "";
      EmptyComponent();
    } else {
      AbsoluteStartsEmpty(p[..i]);
    }
  }

  /** An admitted path is relative and never names a parent. */
  lemma AdmittedStaysInside(p: string, at: seq<string>)
    requires NativePath(p)
    ensures p[0] != '/' && Walk(Components(p), at) == Some(at + Components(p)) && Join(Components(p)) == p
  {
    WalkDown(Components(p), at);
    ComponentsJoin(p);
    if p[0] == '/' {
      AbsoluteStartsEmpty(p);
    }
  }

  // ---------------------------------------------------------------- members

  datatype Kind = Regular | Directory | Other

  /** A tar header; plain summarises format, PAX records and link name. */
  datatype Member = Member(name: string, kind: Kind, plain: bool, size: int)

  predicate HasSuffixSlash(s: string) {
    s != "" && s[|s| - 1] == '/'
  }

  /** Name normalisation of directories, with the two literal ./ exceptions of PG18. */
  function EntryName(m: Member): string {
    if m.kind != Directory then m.name
    else
      var n := if HasSuffixSlash(m.name) then m.name[..|m.name| - 1] else m.name;
      if n == "./pg_wal/archive_status" || n == "./pg_wal/summaries" then n[2..] else n
  }

  /** What a member is called: its own name; a directory without its final slash, and two
      built-in directories without their leading dot. */
  lemma EntryNames(m: Member, n: string)
    ensures m.kind != Directory ==> EntryName(m) == m.name
    ensures m.kind == Directory && (m.name == n || m.name == n + "/") && !HasSuffixSlash(n) ==>
              EntryName(m) == if n == "./pg_wal/archive_status" then "pg_wal/archive_status"
                              else if n == "./pg_wal/summaries" then "pg_wal/summaries" else n
  {
    if m.name == n + "/" {
      assert m.name[..|m.name| - 1] == n;
    }
    assert "./pg_wal/archive_status"[2..] == "pg_wal/archive_status" && "./pg_wal/summaries"[2..] == "pg_wal/summaries";
  }

  predicate HeaderOK(m: Member) {
    && NativePath(EntryName(m)) && m.plain && 0 <= m.size <= MAX_FILE_BYTES && m.kind != Other
    && (m.kind == Directory ==> m.size == 0)
  }

  ghost predicate AllOK(members: seq<Member>) {
    forall m :: m in members ==> HeaderOK(m)
  }

  ghost function Names(members: seq<Member>): seq<string> {
    seq(|members|, i requires 0 <= i < |members| => EntryName(members[i]))
  }

  function Size(m: Member): int {
    m.size
  }

  /** Zero bytes after a member's content, up to a block boundary. */
  function Padding(size: int): nat
    requires size >= 0
  {
    (512 - size % 512) % 512
  }

  /** Bytes of the stream that a member takes: header, content and padding. */
  function Stored(m: Member): int {
    if m.size < 0 then 512 else 512 + m.size + Padding(m.size)
  }

  function Sum(members: seq<Member>, f: Member -> int): int {
    if members == [] then 0 else Sum(members[..|members| - 1], f) + f(members[|members| - 1])
  }

  /** The whole stream, with its two terminator blocks and `tail` more bytes, is within the
      limit. */
  predicate StreamFits(members: seq<Member>, tail: nat, limit: int) {
    Sum(members, Stored) + 1024 + tail <= limit
  }

  /** Some regular file is a proper ancestor of another member. */
  ghost predicate Conflict(members: seq<Member>) {
    exists f, m :: f in members && m in members && f.kind == Regular && Ancestor(EntryName(f), EntryName(m))
  }

  /** The whole admission rule, without any reference to member order. */
  ghost predicate Admissible(members: seq<Member>, limit: int) {
    && |members| <= MAX_ENTRIES
    && AllOK(members)
    && Distinct(Names(members))
    && !Conflict(members)
    && (members != [] ==> Sum(members, Size) <= limit)
  }

  /** The regular files of an archive in order. */
  function Files(members: seq<Member>): seq<(string, int)> {
    if members == [] then []
    else
      var m := members[|members| - 1];
      Files(members[..|members| - 1]) + if m.kind == Regular then [(EntryName(m), m.size)] else []
  }

  // ---------------------------------------------------------------- the scan

  /** The climb over path.Dir: does a recorded regular file lie above name? */
  method HasFileAncestor(seen: map<string, Kind>, name: string) returns (hit: bool)
    requires NativePath(name)
    ensures hit <==> exists a :: a in seen && seen[a] != Directory && Ancestor(a, name)
  {
    var parent := Dir(name);
    var child := name;
    while parent != "."
      invariant NativePath(child) && parent == Dir(child)
      invariant forall a :: Ancestor(a, name) <==> Ancestor(a, child) || (Ancestor(a, name) && |a| >= |child|)
      invariant forall a :: Ancestor(a, child) ==> Ancestor(a, name)
      invariant forall a :: a in seen && Ancestor(a, name) && |a| >= |child| ==> seen[a] == Directory
      decreases |child|
    {
      ComponentsOfDir(child);
      forall a ensures Ancestor(a, child) <==> a == parent || Ancestor(a, parent) {
        AncestorStep(a, child);
      }
      if parent in seen && seen[parent] != Directory {
        return true;
      }
      child := parent;
      parent := Dir(child);
    }
    forall a ensures !Ancestor(a, child) {
      AncestorStep(a, child);
    }
    return false;
  }

  lemma {:induction false} SumGrows(members: seq<Member>, f: Member -> int, k: nat)
    requires k <= |members| && forall m :: m in members ==> f(m) >= 0
    ensures Sum(members[..k], f) <= Sum(members, f)
  {
    if k < |members| {
      var n := |members| - 1;
      assert members[n] in members;
      assert members[..n][..k] == members[..k];
      SumGrows(members[..n], f, k);
    } else {
      assert members[..k] == members;
    }
  }

  /** What the scan has recorded after a prefix. */
  ghost predicate Recorded(seen: map<string, Kind>, members: seq<Member>) {
    && (forall m :: m in members ==> EntryName(m) in seen && seen[EntryName(m)] == m.kind)
    && (forall n :: n in seen ==> exists m :: m in members && EntryName(m) == n && m.kind == seen[n])
  }

  lemma ConflictInSeen(seen: map<string, Kind>, done: seq<Member>, all: seq<Member>, m: Member)
    requires Recorded(seen, done) && m in all && (forall x :: x in done ==> x in all && x.kind != Other)
    requires exists a :: a in seen && seen[a] != Directory && Ancestor(a, EntryName(m))
    ensures Conflict(all)
  {
    var a :| a in seen && seen[a] != Directory && Ancestor(a, EntryName(m));
    var f :| f in done && EntryName(f) == a && f.kind == seen[a];
  }

  lemma RepeatRejected(members: seq<Member>, i: nat, seen: map<string, Kind>)
    requires i < |members| && Recorded(seen, members[..i]) && EntryName(members[i]) in seen
    ensures !Distinct(Names(members))
  {
    var m :| m in members[..i] && EntryName(m) == EntryName(members[i]);
    var j :| 0 <= j < i && members[..i][j] == m;
    assert Names(members)[j] == Names(members)[i];
  }

  /** Adding a member with a new name extends the record and the list of distinct names. */
  lemma RecordStep(members: seq<Member>, i: nat, seen: map<string, Kind>)
    requires i < |members| && Recorded(seen, members[..i]) && EntryName(members[i]) !in seen
    requires Distinct(Names(members[..i]))
    ensures Recorded(seen[EntryName(members[i]) := members[i].kind], members[..i + 1])
    ensures Distinct(Names(members[..i + 1]))
  {
    var m := members[i];
    var next := seen[EntryName(m) := m.kind];
    assert members[..i + 1] == members[..i] + [m];
    forall n | n in next ensures exists x :: x in members[..i + 1] && EntryName(x) == n && x.kind == next[n] {
      if n == EntryName(m) {
        assert m in members[..i + 1];
      } else {
        var x :| x in members[..i] && EntryName(x) == n && x.kind == seen[n];
        assert x in members[..i + 1];
      }
    }
    var names := Names(members[..i + 1]);
    forall j, k | 0 <= j < k < |names| ensures names[j] != names[k] {
      assert names[j] == Names(members[..i])[j];
      if k == i {
        assert members[..i][j] in members[..i];
      } else {
        assert names[k] == Names(members[..i])[k];
      }
    }
  }

  datatype Inventory = Inventory(files: map<string, int>, dirs: seq<string>, visited: seq<(string, int)>, entries: nat, bytes: int)

  function Dirs(members: seq<Member>): seq<string> {
    if members == [] then []
    else
      var m := members[|members| - 1];
      Dirs(members[..|members| - 1]) + if m.kind == Directory then [EntryName(m)] else []
  }

  /** The files map is the visited list. */
  ghost predicate Tabulates(files: map<string, int>, visited: seq<(string, int)>) {
    && (forall f :: f in visited ==> f.0 in files && files[f.0] == f.1)
    && (forall n :: n in files ==> (n, files[n]) in visited)
  }

  ghost predicate Exactly(inv: Inventory, members: seq<Member>) {
    && inv.entries == |members| && inv.bytes == Sum(members, Size)
    && inv.visited == Files(members) && inv.dirs == Dirs(members)
    && Tabulates(inv.files, inv.visited)
  }

  /** The inventory after one more member. */
  function Add(inv: Inventory, m: Member): Inventory {
    var next := inv.(entries := inv.entries + 1, bytes := inv.bytes + m.size);
    if m.kind == Directory then next.(dirs := inv.dirs + [EntryName(m)])
    else next.(files := inv.files[EntryName(m) := m.size], visited := inv.visited + [(EntryName(m), m.size)])
  }

  lemma TabulatesStep(files: map<string, int>, visited: seq<(string, int)>, n: string, size: int)
    requires Tabulates(files, visited) && n !in files
    ensures Tabulates(files[n := size], visited + [(n, size)])
  {
    var more, all := files[n := size], visited + [(n, size)];
    forall k | k in more ensures (k, more[k]) in all {
      if k != n {
        assert (k, files[k]) in visited;
      }
    }
  }

  /** The state of the scan after i members. */
  ghost predicate Progress(members: seq<Member>, i: nat, inv: Inventory, seen: map<string, Kind>, limit: int) {
    && i <= |members| && i <= MAX_ENTRIES
    && AllOK(members[..i])
    && Distinct(Names(members[..i])) && Recorded(seen, members[..i])
    && Exactly(inv, members[..i])
    && inv.files.Keys <= seen.Keys
    && (i > 0 ==> inv.bytes <= limit)
  }

  lemma AllOKStep(members: seq<Member>, i: nat)
    requires i < |members| && AllOK(members[..i]) && HeaderOK(members[i])
    ensures AllOK(members[..i + 1])
  {
    assert members[..i + 1] == members[..i] + [members[i]];
  }

  lemma ExactlyStep(members: seq<Member>, i: nat, inv: Inventory)
    requires i < |members| && Exactly(inv, members[..i]) && EntryName(members[i]) !in inv.files && members[i].kind != Other
    ensures Exactly(Add(inv, members[i]), members[..i + 1])
  {
    assert members[..i + 1][..i] == members[..i];
    if members[i].kind == Regular {
      TabulatesStep(inv.files, inv.visited, EntryName(members[i]), members[i].size);
    }
  }

  lemma ProgressStep(members: seq<Member>, i: nat, inv: Inventory, seen: map<string, Kind>, limit: int)
    requires Progress(members, i, inv, seen, limit) && i < |members| && i < MAX_ENTRIES
    requires HeaderOK(members[i]) && EntryName(members[i]) !in seen && inv.bytes + members[i].size <= limit
    ensures Progress(members, i + 1, Add(inv, members[i]), seen[EntryName(members[i]) := members[i].kind], limit)
  {
    AllOKStep(members, i);
    RecordStep(members, i, seen);
    ExactlyStep(members, i, inv);
  }

  lemma NothingFits(members: seq<Member>, limit: int)
    requires limit < 0
    ensures !Admissible(members, limit) || !StreamFits(members, 0, limit)
  {
    if AllOK(members) {
      SumGrows(members, Stored, 0);
    }
  }

  lemma TooLarge(members: seq<Member>, i: nat, limit: int)
    requires i < |members| && (i >= MAX_ENTRIES || Sum(members[..i], Size) + members[i].size > limit)
    ensures !Admissible(members, limit)
  {
    if AllOK(members) {
      assert members[..i + 1][..i] == members[..i];
      SumGrows(members, Size, i + 1);
    }
  }

  lemma BadHeader(members: seq<Member>, i: nat, limit: int)
    requires i < |members| && !HeaderOK(members[i])
    ensures !Admissible(members, limit)
  {
    assert members[i] in members;
  }

  lemma Clashing(members: seq<Member>, i: nat, seen: map<string, Kind>, limit: int)
    requires i < |members| && Recorded(seen, members[..i]) && EntryName(members[i]) !in seen
    requires Distinct(Names(members[..i]))
    requires exists a :: a in seen[EntryName(members[i]) := members[i].kind]
                         && seen[EntryName(members[i]) := members[i].kind][a] != Directory && Ancestor(a, EntryName(members[i]))
    ensures !Admissible(members, limit)
  {
    if AllOK(members) {
      RecordStep(members, i, seen);
      forall x | x in members[..i + 1] ensures x in members && x.kind != Other {
        assert HeaderOK(x);
      }
      assert members[i] in members;
      ConflictInSeen(seen[EntryName(members[i]) := members[i].kind], members[..i + 1], members, members[i]);
    }
  }

  /** What is left of the stream's byte limit when the next padding is still unread. */
  ghost predicate Left(members: seq<Member>, i: nat, limit: int, left: int, padding: nat) {
    i <= |members| && left >= 0 && left - padding == limit + 1 - Sum(members[..i], Stored)
  }

  lemma LeftStep(members: seq<Member>, i: nat, limit: int, left: int, padding: nat)
    requires i < |members| && Left(members, i, limit, left, padding) && members[i].size >= 0
    ensures left >= padding + 512 + members[i].size ==>
              Left(members, i + 1, limit, left - padding - 512 - members[i].size, Padding(members[i].size))
    ensures left < padding + 512 + members[i].size && AllOK(members) ==> !StreamFits(members, 0, limit)
  {
    assert members[..i + 1][..i] == members[..i];
    if AllOK(members) {
      SumGrows(members, Stored, i + 1);
    }
  }

  /** The header tests on one member, against what the members before it recorded. */
  method AdmitMember(members: seq<Member>, i: nat, inv: Inventory, seen: map<string, Kind>, limit: int) returns (ok: bool)
    requires i < |members| && Progress(members, i, inv, seen, limit)
    ensures ok ==> members[i].size >= 0
    ensures ok ==> Progress(members, i + 1, Add(inv, members[i]), seen[EntryName(members[i]) := members[i].kind], limit)
    ensures !ok ==> !Admissible(members, limit)
  {
    var m := members[i];
    var name := EntryName(m);
    if !NativePath(name) || !m.plain || m.size < 0 || m.size > MAX_FILE_BYTES || m.kind == Other {
      BadHeader(members, i, limit);
      return false;
    }
    if name in seen {
      RepeatRejected(members, i, seen);
      return false;
    }
    var clash := HasFileAncestor(seen[name := m.kind], name);
    if clash {
      Clashing(members, i, seen, limit);
      return false;
    }
    if inv.entries + 1 > MAX_ENTRIES || inv.bytes + m.size > limit || (m.kind == Directory && m.size != 0) {
      if HeaderOK(m) {
        TooLarge(members, i, limit);
      } else {
        BadHeader(members, i, limit);
      }
      return false;
    }
    ProgressStep(members, i, inv, seen, limit);
    return true;
  }

  /** The member loop of scanArchive: left is what remains of the limit, padding what the next
      header is preceded by. */
  method ScanMembers(members: seq<Member>, limit: int)
    returns (ok: bool, inv: Inventory, seen: map<string, Kind>, left: int, padding: nat)
    ensures ok ==> Progress(members, |members|, inv, seen, limit) && Left(members, |members|, limit, left, padding)
    ensures !ok ==> !Admissible(members, limit) || !StreamFits(members, 0, limit)
  {
    ok, inv, seen, left, padding := false, Inventory(map[], [], [], 0, 0), map[], limit + 1, 0;
    if left < 0 {
      NothingFits(members, limit);
      return;
    }
    for i := 0 to |members|
      invariant Progress(members, i, inv, seen, limit) && Left(members, i, limit, left, padding)
    {
      var m := members[i];
      var admitted := AdmitMember(members, i, inv, seen, limit);
      if !admitted {
        return false, inv, seen, left, padding;
      }
      LeftStep(members, i, limit, left, padding);
      if left < padding + 512 + m.size {
        return false, inv, seen, left, padding;
      }
      inv, seen := Add(inv, m), seen[EntryName(m) := m.kind];
      left, padding := left - padding - 512 - m.size, Padding(m.size);
    }
    ok := true;
  }

  ghost predicate ZeroTail(tail: seq<bv8>) {
    |tail| <= 10240 && forall k :: 0 <= k < |tail| ==> tail[k] == 0
  }

  method CheckTail(tail: seq<bv8>) returns (ok: bool)
    ensures ok <==> ZeroTail(tail)
  {
    if |tail| > 10240 {
      return false;
    }
    for i := 0 to |tail|
      invariant forall k :: 0 <= k < i ==> tail[k] == 0
    {
      if tail[i] != 0 {
        return false;
      }
    }
    return true;
  }

  /** A file recorded in seen lies above this name. */
  ghost predicate UnderFile(seen: map<string, Kind>, name: string) {
    exists a :: a in seen && seen[a] != Directory && Ancestor(a, name)
  }

  /** A recorded name is a valid one, and a file above it is a conflict. */
  lemma MemberNamed(members: seq<Member>, seen: map<string, Kind>, name: string)
    requires Recorded(seen, members) && AllOK(members) && name in seen
    ensures NativePath(name)
    ensures UnderFile(seen, name) ==> Conflict(members)
  {
    var m :| m in members && EntryName(m) == name;
    assert HeaderOK(m);
    if UnderFile(seen, name) {
      ConflictInSeen(seen, members, members, m);
    }
  }

  /** The final loop over all names, in any order. */
  method CheckAncestors(members: seq<Member>, seen: map<string, Kind>) returns (ok: bool)
    requires Recorded(seen, members) && AllOK(members)
    ensures ok <==> !Conflict(members)
  {
    var rest := seen.Keys;
    while rest != {}
      invariant rest <= seen.Keys
      invariant forall m :: m in members && EntryName(m) !in rest ==> !UnderFile(seen, EntryName(m))
      decreases rest
    {
      var name :| name in rest;
      MemberNamed(members, seen, name);
      var clash := HasFileAncestor(seen, name);
      if clash {
        return false;
      }
      rest := rest - {name};
    }
    if Conflict(members) {
      NoConflictLeft(members, seen);
    }
    return true;
  }

  /** scanArchive: ended says the stream stopped at an exact two-block terminator, tail is
      what follows it. */
  method ScanArchive(members: seq<Member>, limit: int, ended: bool, tail: seq<bv8>) returns (ok: bool, inv: Inventory)
    ensures ok <==> Admissible(members, limit) && ended && ZeroTail(tail) && StreamFits(members, |tail|, limit)
    ensures ok ==> Exactly(inv, members)
  {
    var scanned, seen, left, padding;
    scanned, inv, seen, left, padding := ScanMembers(members, limit);
    if !scanned || !ended {
      return false, inv;
    }
    assert members[..|members|] == members;
    if left < padding + 1024 {
      return false, inv;
    }
    var zeros := CheckTail(tail);
    if !zeros || left - padding - 1024 - |tail| <= 0 {
      return false, inv;
    }
    ok := CheckAncestors(members, seen);
  }

  lemma NoConflictLeft(members: seq<Member>, seen: map<string, Kind>)
    requires Recorded(seen, members) && Conflict(members)
    ensures exists m :: m in members && UnderFile(seen, EntryName(m))
  {
    var f, m :| f in members && m in members && f.kind == Regular && Ancestor(EntryName(f), EntryName(m));
    assert EntryName(f) in seen && seen[EntryName(f)] == Regular;
  }

  // ---------------------------------------------------------------- consequences

  /** Each regular file is visited exactly once, under its own name and size. */
  lemma {:induction false} VisitedExactlyOnce(members: seq<Member>)
    requires Distinct(Names(members))
    ensures forall i, j :: 0 <= i < j < |Files(members)| ==> Files(members)[i].0 != Files(members)[j].0
    ensures forall f :: f in Files(members) <==> exists m :: m in members && m.kind == Regular && f == (EntryName(m), m.size)
  {
    if members != [] {
      var n := |members| - 1;
      var init, last := members[..n], members[n];
      assert members == init + [last];
      assert forall i :: 0 <= i < n ==> Names(init)[i] == Names(members)[i];
      VisitedExactlyOnce(init);
      forall i | 0 <= i < |Files(init)| ensures Files(init)[i].0 != EntryName(last) {
        assert Files(init)[i] in Files(init);
        var m :| m in init && m.kind == Regular && Files(init)[i] == (EntryName(m), m.size);
        var k :| 0 <= k < n && init[k] == m;
        assert Names(members)[k] != Names(members)[n];
      }
      forall f ensures f in Files(members) <==> exists m :: m in members && m.kind == Regular && f == (EntryName(m), m.size) {
        if f in Files(init) {
          var m :| m in init && m.kind == Regular && f == (EntryName(m), m.size);
          assert m in members;
        }
        if f == (EntryName(last), last.size) && last.kind == Regular {
          assert last in members;
        }
      }
    }
  }

  lemma {:induction false} SumRemove(s: seq<Member>, f: Member -> int, k: nat)
    requires k < |s|
    ensures Sum(s, f) == Sum(s[..k] + s[k + 1..], f) + f(s[k])
  {
    var n := |s| - 1;
    if k == n {
      assert s[..k] + s[k + 1..] == s[..n];
    } else {
      SumRemove(s[..n], f, k);
      var t := s[..k] + s[k + 1..];
      assert t[..|t| - 1] == s[..n][..k] + s[..n][k + 1..];
    }
  }

  lemma {:induction false} SumPermuted(a: seq<Member>, b: seq<Member>, f: Member -> int)
    requires multiset(a) == multiset(b)
    ensures Sum(a, f) == Sum(b, f)
    decreases |a|
  {
    if a == [] {
      assert |multiset(b)| == 0;
    } else {
      var n := |a| - 1;
      var x := a[n];
      assert a == a[..n] + [x];
      assert multiset(a[..n]) == multiset(a) - multiset{x};
      assert x in multiset(b);
      var k :| 0 <= k < |b| && b[k] == x;
      MultisetRemove(b, k);
      SumPermuted(a[..n], b[..k] + b[k + 1..], f);
      SumRemove(b, f, k);
    }
  }

  lemma MultisetRemove(b: seq<Member>, k: nat)
    requires k < |b|
    ensures multiset(b[..k] + b[k + 1..]) == multiset(b) - multiset{b[k]}
  {
    assert b == b[..k] + [b[k]] + b[k + 1..];
  }

  lemma NamesOfSameMembers(a: seq<Member>, b: seq<Member>)
    requires forall m :: m in a ==> m in b
    ensures Elements(Names(a)) <= Elements(Names(b))
  {
    forall n | n in Names(a) ensures n in Names(b) {
      var i :| 0 <= i < |a| && EntryName(a[i]) == n && n == Names(a)[i];
      assert a[i] in b;
      var k :| 0 <= k < |b| && b[k] == a[i];
      assert Names(b)[k] == n;
    }
  }

  ghost predicate SameMembers(a: seq<Member>, b: seq<Member>) {
    forall m :: m in a <==> m in b
  }

  lemma ConflictPermuted(a: seq<Member>, b: seq<Member>)
    requires SameMembers(a, b) && Conflict(b)
    ensures Conflict(a)
  {
    var f, m :| f in b && m in b && f.kind == Regular && Ancestor(EntryName(f), EntryName(m));
    assert f in a && m in a;
  }

  lemma DistinctPermuted(a: seq<Member>, b: seq<Member>)
    requires SameMembers(a, b) && |a| == |b| && Distinct(Names(a))
    ensures Distinct(Names(b))
  {
    NamesOfSameMembers(a, b);
    NamesOfSameMembers(b, a);
    assert Elements(Names(a)) == Elements(Names(b));
    DistinctCardinality(Names(a));
    DistinctCardinality(Names(b));
  }

  lemma AdmissionPermuted(a: seq<Member>, b: seq<Member>, limit: int)
    requires Admissible(a, limit) && |a| == |b| && Sum(a, Size) == Sum(b, Size) && SameMembers(a, b)
    ensures Admissible(b, limit)
  {
    DistinctPermuted(a, b);
    if Conflict(b) {
      ConflictPermuted(a, b);
    }
    assert AllOK(b) by {
      forall m | m in b ensures HeaderOK(m) {
        assert m in a;
      }
    }
  }

  /** Member i passes: an admitted name, a plain header of a file or an empty directory, and at most
      one gibibyte and one mebibyte. */
  ghost predicate Passes(m: Member) {
    && m.plain && NativePath(EntryName(m)) && 0 <= m.size <= 1024 * 1024 * 1024 + 1024 * 1024
    && (m.kind == Regular || (m.kind == Directory && m.size == 0))
  }

  ghost predicate EachPasses(members: seq<Member>) {
    forall i :: 0 <= i < |members| ==> Passes(members[i])
  }

  ghost predicate NamesApart(members: seq<Member>) {
    forall i, j :: 0 <= i < j < |members| ==> EntryName(members[i]) != EntryName(members[j])
  }

  ghost predicate BelowFile(f: Member, m: Member) {
    f.kind == Regular && EntryName(f) + "/" <= EntryName(m)
  }

  ghost predicate NoneBelowFile(members: seq<Member>) {
    forall i, j :: 0 <= i < |members| && 0 <= j < |members| ==> !BelowFile(members[i], members[j])
  }

  lemma PassesIs(members: seq<Member>)
    ensures AllOK(members) <==> EachPasses(members)
  {
    if AllOK(members) {
      forall i | 0 <= i < |members| ensures Passes(members[i]) {
        assert HeaderOK(members[i]);
      }
    }
    if EachPasses(members) {
      forall m | m in members ensures HeaderOK(m) {
        var i :| 0 <= i < |members| && members[i] == m;
        assert Passes(members[i]);
      }
    }
  }

  lemma ApartIs(members: seq<Member>)
    ensures Distinct(Names(members)) <==> NamesApart(members)
  {
    assert forall i :: 0 <= i < |members| ==> Names(members)[i] == EntryName(members[i]);
  }

  lemma BelowFileIs(members: seq<Member>)
    ensures !Conflict(members) <==> NoneBelowFile(members)
  {
    if Conflict(members) {
      var f, m :| f in members && m in members && f.kind == Regular && Ancestor(EntryName(f), EntryName(m));
      var i :| 0 <= i < |members| && members[i] == f;
      var j :| 0 <= j < |members| && members[j] == m;
      AncestorIsPrefix(EntryName(f), EntryName(m));
      assert BelowFile(members[i], members[j]);
    }
    if !NoneBelowFile(members) {
      var i, j :| 0 <= i < |members| && 0 <= j < |members| && BelowFile(members[i], members[j]);
      AncestorIsPrefix(EntryName(members[i]), EntryName(members[j]));
      assert members[i] in members && members[j] in members;
    }
  }

  /** MAIN: member by member, an archive is admissible exactly when each member passes, no two have
      one name, none lies below a file, and their number and total size are within bounds. */
  lemma AdmissibleMeans(members: seq<Member>, limit: int)
    ensures Admissible(members, limit) <==>
              && |members| <= 100000 && (members == [] || Sum(members, Size) <= limit)
              && EachPasses(members) && NamesApart(members) && NoneBelowFile(members)
  {
    PassesIs(members);
    ApartIs(members);
    BelowFileIs(members);
  }

  lemma AncestorIsPrefix(a: string, p: string)
    ensures Ancestor(a, p) <==> a + "/" <= p
  {
    var q := a + "/";
    if Ancestor(a, p) {
      assert q == p[..|q|];
    }
    if q <= p {
      assert p[..|a|] == q[..|a|] == a && p[|a|] == q[|a|];
    }
  }

  /** The verdict does not depend on the order of the members. */
  lemma AdmissionIgnoresOrder(a: seq<Member>, b: seq<Member>, limit: int)
    requires multiset(a) == multiset(b)
    ensures Admissible(a, limit) <==> Admissible(b, limit)
    ensures forall tail: nat :: StreamFits(a, tail, limit) <==> StreamFits(b, tail, limit)
  {
    SameMultisetSameElements(a, b);
    forall m ensures m in a <==> m in b {
      assert m in a <==> m in Elements(a);
      assert m in b <==> m in Elements(b);
    }
    SumPermuted(a, b, Size);
    SumPermuted(a, b, Stored);
    if Admissible(a, limit) {
      AdmissionPermuted(a, b, limit);
    }
    if Admissible(b, limit) {
      AdmissionPermuted(b, a, limit);
    }
  }
}
