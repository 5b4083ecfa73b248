/** Space reservations and the check that they are free on separate filesystems. Models
    checkSpace, finiteMount, CheckCapacity, CapacityMargin, CaptureCapacity and the
    reservation OpenCapture adds to it, with 64-bit arithmetic. */
module Capacity {
  import opened Basics

  const GIB: int := 0x4000_0000
  const MIB: int := 0x10_0000
  const MAX64: int := 0x7fff_ffff_ffff_ffff
  const TWO64: int := 0x1_0000_0000_0000_0000

  // ---------------------------------------------------------------- machine arithmetic

  /** Two's complement: the signed value of x modulo 2^64, for x within one wrap. */
  function Wrap64(x: int): int {
    if x > MAX64 then x - TWO64 else if x < -MAX64 - 1 then x + TWO64 else x
  }

  /** Signed division truncates toward zero. */
  function TruncDiv(x: int, y: int): int
    requires y > 0
  {
    if x >= 0 then x / y else -((-x) / y)
  }

  /** Conversion of a signed value to uint64. */
  function Unsigned(x: int): int {
    if x >= 0 then x else x + TWO64
  }

  // ---------------------------------------------------------------- one filesystem

  datatype Budget = Budget(mount: string, limit: int, required: int)

  /** statfs: block size (signed), total and available blocks (unsigned). */
  datatype Statfs = Statfs(bsize: int, blocks: nat, bavail: nat)

  predicate Int64(x: int) {
    -MAX64 - 1 <= x <= MAX64
  }

  predicate Machine(b: Budget, st: Statfs) {
    Int64(b.limit) && Int64(b.required) && Int64(st.bsize) && st.blocks < TWO64 && st.bavail < TWO64
  }

  function BlocksNeeded(required: int, bsize: int): int
    requires bsize > 0
  {
    Unsigned(TruncDiv(Wrap64(required + bsize - 1), bsize))
  }

  /** checkSpace. */
  predicate CheckSpace(b: Budget, st: Statfs) {
    && 0 < b.limit <= 8192 * GIB && 0 <= b.required <= b.limit && st.bsize > 0
    && st.blocks <= b.limit / st.bsize
    && st.bavail <= st.blocks && st.bavail >= BlocksNeeded(b.required, st.bsize)
  }

  /** What the check is for: the bytes are free and the filesystem is not larger than declared. */
  predicate Fits(b: Budget, st: Statfs) {
    st.bavail * st.bsize >= b.required && st.blocks * st.bsize <= b.limit
  }

  /** The block sizes for which rounding up wraps around to nothing. */
  predicate WrapsToNothing(required: int, bsize: int) {
    required > 0 && 2 * bsize > TWO64 + 1 - required
  }

  lemma DivBounds(x: int, y: int)
    requires x >= 0 && y > 0
    ensures x / y >= 0 && (x / y) * y <= x < (x / y) * y + y
  {
    assert x == y * (x / y) + x % y;
  }

  lemma SmallQuotient(x: int, y: int)
    requires 0 <= x < y
    ensures x / y == 0
  {
  }

  lemma UnitQuotient(x: int, y: int)
    requires 0 < y <= x < 2 * y
    ensures x / y == 1
  {
    assert (x - y) / y == 0;
  }

  lemma NeededWithoutWrap(required: int, bsize: int)
    requires 0 <= required <= 8192 * GIB && bsize > 0 && required + bsize - 1 <= MAX64
    ensures BlocksNeeded(required, bsize) * bsize >= required
  {
    DivBounds(required + bsize - 1, bsize);
  }

  lemma NeededWithWrap(required: int, bsize: int)
    requires 0 < required <= 8192 * GIB && 0 < bsize <= MAX64 && required + bsize - 1 > MAX64
    ensures BlocksNeeded(required, bsize) == if WrapsToNothing(required, bsize) then 0 else TWO64 - 1
  {
    var magnitude := TWO64 - (required + bsize - 1);
    if WrapsToNothing(required, bsize) {
      SmallQuotient(magnitude, bsize);
    } else {
      UnitQuotient(magnitude, bsize);
    }
  }

  lemma FitsTotal(b: Budget, st: Statfs)
    requires CheckSpace(b, st)
    ensures st.blocks * st.bsize <= b.limit
  {
    DivBounds(b.limit, st.bsize);
    MulMonotone(st.blocks, b.limit / st.bsize, st.bsize);
  }

  /** MAIN: an accepted filesystem has the bytes free unless rounding up wrapped to nothing. */
  lemma AcceptedFits(b: Budget, st: Statfs)
    requires Machine(b, st) && CheckSpace(b, st) && !WrapsToNothing(b.required, st.bsize)
    ensures Fits(b, st) && st.bavail <= st.blocks && 0 <= b.required <= b.limit <= 8192 * GIB
  {
    FitsTotal(b, st);
    if b.required + st.bsize - 1 <= MAX64 {
      NeededWithoutWrap(b.required, st.bsize);
      MulMonotone(BlocksNeeded(b.required, st.bsize), st.bavail, st.bsize);
    } else {
      NeededWithWrap(b.required, st.bsize);
      DivBounds(b.limit, st.bsize);
      SmallQuotient(b.limit, st.bsize);
    }
  }

  lemma QuotientReaches(x: int, y: int, n: int)
    requires x >= 0 && y > 0 && n * y <= x
    ensures n <= x / y
  {
    DivBounds(x, y);
    if n > x / y {
      MulMonotone(x / y + 1, n, y);
    }
  }

  lemma CeilingReached(required: int, bsize: int, n: int)
    requires 0 <= required && bsize > 0 && n * bsize >= required
    ensures n >= (required + bsize - 1) / bsize
  {
    var q := (required + bsize - 1) / bsize;
    DivBounds(required + bsize - 1, bsize);
    if n < q {
      MulMonotone(n + 1, q, bsize);
    }
  }

  /** A filesystem within the limit has no block so large that rounding up could wrap. */
  lemma FittingBlocksAreSmall(b: Budget, st: Statfs)
    requires Fits(b, st) && 0 < b.required <= b.limit <= 8192 * GIB && 0 < st.bsize && st.bavail <= st.blocks
    ensures st.bsize <= b.limit
  {
    if st.blocks > 0 {
      MulMonotone(1, st.blocks, st.bsize);
    }
  }

  /** MAIN: the converse: a filesystem that has the bytes free and is not larger than declared is
      accepted, for every budget in range and every block size. */
  lemma FittingIsAccepted(b: Budget, st: Statfs)
    requires Machine(b, st) && 0 < b.limit <= 8192 * GIB && 0 <= b.required <= b.limit
    requires 0 < st.bsize && st.bavail <= st.blocks && Fits(b, st)
    ensures CheckSpace(b, st)
  {
    if b.required > 0 {
      FittingBlocksAreSmall(b, st);
    }
    QuotientReaches(b.limit, st.bsize, st.blocks);
    CeilingReached(b.required, st.bsize, st.bavail);
    DivBounds(b.required + st.bsize - 1, st.bsize);
  }

  /** An empty filesystem of huge blocks. */
  function Hollow(bsize: int): Statfs {
    Statfs(bsize, 0, 0)
  }

  /** MAIN: a block size can be trusted for a requirement exactly when it does not wrap to
      nothing; the caller can tell from the two numbers alone. */
  lemma TrustworthyBlockSizes(required: int, bsize: int)
    requires 0 <= required <= 8192 * GIB && 0 < bsize <= MAX64
    ensures !WrapsToNothing(required, bsize) <==>
            forall b: Budget, st: Statfs :: b.required == required && st.bsize == bsize && Machine(b, st) && CheckSpace(b, st) ==> Fits(b, st)
  {
    if WrapsToNothing(required, bsize) {
      var b, st := Budget("", 8192 * GIB, required), Hollow(bsize);
      NeededWithWrap(required, bsize);
      DivBounds(b.limit, bsize);
      assert Machine(b, st) && CheckSpace(b, st) && !Fits(b, st);
    } else {
      forall b: Budget, st: Statfs | b.required == required && st.bsize == bsize && Machine(b, st) && CheckSpace(b, st) ensures Fits(b, st) {
        AcceptedFits(b, st);
      }
    }
  }

  /** Real block sizes, up to a gibibyte and far beyond, are all trustworthy. */
  lemma RealBlockSizes(required: int, bsize: int)
    requires 0 <= required <= 8192 * GIB && 0 < bsize <= MAX64 - 8192 * GIB
    ensures !WrapsToNothing(required, bsize)
  {
  }

  // ---------------------------------------------------------------- all filesystems

  datatype Mounted = Mounted(device: string, root: string, path: string, fs: string, readOnly: bool)

  /** What the kernel reports of a directory: its device, its kind and its space; an entry is
      missing when the path is not canonical or cannot be opened. */
  datatype Actual = Actual(device: string, supported: bool, space: Statfs)

  predicate Anonymous(device: string) {
    |device| >= 2 && device[0] == '0' && device[1] == ':'
  }

  predicate Dedicated(m: Mounted) {
    m.root == "/" && (m.fs == "ext4" || m.fs == "xfs") && !m.readOnly && !Anonymous(m.device)
  }

  ghost predicate OnlyMount(inventory: seq<Mounted>, path: string, i: nat) {
    i < |inventory| && inventory[i].path == path && forall j :: 0 <= j < |inventory| && inventory[j].path == path ==> j == i
  }

  ghost predicate FiniteAt(inventory: seq<Mounted>, path: string, m: Mounted) {
    Dedicated(m) && exists i: nat :: OnlyMount(inventory, path, i) && inventory[i] == m
  }

  lemma FiniteIsOne(inventory: seq<Mounted>, path: string, m: Mounted, n: Mounted)
    requires FiniteAt(inventory, path, m) && FiniteAt(inventory, path, n)
    ensures m == n
  {
  }

  /** What a finite mount is, in the terms of the mount table. */
  lemma FiniteMeans(inventory: seq<Mounted>, path: string, m: Mounted)
    ensures FiniteAt(inventory, path, m) <==>
              && m.root == "/" && (m.fs == "ext4" || m.fs == "xfs") && !m.readOnly && !HasPrefix(m.device, "0:")
              && exists i :: 0 <= i < |inventory| && inventory[i] == m && m.path == path
                             && forall j :: 0 <= j < |inventory| && j != i ==> inventory[j].path != path
  {
    assert Anonymous(m.device) <==> HasPrefix(m.device, "0:") by {
      if |m.device| >= 2 {
        assert m.device[..2] == [m.device[0], m.device[1]];
        assert "0:"[0] == '0' && "0:"[1] == ':';
      }
    }
    if FiniteAt(inventory, path, m) {
      var i: nat :| OnlyMount(inventory, path, i) && inventory[i] == m;
      assert 0 <= i < |inventory| && inventory[i] == m && m.path == path;
    }
    if i: nat :| i < |inventory| && inventory[i] == m && m.path == path && forall j :: 0 <= j < |inventory| && j != i ==> inventory[j].path != path {
      assert OnlyMount(inventory, path, i);
    }
  }

  /** finiteMount: exactly one mount of that path, and it is a dedicated one. */
  method FiniteMount(inventory: seq<Mounted>, path: string) returns (ok: bool, found: Mounted)
    ensures ok <==> exists m :: FiniteAt(inventory, path, m)
    ensures ok ==> FiniteAt(inventory, path, found)
  {
    found := Mounted("", "", "", "", false);
    var count := 0;
    ghost var at := 0;
    for i := 0 to |inventory|
      invariant 0 <= count && (count == 0 ==> forall j :: 0 <= j < i ==> inventory[j].path != path)
      invariant count >= 1 ==> at < i && inventory[at].path == path && inventory[at] == found
      invariant count == 1 ==> forall j :: 0 <= j < i && inventory[j].path == path ==> j == at
      invariant count >= 2 ==> exists j, k :: 0 <= j < k < i && inventory[j].path == path && inventory[k].path == path
    {
      if inventory[i].path == path {
        found, count := inventory[i], count + 1;
        at := i;
      }
    }
    ok := count == 1 && Dedicated(found);
    if count == 1 {
      assert OnlyMount(inventory, path, at);
      assert Dedicated(found) ==> FiniteAt(inventory, path, found);
    } else {
      forall i: nat ensures !OnlyMount(inventory, path, i) {
        if count >= 2 {
          var j, k :| 0 <= j < k < |inventory| && inventory[j].path == path && inventory[k].path == path;
          assert j != i || k != i;
        }
      }
    }
  }

  ghost predicate BudgetOK(b: Budget, inventory: seq<Mounted>, actual: map<string, Actual>) {
    && b.mount in actual && actual[b.mount].supported && CheckSpace(b, actual[b.mount].space)
    && exists m :: FiniteAt(inventory, b.mount, m) && m.device == actual[b.mount].device
  }

  ghost predicate EachOK(budgets: seq<Budget>, inventory: seq<Mounted>, actual: map<string, Actual>) {
    forall k :: 0 <= k < |budgets| ==> BudgetOK(budgets[k], inventory, actual)
  }

  ghost predicate DevicesApart(budgets: seq<Budget>, actual: map<string, Actual>) {
    forall j, k :: 0 <= j < k < |budgets| && budgets[j].mount in actual && budgets[k].mount in actual ==>
      actual[budgets[j].mount].device != actual[budgets[k].mount].device
  }

  /** One budget of the loop of CheckCapacity. */
  method CheckBudget(b: Budget, inventory: seq<Mounted>, actual: map<string, Actual>) returns (ok: bool)
    ensures ok <==> BudgetOK(b, inventory, actual)
  {
    if b.mount !in actual {
      return false;
    }
    var finite, mount := FiniteMount(inventory, b.mount);
    var now := actual[b.mount];
    ok := finite && now.device == mount.device && now.supported && CheckSpace(b, now.space);
    if finite {
      forall m | FiniteAt(inventory, b.mount, m) ensures m == mount {
        FiniteIsOne(inventory, b.mount, m, mount);
      }
    }
  }

  lemma BudgetStep(budgets: seq<Budget>, k: nat, inventory: seq<Mounted>, actual: map<string, Actual>)
    requires k < |budgets| && EachOK(budgets[..k], inventory, actual) && BudgetOK(budgets[k], inventory, actual)
    ensures EachOK(budgets[..k + 1], inventory, actual)
  {
    assert budgets[..k + 1] == budgets[..k] + [budgets[k]];
  }

  /** CheckCapacity. */
  method CheckCapacity(budgets: seq<Budget>, inventory: seq<Mounted>, actual: map<string, Actual>) returns (ok: bool)
    ensures ok <==> 1 <= |budgets| <= 67 && EachOK(budgets, inventory, actual) && DevicesApart(budgets, actual)
  {
    if |budgets| < 1 || |budgets| > 67 {
      return false;
    }
    var seen: set<string> := {};
    for k := 0 to |budgets|
      invariant EachOK(budgets[..k], inventory, actual) && DevicesApart(budgets[..k], actual)
      invariant forall j :: 0 <= j < k ==> budgets[j].mount in actual
      invariant forall d :: d in seen <==> exists j :: 0 <= j < k && actual[budgets[j].mount].device == d
    {
      var fits := CheckBudget(budgets[k], inventory, actual);
      if !fits {
        return false;
      }
      var device := actual[budgets[k].mount].device;
      if device in seen {
        return false;
      }
      seen := seen + {device};
      BudgetStep(budgets, k, inventory, actual);
    }
    assert budgets[..|budgets|] == budgets;
    return true;
  }

  /** A budget whose filesystem reports machine numbers and whose blocks can be trusted. */
  predicate Trusted(b: Budget, st: Statfs) {
    Machine(b, st) && !WrapsToNothing(b.required, st.bsize)
  }

  /** MAIN: accepted budgets have their bytes free, each on a device of its own. */
  lemma AcceptedBudgetsFit(budgets: seq<Budget>, inventory: seq<Mounted>, actual: map<string, Actual>)
    requires EachOK(budgets, inventory, actual) && DevicesApart(budgets, actual)
    requires forall k :: 0 <= k < |budgets| ==> Trusted(budgets[k], actual[budgets[k].mount].space)
    ensures forall k :: 0 <= k < |budgets| ==> Fits(budgets[k], actual[budgets[k].mount].space)
    ensures forall j, k :: 0 <= j < k < |budgets| ==> actual[budgets[j].mount].device != actual[budgets[k].mount].device
    ensures forall k :: 0 <= k < |budgets| ==>
              && actual[budgets[k].mount].supported
              && exists m :: FiniteAt(inventory, budgets[k].mount, m) && m.device == actual[budgets[k].mount].device
  {
    forall k | 0 <= k < |budgets| ensures Fits(budgets[k], actual[budgets[k].mount].space) {
      AcceptedFits(budgets[k], actual[budgets[k].mount].space);
    }
  }

  // ---------------------------------------------------------------- the capture reservation

  datatype Native = Native(maxBackup: int, maxWal: int)

  function Margin(bytes: int): int {
    Max(GIB, (bytes + 9) / 10)
  }

  function Spool(bytes: int): int {
    bytes + Max(GIB, (bytes + 99) / 100)
  }

  predicate ValidNative(n: Native) {
    1 <= n.maxBackup <= 1024 * GIB && 1 <= n.maxWal <= 256 * GIB && n.maxWal <= n.maxBackup
  }

  const ENTRY_METADATA: int := 8192 * 100_000

  function NativePeak(n: Native): int {
    n.maxBackup + Spool(n.maxBackup) + n.maxWal + ENTRY_METADATA
  }

  /** CaptureCapacity. */
  function CaptureCapacity(n: Native): Option<int> {
    if !ValidNative(n) then None else Some(NativePeak(n) + Margin(NativePeak(n)))
  }

  /** OpenCapture adds a readback spool and six WAL spools to what CaptureCapacity gives; c.peak
      is an int64. */
  function Reservation(n: Native, segment: int): Option<int> {
    match CaptureCapacity(n)
    case None => None
    case Some(peak) => Some(Wrap64(peak + n.maxBackup + Max(GIB, (n.maxBackup + 99) / 100) + 6 * (segment + MIB) + 16 * MIB))
  }

  /** MAIN: the machine arithmetic never wraps, and what is reserved holds at once the raw
      archives, their spool, the WAL, the entries, the readback spool, six WAL spools and
      16 MiB, leaving a gibibyte and a tenth of the native peak to spare. */
  lemma ReservationCovers(n: Native, segment: int)
    requires MIB <= segment <= GIB && Reservation(n, segment).Some?
    ensures var total := Reservation(n, segment).value;
            var held := n.maxBackup + Spool(n.maxBackup) + n.maxWal + ENTRY_METADATA;
            var spare := total - held - Spool(n.maxBackup) - 6 * (segment + MIB) - 16 * MIB;
            0 < total < 8192 * GIB && spare >= GIB && 10 * spare >= held
    ensures 1 <= n.maxWal <= n.maxBackup <= 1024 * GIB && n.maxWal <= 256 * GIB
  {
  }
}
