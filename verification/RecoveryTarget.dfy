/** Reading the recovery target from an unordered field map. Models recoveryTarget and the
    target validation it ends with. */
module RecoveryTarget {
  import opened Basics
  import C = CaptureInventory

  /** The field names the code switches on; any other name is Unknown. */
  datatype Field =
    | Exclusive | BackupID | TargetTLI | TargetTime | TargetLSN | TargetName | TargetXID | TargetImmediate
    | Unknown(name: string)

  datatype Value = Bool(b: bool) | Text(s: string) | Other

  datatype Kind = Latest | Time | Lsn | Name | Xid | Immediate

  datatype Target = Target(kind: Kind, value: string, exclusive: bool, backup: Option<string>, timeline: nat)

  /** Which texts are well-formed times, LSNs, restore-point names, transaction IDs of the
      admitted range, and backup IDs. */
  datatype Syntax = Syntax(times: set<string>, lsns: set<string>, names: set<string>, xids: set<string>, ids: set<string>)

  const START := Target(Latest, "", false, None, 0)

  // ---------------------------------------------------------------- one field

  /** strconv.ParseUint(s, 10, 32), positive and written canonically. */
  predicate CanonicalTimeline(s: string) {
    && s != "" && (forall i :: 0 <= i < |s| ==> '0' <= s[i] <= '9')
    && 1 <= C.DecValue(s) < 0x1_0000_0000 && C.FormatDec(C.DecValue(s)) == s
  }

  /** The accepted texts are the decimal numbers from 1 below 2^32, each in its one spelling. */
  lemma CanonicalMeans(s: string)
    ensures CanonicalTimeline(s) <==> exists n: nat :: 1 <= n < 0x1_0000_0000 && s == C.FormatDec(n)
    ensures forall n: nat :: s == C.FormatDec(n) ==> C.DecValue(s) == n
  {
    if CanonicalTimeline(s) {
      assert s == C.FormatDec(C.DecValue(s));
    }
    forall n: nat | s == C.FormatDec(n) ensures C.DecValue(s) == n {
      C.DecRoundTrip(n);
    }
  }

  function KindOf(f: Field): Kind {
    match f
    case TargetTime => Time
    case TargetLSN => Lsn
    case TargetName => Name
    case TargetXID => Xid
    case TargetImmediate => Immediate
    case _ => Latest
  }

  predicate TextKind(f: Field) {
    f.TargetTime? || f.TargetLSN? || f.TargetName? || f.TargetXID?
  }

  /** One turn of the loop. */
  function Step(t: Target, f: Field, v: Value): Option<Target> {
    match f
    case Exclusive => if v.Bool? then Some(t.(exclusive := v.b)) else None
    case BackupID => if v.Text? && v.s != "" then Some(t.(backup := Some(v.s))) else None
    case TargetTLI => if v.Text? && CanonicalTimeline(v.s) then Some(t.(timeline := C.DecValue(v.s))) else None
    case TargetImmediate =>
      if !v.Bool? then None
      else if !v.b then Some(t)
      else if t.kind != Latest then None else Some(t.(kind := Immediate))
    case Unknown(_) => None
    case _ =>
      if !v.Text? || v.s == "" || t.kind != Latest then None else Some(t.(kind := KindOf(f), value := v.s))
  }

  // ---------------------------------------------------------------- what a set of fields means

  /** The field is acceptable by itself. */
  predicate FieldOK(f: Field, v: Value) {
    match f
    case Exclusive => v.Bool?
    case BackupID => v.Text? && v.s != ""
    case TargetTLI => v.Text? && CanonicalTimeline(v.s)
    case TargetImmediate => v.Bool?
    case Unknown(_) => false
    case _ => v.Text? && v.s != ""
  }

  /** The field chooses where recovery stops. */
  predicate Chooses(f: Field, v: Value) {
    TextKind(f) || (f.TargetImmediate? && v == Bool(true))
  }

  function Choices(m: map<Field, Value>): set<Field> {
    set f | f in m && Chooses(f, m[f])
  }

  ghost predicate Acceptable(m: map<Field, Value>) {
    (forall f :: f in m ==> FieldOK(f, m[f])) && (forall f, g :: f in Choices(m) && g in Choices(m) ==> f == g)
  }

  function TextOf(v: Value): string {
    if v.Text? then v.s else ""
  }

  function TimelineOf(v: Value): nat {
    if CanonicalTimeline(TextOf(v)) then C.DecValue(TextOf(v)) else 0
  }

  /** t says exactly what the fields of m say. */
  ghost predicate Says(t: Target, m: map<Field, Value>) {
    SaysWhere(t, m) && SaysWhich(t, m)
  }

  /** Where recovery stops, field by field. */
  ghost predicate SaysWhere(t: Target, m: map<Field, Value>) {
    && (TargetTime in m ==> t.kind == Time && t.value == TextOf(m[TargetTime]))
    && (TargetLSN in m ==> t.kind == Lsn && t.value == TextOf(m[TargetLSN]))
    && (TargetName in m ==> t.kind == Name && t.value == TextOf(m[TargetName]))
    && (TargetXID in m ==> t.kind == Xid && t.value == TextOf(m[TargetXID]))
    && (TargetImmediate in m && m[TargetImmediate] == Bool(true) ==> t.kind == Immediate && t.value == "")
    && (|| TargetTime in m || TargetLSN in m || TargetName in m || TargetXID in m
        || (TargetImmediate in m && m[TargetImmediate] == Bool(true))
        || (t.kind == Latest && t.value == ""))
  }

  /** The same through the chosen field and its kind. */
  ghost predicate SaysChoice(t: Target, m: map<Field, Value>) {
    && (t.kind == Latest <==> Choices(m) == {})
    && (forall f :: f in Choices(m) ==> t.kind == KindOf(f) && t.value == if TextKind(f) then TextOf(m[f]) else "")
    && (Choices(m) == {} ==> t.value == "")
  }

  ghost predicate SaysWhich(t: Target, m: map<Field, Value>) {
    && (t.exclusive <==> Exclusive in m && m[Exclusive] == Bool(true))
    && t.backup == (if BackupID in m then Some(TextOf(m[BackupID])) else None)
    && t.timeline == (if TargetTLI in m then TimelineOf(m[TargetTLI]) else 0)
  }

  lemma SaysWhereIs(t: Target, m: map<Field, Value>)
    ensures SaysWhere(t, m) <==> SaysChoice(t, m)
  {
    assert forall f :: f in Choices(m) <==>
             (f in m && (f.TargetTime? || f.TargetLSN? || f.TargetName? || f.TargetXID? || (f.TargetImmediate? && m[f] == Bool(true))));
    if SaysWhere(t, m) {
      assert t.kind != Latest ==> exists f :: f in Choices(m);
    }
    if SaysChoice(t, m) && Choices(m) == {} {
      assert TargetTime !in Choices(m) && TargetLSN !in Choices(m) && TargetName !in Choices(m) && TargetXID !in Choices(m);
      assert TargetImmediate !in Choices(m);
    }
  }

  lemma SaysIsUnique(t: Target, u: Target, m: map<Field, Value>)
    requires Acceptable(m) && (forall f :: f in m ==> FieldOK(f, m[f])) && Says(t, m) && Says(u, m)
    ensures t == u
  {
    SaysWhereIs(t, m);
    SaysWhereIs(u, m);
    if f :| f in Choices(m) {
      assert t.kind == KindOf(f) && u.kind == KindOf(f);
    }
  }

  lemma ChoicesStep(m: map<Field, Value>, f: Field, v: Value)
    requires f !in m
    ensures Choices(m[f := v]) == Choices(m) + if Chooses(f, v) then {f} else {}
  {
    var now := m[f := v];
    forall g ensures g in Choices(now) <==> g in Choices(m) || (g == f && Chooses(f, v)) {
    }
  }

  lemma AcceptableStep(m: map<Field, Value>, f: Field, v: Value)
    requires f !in m && Acceptable(m)
    ensures Acceptable(m[f := v]) <==> FieldOK(f, v) && !(Chooses(f, v) && Choices(m) != {})
  {
    ChoicesStep(m, f, v);
    var now := m[f := v];
    assert Acceptable(now) ==> FieldOK(f, now[f]);
    if Chooses(f, v) {
      forall g | g in Choices(m) ensures !Acceptable(now) {
        assert g in Choices(now) && f in Choices(now) && g != f;
      }
    }
  }

  /** A turn succeeds exactly when the fields so far are acceptable together. */
  lemma StepMeans(t: Target, m: map<Field, Value>, f: Field, v: Value)
    requires f !in m && Acceptable(m) && Says(t, m)
    ensures Step(t, f, v).Some? <==> Acceptable(m[f := v])
    ensures Step(t, f, v).Some? ==> Says(Step(t, f, v).value, m[f := v])
  {
    AcceptableStep(m, f, v);
    ChoicesStep(m, f, v);
    SaysWhereIs(t, m);
    if Step(t, f, v).Some? {
      StepSays(t, m, f, v);
    }
  }

  lemma StepSays(t: Target, m: map<Field, Value>, f: Field, v: Value)
    requires f !in m && Says(t, m) && Step(t, f, v).Some?
    ensures Says(Step(t, f, v).value, m[f := v])
  {
    SaysWhereIs(t, m);
    SaysWhereIs(Step(t, f, v).value, m[f := v]);
    if Chooses(f, v) {
      ChoosingSaysWhere(t, m, f, v);
    } else {
      OtherSaysWhere(t, m, f, v);
    }
  }

  lemma ChoosingSaysWhere(t: Target, m: map<Field, Value>, f: Field, v: Value)
    requires f !in m && SaysChoice(t, m) && Step(t, f, v).Some? && Chooses(f, v)
    ensures SaysChoice(Step(t, f, v).value, m[f := v])
  {
    ChoicesStep(m, f, v);
    assert Choices(m) == {} && Choices(m[f := v]) == {f};
  }

  lemma OtherSaysWhere(t: Target, m: map<Field, Value>, f: Field, v: Value)
    requires f !in m && SaysChoice(t, m) && Step(t, f, v).Some? && !Chooses(f, v)
    ensures SaysChoice(Step(t, f, v).value, m[f := v])
  {
    ChoicesStep(m, f, v);
    assert Choices(m[f := v]) == Choices(m);
    assert Step(t, f, v).value.kind == t.kind && Step(t, f, v).value.value == t.value;
  }

  // ---------------------------------------------------------------- validation

  predicate Valid(t: Target, syntax: Syntax) {
    && (t.backup.Some? ==> t.backup.value in syntax.ids)
    && match t.kind
       case Latest => t.value == "" && !t.exclusive
       case Time => t.value in syntax.times
       case Lsn => t.value in syntax.lsns
       case Name => t.value in syntax.names && !t.exclusive && t.backup.Some?
       case Xid => t.value in syntax.xids && t.backup.Some?
       case Immediate => t.value == "" && !t.exclusive && t.backup.Some?
  }

  /** The value is well-formed for its kind. */
  ghost predicate ValueFits(t: Target, syntax: Syntax) {
    && (t.kind == Time ==> t.value in syntax.times) && (t.kind == Lsn ==> t.value in syntax.lsns)
    && (t.kind == Name ==> t.value in syntax.names) && (t.kind == Xid ==> t.value in syntax.xids)
    && (t.kind == Latest || t.kind == Immediate ==> t.value == "")
  }

  /** MAIN: a target is valid exactly when its value fits its kind, its backup ID is one, only times,
      LSNs and transactions are exclusive, and names, transactions and the immediate end come with
      the backup to start from. */
  lemma ValidMeans(t: Target, syntax: Syntax)
    ensures Valid(t, syntax) <==>
              && ValueFits(t, syntax) && (t.backup.Some? ==> t.backup.value in syntax.ids)
              && (t.exclusive ==> t.kind == Time || t.kind == Lsn || t.kind == Xid)
              && (t.kind == Name || t.kind == Xid || t.kind == Immediate ==> t.backup.Some?)
  {
  }

  /** What an iteration that stopped early saw stays unacceptable. */
  lemma UnacceptableGrows(part: map<Field, Value>, whole: map<Field, Value>)
    requires !Acceptable(part) && forall f :: f in part ==> f in whole && whole[f] == part[f]
    ensures !Acceptable(whole)
  {
    if Acceptable(whole) {
      forall f, g | f in Choices(part) && g in Choices(part) ensures f == g {
        assert f in Choices(whole) && g in Choices(whole);
      }
    }
  }

  /** MAIN: whatever order the map is iterated in, the verdict and the target are those the
      fields themselves determine; at most one field may choose the stopping point. */
  method ReadTarget(fields: map<Field, Value>, syntax: Syntax) returns (r: Option<Target>)
    ensures forall t :: r == Some(t) <==> Acceptable(fields) && Says(t, fields) && Valid(t, syntax)
  {
    var t := START;
    var rest := fields.Keys;
    ghost var done: map<Field, Value> := map[];
    while rest != {}
      invariant rest <= fields.Keys && done == map f | f in fields && f !in rest :: fields[f]
      invariant Acceptable(done) && Says(t, done)
      decreases rest
    {
      var f :| f in rest;
      StepMeans(t, done, f, fields[f]);
      var next := Step(t, f, fields[f]);
      rest := rest - {f};
      done := done[f := fields[f]];
      if next.None? {
        UnacceptableGrows(done, fields);
        return None;
      }
      t := next.value;
    }
    assert done == fields;
    forall u | Says(u, fields) ensures u == t {
      SaysIsUnique(u, t, fields);
    }
    if !Valid(t, syntax) {
      return None;
    }
    return Some(t);
  }
}
