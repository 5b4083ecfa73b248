/** The duplicate-key and depth scan over a JSON token stream. Models the scan closure of
    StrictJSONLimit and the token discipline of the decoder it drives: a decoder hands out
    a key only where a key is due and a closing bracket only for the innermost container. */
module StrictJson {
  import opened Basics

  const MAX_DEPTH: nat := 32

  // ---------------------------------------------------------------- tokens and decoder states

  datatype Token = OpenObj | CloseObj | OpenArr | CloseArr | Text(s: string) | Plain(code: int)

  /** Where the decoder stands in each open container. */
  datatype Frame = InArray | AtKey | AtValue

  datatype Stack = Bottom | Push(top: Frame, below: Stack)

  datatype Dec = Dec(pos: nat, stack: Stack)

  predicate TopIs(stack: Stack, f: Frame) {
    stack.Push? && stack.top == f
  }

  predicate ValueDue(stack: Stack) {
    !TopIs(stack, AtKey)
  }

  /** The enclosing object waits for its next key once a member's value is complete. */
  function AfterValue(stack: Stack): Stack {
    if TopIs(stack, AtValue) then Push(AtKey, stack.below) else stack
  }

  /** Decoder.Token: the stack after reading t, or None for a syntax error. */
  function Advance(stack: Stack, t: Token): Option<Stack> {
    match t
    case OpenObj => if ValueDue(stack) then Some(Push(AtKey, stack)) else None
    case OpenArr => if ValueDue(stack) then Some(Push(InArray, stack)) else None
    case CloseObj => if TopIs(stack, AtKey) then Some(AfterValue(stack.below)) else None
    case CloseArr => if TopIs(stack, InArray) then Some(AfterValue(stack.below)) else None
    case Text(_) => Some(if TopIs(stack, AtKey) then Push(AtValue, stack.below) else AfterValue(stack))
    case Plain(_) => if ValueDue(stack) then Some(AfterValue(stack)) else None
  }

  function Next(ts: seq<Token>, d: Dec): (r: Option<Dec>)
    ensures r.Some? ==> d.pos < |ts| && r.value.pos == d.pos + 1
  {
    if d.pos >= |ts| then None
    else
      var stack := Advance(d.stack, ts[d.pos]);
      if stack.None? then None else Some(Dec(d.pos + 1, stack.value))
  }

  /** Decoder.More. */
  predicate More(ts: seq<Token>, d: Dec) {
    d.pos < |ts| && ts[d.pos] != CloseObj && ts[d.pos] != CloseArr
  }

  // ---------------------------------------------------------------- the scan

  function Scan(ts: seq<Token>, d: Dec, depth: nat): (r: Option<Dec>)
    ensures r.Some? ==> d.pos < r.value.pos <= |ts|
    decreases |ts| - d.pos, 0
  {
    if depth > MAX_DEPTH then None
    else
      var n := Next(ts, d);
      if n.None? then None
      else match ts[d.pos]
        case OpenObj => ObjectBody(ts, n.value, depth, {})
        case OpenArr => ArrayBody(ts, n.value, depth)
        case _ => n
  }

  function ObjectBody(ts: seq<Token>, d: Dec, depth: nat, seen: set<string>): (r: Option<Dec>)
    ensures r.Some? ==> d.pos < r.value.pos <= |ts|
    decreases |ts| - d.pos, 1
  {
    if !More(ts, d) then Next(ts, d)
    else
      var k := Next(ts, d);
      if k.None? || !ts[d.pos].Text? || ts[d.pos].s in seen then None
      else
        var v := Scan(ts, k.value, depth + 1);
        if v.None? then None else ObjectBody(ts, v.value, depth, seen + {ts[d.pos].s})
  }

  function ArrayBody(ts: seq<Token>, d: Dec, depth: nat): (r: Option<Dec>)
    ensures r.Some? ==> d.pos < r.value.pos <= |ts|
    decreases |ts| - d.pos, 1
  {
    if !More(ts, d) then Next(ts, d)
    else
      var v := Scan(ts, d, depth + 1);
      if v.None? then None else ArrayBody(ts, v.value, depth)
  }

  /** The first pass of StrictJSONLimit: one value, then the end of the input. */
  predicate Accepts(ts: seq<Token>) {
    var r := Scan(ts, Dec(0, Bottom), 0);
    r.Some? && r.value.pos == |ts|
  }

  // ---------------------------------------------------------------- the decoder and the closure

  class Decoder {
    const tokens: seq<Token>
    var pos: nat
    var stack: Stack

    function At(): Dec
      reads this
    {
      Dec(pos, stack)
    }

    constructor (ts: seq<Token>)
      ensures tokens == ts && At() == Dec(0, Bottom)
    {
      tokens, pos, stack := ts, 0, Bottom;
    }

    method ReadToken() returns (ok: bool, t: Token)
      modifies this
      ensures ok <==> Next(tokens, old(At())).Some?
      ensures ok ==> t == tokens[old(pos)] && Some(At()) == Next(tokens, old(At()))
      ensures !ok ==> At() == old(At())
    {
      if pos >= |tokens| {
        return false, Plain(0);
      }
      t := tokens[pos];
      var next := Advance(stack, t);
      if next.None? {
        return false, t;
      }
      stack, pos := next.value, pos + 1;
      return true, t;
    }

    /** The recursive closure: exactly the scan of the remaining tokens. */
    method ScanValue(depth: nat) returns (ok: bool)
      modifies this
      ensures ok <==> Scan(tokens, old(At()), depth).Some?
      ensures ok ==> Some(At()) == Scan(tokens, old(At()), depth)
      decreases |tokens| - pos, 0
    {
      if depth > MAX_DEPTH {
        return false;
      }
      var t;
      ok, t := ReadToken();
      if !ok {
        return;
      }
      if t == OpenObj {
        ok := ScanObject(depth);
      } else if t == OpenArr {
        ok := ScanArray(depth);
      }
    }

    method ScanObject(depth: nat) returns (ok: bool)
      modifies this
      ensures ok <==> ObjectBody(tokens, old(At()), depth, {}).Some?
      ensures ok ==> Some(At()) == ObjectBody(tokens, old(At()), depth, {})
      decreases |tokens| - pos, 1
    {
      var seen: set<string> := {};
      while More(tokens, At())
        invariant old(pos) <= pos
        invariant ObjectBody(tokens, At(), depth, seen) == ObjectBody(tokens, old(At()), depth, {})
        decreases |tokens| - pos
      {
        var key;
        ok, key := ReadToken();
        if !ok || !key.Text? || key.s in seen {
          return false;
        }
        seen := seen + {key.s};
        ok := ScanValue(depth + 1);
        if !ok {
          return;
        }
      }
      var t;
      ok, t := ReadToken();
    }

    method ScanArray(depth: nat) returns (ok: bool)
      modifies this
      ensures ok <==> ArrayBody(tokens, old(At()), depth).Some?
      ensures ok ==> Some(At()) == ArrayBody(tokens, old(At()), depth)
      decreases |tokens| - pos, 1
    {
      while More(tokens, At())
        invariant old(pos) <= pos
        invariant ArrayBody(tokens, At(), depth) == ArrayBody(tokens, old(At()), depth)
        decreases |tokens| - pos
      {
        ok := ScanValue(depth + 1);
        if !ok {
          return;
        }
      }
      var t;
      ok, t := ReadToken();
    }
  }

  method StrictPass(ts: seq<Token>) returns (ok: bool)
    ensures ok <==> exists j :: ts == Tokens(j) && NoRepeats(j) && Height(j) <= MAX_DEPTH
  {
    var d := new Decoder(ts);
    ok := d.ScanValue(0);
    ok := ok && d.pos == |ts|;
    AcceptedDocuments(ts);
  }

  // ---------------------------------------------------------------- JSON values

  datatype Json = Atom(t: Token) | Arr(items: Items) | Obj(fields: Fields)
  datatype Items = NoItem | Item(head: Json, tail: Items)
  datatype Fields = NoField | Field(key: string, value: Json, rest: Fields)

  function Tokens(j: Json): seq<Token> {
    match j
    case Atom(t) => [Norm(t)]
    case Arr(items) => [OpenArr] + ItemTokens(items)
    case Obj(fields) => [OpenObj] + FieldTokens(fields)
  }

  /** The tokens of the items and the closing bracket. */
  function ItemTokens(items: Items): seq<Token> {
    if items.NoItem? then [CloseArr] else Tokens(items.head) + ItemTokens(items.tail)
  }

  function FieldTokens(fields: Fields): seq<Token> {
    if fields.NoField? then [CloseObj] else [Text(fields.key)] + (Tokens(fields.value) + FieldTokens(fields.rest))
  }

  function Keys(fields: Fields): seq<string> {
    if fields.NoField? then [] else [fields.key] + Keys(fields.rest)
  }

  /** No object at any depth repeats a key. */
  ghost predicate NoRepeats(j: Json) {
    match j
    case Atom(_) => true
    case Arr(items) => ItemsNoRepeats(items)
    case Obj(fields) => Distinct(Keys(fields)) && FieldsNoRepeats(fields)
  }

  ghost predicate ItemsNoRepeats(items: Items) {
    items.Item? ==> NoRepeats(items.head) && ItemsNoRepeats(items.tail)
  }

  ghost predicate FieldsNoRepeats(fields: Fields) {
    fields.Field? ==> NoRepeats(fields.value) && FieldsNoRepeats(fields.rest)
  }

  /** Levels below a value: its members are one level deeper than it. */
  function Height(j: Json): nat {
    match j
    case Atom(_) => 0
    case Arr(items) => ItemsHeight(items)
    case Obj(fields) => FieldsHeight(fields)
  }

  function ItemsHeight(items: Items): nat {
    if items.NoItem? then 0 else Max(1 + Height(items.head), ItemsHeight(items.tail))
  }

  function FieldsHeight(fields: Fields): nat {
    if fields.NoField? then 0 else Max(1 + Height(fields.value), FieldsHeight(fields.rest))
  }

  // ---------------------------------------------------------------- where the tokens of a value stand

  function Norm(t: Token): Token {
    if t.Text? || t.Plain? then t else Plain(0)
  }

  function Length(j: Json): nat {
    match j
    case Atom(_) => 1
    case Arr(items) => 1 + ItemsLength(items)
    case Obj(fields) => 1 + FieldsLength(fields)
  }

  /** Lengths up to and with the closing bracket. */
  function ItemsLength(items: Items): nat {
    if items.NoItem? then 1 else Length(items.head) + ItemsLength(items.tail)
  }

  function FieldsLength(fields: Fields): nat {
    if fields.NoField? then 1 else 1 + Length(fields.value) + FieldsLength(fields.rest)
  }

  ghost predicate TokenAt(ts: seq<Token>, pos: nat, t: Token) {
    pos < |ts| && ts[pos] == t
  }

  /** The tokens of j stand at pos. */
  ghost predicate TreeAt(ts: seq<Token>, pos: nat, j: Json)
    decreases j
  {
    match j
    case Atom(t) => TokenAt(ts, pos, Norm(t))
    case Arr(items) => TokenAt(ts, pos, OpenArr) && ItemsAt(ts, pos + 1, items)
    case Obj(fields) => TokenAt(ts, pos, OpenObj) && FieldsAt(ts, pos + 1, fields)
  }

  ghost predicate ItemsAt(ts: seq<Token>, pos: nat, items: Items)
    decreases items
  {
    if items.NoItem? then TokenAt(ts, pos, CloseArr)
    else TreeAt(ts, pos, items.head) && ItemsAt(ts, pos + Length(items.head), items.tail)
  }

  ghost predicate FieldsAt(ts: seq<Token>, pos: nat, fields: Fields)
    decreases fields
  {
    if fields.NoField? then TokenAt(ts, pos, CloseObj)
    else && TokenAt(ts, pos, Text(fields.key)) && TreeAt(ts, pos + 1, fields.value)
         && FieldsAt(ts, pos + 1 + Length(fields.value), fields.rest)
  }

  ghost predicate Follows(ts: seq<Token>, pos: nat, part: seq<Token>) {
    pos + |part| <= |ts| && forall k :: 0 <= k < |part| ==> ts[pos + k] == part[k]
  }

  lemma FollowsSplit(ts: seq<Token>, pos: nat, a: seq<Token>, b: seq<Token>)
    ensures Follows(ts, pos, a + b) <==> Follows(ts, pos, a) && Follows(ts, pos + |a|, b)
  {
    if Follows(ts, pos, a + b) {
      forall k | 0 <= k < |b| ensures ts[pos + |a| + k] == b[k] {
        assert (a + b)[|a| + k] == b[k];
      }
      assert forall k :: 0 <= k < |a| ==> (a + b)[k] == a[k];
    }
  }

  lemma FollowsOne(ts: seq<Token>, pos: nat, t: Token)
    ensures Follows(ts, pos, [t]) <==> TokenAt(ts, pos, t)
  {
    assert [t][0] == t;
  }

  /** Both descriptions of where a value stands agree. */
  lemma {:induction false} TreeAtIsFollows(ts: seq<Token>, pos: nat, j: Json)
    ensures |Tokens(j)| == Length(j) && (TreeAt(ts, pos, j) <==> Follows(ts, pos, Tokens(j)))
    decreases j, 0
  {
    match j
    case Atom(t) =>
      FollowsOne(ts, pos, Norm(t));
    case Arr(items) =>
      FollowsOne(ts, pos, OpenArr);
      FollowsSplit(ts, pos, [OpenArr], ItemTokens(items));
      ItemsAtIsFollows(ts, pos + 1, items);
    case Obj(fields) =>
      FollowsOne(ts, pos, OpenObj);
      FollowsSplit(ts, pos, [OpenObj], FieldTokens(fields));
      FieldsAtIsFollows(ts, pos + 1, fields);
  }

  lemma {:induction false} ItemsAtIsFollows(ts: seq<Token>, pos: nat, items: Items)
    ensures |ItemTokens(items)| == ItemsLength(items) && (ItemsAt(ts, pos, items) <==> Follows(ts, pos, ItemTokens(items)))
    decreases items, 1
  {
    if items.NoItem? {
      FollowsOne(ts, pos, CloseArr);
    } else {
      var a, b := Tokens(items.head), ItemTokens(items.tail);
      TreeAtIsFollows(ts, pos, items.head);
      ItemsAtIsFollows(ts, pos + Length(items.head), items.tail);
      assert ItemsAt(ts, pos, items) <==> Follows(ts, pos, a) && Follows(ts, pos + |a|, b);
      FollowsSplit(ts, pos, a, b);
      assert ItemTokens(items) == a + b;
    }
  }

  lemma {:induction false} FieldsAtIsFollows(ts: seq<Token>, pos: nat, fields: Fields)
    ensures |FieldTokens(fields)| == FieldsLength(fields) && (FieldsAt(ts, pos, fields) <==> Follows(ts, pos, FieldTokens(fields)))
    decreases fields, 1
  {
    if fields.NoField? {
      FollowsOne(ts, pos, CloseObj);
    } else {
      var t, a, b := Text(fields.key), Tokens(fields.value), FieldTokens(fields.rest);
      TreeAtIsFollows(ts, pos + 1, fields.value);
      FieldsAtIsFollows(ts, pos + 1 + Length(fields.value), fields.rest);
      assert FieldsAt(ts, pos, fields) <==> TokenAt(ts, pos, t) && Follows(ts, pos + 1, a) && Follows(ts, pos + 1 + |a|, b);
      FollowsThree(ts, pos, t, a, b);
      assert FieldTokens(fields) == [t] + (a + b);
    }
  }

  lemma FollowsThree(ts: seq<Token>, pos: nat, t: Token, a: seq<Token>, b: seq<Token>)
    ensures Follows(ts, pos, [t] + (a + b)) <==> TokenAt(ts, pos, t) && Follows(ts, pos + 1, a) && Follows(ts, pos + 1 + |a|, b)
  {
    FollowsSplit(ts, pos, [t], a + b);
    FollowsOne(ts, pos, t);
    FollowsSplit(ts, pos + 1, a, b);
  }

  // ---------------------------------------------------------------- scanning the tokens of a value

  // One unfolding of the scan at a time.

  lemma ScanArr(ts: seq<Token>, d: Dec, depth: nat)
    requires depth <= MAX_DEPTH && d.pos < |ts| && ts[d.pos] == OpenArr && ValueDue(d.stack)
    ensures Scan(ts, d, depth) == ArrayBody(ts, Dec(d.pos + 1, Push(InArray, d.stack)), depth)
  {
  }

  lemma ScanObj(ts: seq<Token>, d: Dec, depth: nat)
    requires depth <= MAX_DEPTH && d.pos < |ts| && ts[d.pos] == OpenObj && ValueDue(d.stack)
    ensures Scan(ts, d, depth) == ObjectBody(ts, Dec(d.pos + 1, Push(AtKey, d.stack)), depth, {})
  {
  }

  lemma ScanAtom(ts: seq<Token>, d: Dec, depth: nat)
    requires depth <= MAX_DEPTH && d.pos < |ts| && (ts[d.pos].Text? || ts[d.pos].Plain?) && ValueDue(d.stack)
    ensures Scan(ts, d, depth) == Some(Dec(d.pos + 1, AfterValue(d.stack)))
  {
  }

  lemma ArrayEnds(ts: seq<Token>, d: Dec, depth: nat)
    requires d.pos < |ts| && ts[d.pos] == CloseArr && TopIs(d.stack, InArray)
    ensures ArrayBody(ts, d, depth) == Some(Dec(d.pos + 1, AfterValue(d.stack.below)))
  {
  }

  lemma ArrayGoesOn(ts: seq<Token>, d: Dec, depth: nat)
    requires More(ts, d)
    ensures var v := Scan(ts, d, depth + 1);
            ArrayBody(ts, d, depth) == if v.None? then None else ArrayBody(ts, v.value, depth)
  {
  }

  lemma ObjectEnds(ts: seq<Token>, d: Dec, depth: nat, seen: set<string>)
    requires d.pos < |ts| && ts[d.pos] == CloseObj && TopIs(d.stack, AtKey)
    ensures ObjectBody(ts, d, depth, seen) == Some(Dec(d.pos + 1, AfterValue(d.stack.below)))
  {
  }

  lemma ObjectGoesOn(ts: seq<Token>, d: Dec, depth: nat, seen: set<string>)
    requires d.pos < |ts| && ts[d.pos].Text? && TopIs(d.stack, AtKey)
    ensures var k := ts[d.pos].s;
            var v := Scan(ts, Dec(d.pos + 1, Push(AtValue, d.stack.below)), depth + 1);
            ObjectBody(ts, d, depth, seen) ==
            if k in seen || v.None? then None else ObjectBody(ts, v.value, depth, seen + {k})
  {
  }

  ghost predicate NewKeys(fields: Fields, seen: set<string>) {
    Distinct(Keys(fields)) && forall k :: k in Keys(fields) ==> k !in seen
  }

  lemma NewKeysStep(fields: Fields, seen: set<string>)
    requires fields.Field?
    ensures NewKeys(fields, seen) <==> fields.key !in seen && NewKeys(fields.rest, seen + {fields.key})
  {
    var all, rest := Keys(fields), Keys(fields.rest);
    assert all == [fields.key] + rest;
    assert rest == all[1..];
    if fields.key !in seen && NewKeys(fields.rest, seen + {fields.key}) {
      forall i, j | 0 <= i < j < |all| ensures all[i] != all[j] {
        assert all[j] == rest[j - 1] && all[j] in rest;
        if i > 0 {
          assert all[i] == rest[i - 1];
        }
      }
    }
    if NewKeys(fields, seen) {
      assert all[0] in all;
      forall i, j | 0 <= i < j < |rest| ensures rest[i] != rest[j] {
        assert rest[i] == all[i + 1] && rest[j] == all[j + 1];
      }
      forall k | k in rest ensures k !in seen + {fields.key} {
        var i :| 0 <= i < |rest| && rest[i] == k;
        assert all[i + 1] == k && all[i + 1] in all && all[0] != all[i + 1];
      }
    }
  }

  /** What the scan asks of a value, and of the rest of a container, at a depth. */
  ghost predicate TreeOK(j: Json, depth: nat)
    decreases j
  {
    depth <= MAX_DEPTH &&
    match j
    case Atom(_) => true
    case Arr(items) => ItemsOK(items, depth)
    case Obj(fields) => FieldsOK(fields, depth, {})
  }

  ghost predicate ItemsOK(items: Items, depth: nat)
    decreases items
  {
    items.Item? ==> TreeOK(items.head, depth + 1) && ItemsOK(items.tail, depth)
  }

  ghost predicate FieldsOK(fields: Fields, depth: nat, seen: set<string>)
    decreases fields
  {
    fields.Field? ==>
      fields.key !in seen && TreeOK(fields.value, depth + 1) && FieldsOK(fields.rest, depth, seen + {fields.key})
  }

  /** In whole-value terms: no repeated key anywhere, and nothing below level 32. */
  lemma {:induction false} TreeOKMeans(j: Json, depth: nat)
    ensures TreeOK(j, depth) <==> NoRepeats(j) && depth + Height(j) <= MAX_DEPTH
    decreases j, 0
  {
    match j
    case Atom(_) =>
    case Arr(items) =>
      if depth <= MAX_DEPTH {
        ItemsOKMeans(items, depth);
      }
    case Obj(fields) =>
      if depth <= MAX_DEPTH {
        FieldsOKMeans(fields, depth, {});
        NoKeysSeen(fields);
      }
  }

  lemma {:induction false} ItemsOKMeans(items: Items, depth: nat)
    requires depth <= MAX_DEPTH
    ensures ItemsOK(items, depth) <==> ItemsNoRepeats(items) && depth + ItemsHeight(items) <= MAX_DEPTH
    decreases items, 1
  {
    if items.Item? {
      TreeOKMeans(items.head, depth + 1);
      ItemsOKMeans(items.tail, depth);
    }
  }

  lemma {:induction false} FieldsOKMeans(fields: Fields, depth: nat, seen: set<string>)
    requires depth <= MAX_DEPTH
    ensures FieldsOK(fields, depth, seen) <==>
            NewKeys(fields, seen) && FieldsNoRepeats(fields) && depth + FieldsHeight(fields) <= MAX_DEPTH
    decreases fields, 1
  {
    if fields.Field? {
      NewKeysStep(fields, seen);
      TreeOKMeans(fields.value, depth + 1);
      FieldsOKMeans(fields.rest, depth, seen + {fields.key});
    }
  }

  lemma NoKeysSeen(fields: Fields)
    ensures NewKeys(fields, {}) <==> Distinct(Keys(fields))
  {
  }

  ghost function Verdict(ok: bool, d: Dec): Option<Dec> {
    if ok then Some(d) else None
  }

  lemma TreeStartsOpen(ts: seq<Token>, pos: nat, j: Json)
    requires TreeAt(ts, pos, j)
    ensures pos < |ts| && ts[pos] != CloseObj && ts[pos] != CloseArr
  {
  }

  lemma {:induction false} ScanAt(j: Json, ts: seq<Token>, d: Dec, depth: nat)
    requires TreeAt(ts, d.pos, j) && ValueDue(d.stack)
    ensures Scan(ts, d, depth) == Verdict(TreeOK(j, depth), Dec(d.pos + Length(j), AfterValue(d.stack)))
    decreases j, 0
  {
    if depth <= MAX_DEPTH {
      match j
      case Atom(_) =>
        ScanAtom(ts, d, depth);
      case Arr(items) =>
        ScanArr(ts, d, depth);
        ScanItemsAt(items, ts, Dec(d.pos + 1, Push(InArray, d.stack)), depth);
      case Obj(fields) =>
        ScanObj(ts, d, depth);
        ScanFieldsAt(fields, ts, Dec(d.pos + 1, Push(AtKey, d.stack)), depth, {});
    }
  }

  /** The verdicts on the first item and on the others make the verdict on all. */
  lemma {:induction false} ScanItemsAt(items: Items, ts: seq<Token>, d: Dec, depth: nat)
    requires ItemsAt(ts, d.pos, items) && TopIs(d.stack, InArray) && depth <= MAX_DEPTH
    ensures ArrayBody(ts, d, depth) ==
            Verdict(ItemsOK(items, depth), Dec(d.pos + ItemsLength(items), AfterValue(d.stack.below)))
    decreases items, 1
  {
    if items.NoItem? {
      ArrayEnds(ts, d, depth);
    } else {
      TreeStartsOpen(ts, d.pos, items.head);
      ArrayGoesOn(ts, d, depth);
      ScanAt(items.head, ts, d, depth + 1);
      ScanItemsAt(items.tail, ts, Dec(d.pos + Length(items.head), d.stack), depth);
    }
  }

  lemma KeyThenValue(stack: Stack)
    requires TopIs(stack, AtKey)
    ensures var key := Push(AtValue, stack.below); ValueDue(key) && TopIs(key, AtValue) && AfterValue(key) == stack
  {
  }

  lemma {:induction false} ScanFieldsAt(fields: Fields, ts: seq<Token>, d: Dec, depth: nat, seen: set<string>)
    requires FieldsAt(ts, d.pos, fields) && TopIs(d.stack, AtKey) && depth <= MAX_DEPTH
    ensures ObjectBody(ts, d, depth, seen) ==
            Verdict(FieldsOK(fields, depth, seen), Dec(d.pos + FieldsLength(fields), AfterValue(d.stack.below)))
    decreases fields, 1
  {
    if fields.NoField? {
      ObjectEnds(ts, d, depth, seen);
    } else {
      KeyThenValue(d.stack);
      ScanAt(fields.value, ts, Dec(d.pos + 1, Push(AtValue, d.stack.below)), depth + 1);
      ScanFieldsAt(fields.rest, ts, Dec(d.pos + 1 + Length(fields.value), d.stack), depth, seen + {fields.key});
      FieldsJoin(fields, ts, d, depth, seen, Dec(d.pos + FieldsLength(fields), AfterValue(d.stack.below)));
    }
  }

  lemma FieldsJoin(fields: Fields, ts: seq<Token>, d: Dec, depth: nat, seen: set<string>, end: Dec)
    requires fields.Field? && TokenAt(ts, d.pos, Text(fields.key)) && TopIs(d.stack, AtKey)
    requires Scan(ts, Dec(d.pos + 1, Push(AtValue, d.stack.below)), depth + 1)
             == Verdict(TreeOK(fields.value, depth + 1), Dec(d.pos + 1 + Length(fields.value), d.stack))
    requires ObjectBody(ts, Dec(d.pos + 1 + Length(fields.value), d.stack), depth, seen + {fields.key})
             == Verdict(FieldsOK(fields.rest, depth, seen + {fields.key}), end)
    ensures ObjectBody(ts, d, depth, seen) == Verdict(FieldsOK(fields, depth, seen), end)
  {
    ObjectGoesOn(ts, d, depth, seen);
  }

  /** MAIN: wherever the tokens of j stand, the scan accepts them exactly when no object in j
      repeats a key and no value lies below level 32, and then it consumes just them. */
  lemma ScanOfTree(j: Json, ts: seq<Token>, d: Dec, depth: nat)
    requires Follows(ts, d.pos, Tokens(j)) && ValueDue(d.stack)
    ensures Scan(ts, d, depth) == if NoRepeats(j) && depth + Height(j) <= MAX_DEPTH
                                  then Some(Dec(d.pos + |Tokens(j)|, AfterValue(d.stack))) else None
  {
    TreeAtIsFollows(ts, d.pos, j);
    TreeOKMeans(j, depth);
    ScanAt(j, ts, d, depth);
  }

  // ---------------------------------------------------------------- only values are accepted

  lemma {:induction false} ScanFinds(ts: seq<Token>, d: Dec, depth: nat) returns (j: Json)
    requires Scan(ts, d, depth).Some? && ValueDue(d.stack) && More(ts, d)
    ensures TreeAt(ts, d.pos, j) && Scan(ts, d, depth).value == Dec(d.pos + Length(j), AfterValue(d.stack))
    decreases |ts| - d.pos, 0
  {
    var t := ts[d.pos];
    if t == OpenObj {
      ScanObj(ts, d, depth);
      var fields := ObjectFinds(ts, Dec(d.pos + 1, Push(AtKey, d.stack)), depth, {});
      j := Obj(fields);
    } else if t == OpenArr {
      ScanArr(ts, d, depth);
      var items := ArrayFinds(ts, Dec(d.pos + 1, Push(InArray, d.stack)), depth);
      j := Arr(items);
    } else {
      ScanAtom(ts, d, depth);
      j := Atom(t);
    }
  }

  lemma {:induction false} ArrayFinds(ts: seq<Token>, d: Dec, depth: nat) returns (items: Items)
    requires ArrayBody(ts, d, depth).Some? && TopIs(d.stack, InArray)
    ensures ItemsAt(ts, d.pos, items)
    ensures ArrayBody(ts, d, depth).value == Dec(d.pos + ItemsLength(items), AfterValue(d.stack.below))
    decreases |ts| - d.pos, 1
  {
    if !More(ts, d) {
      items := NoItem;
    } else {
      ArrayGoesOn(ts, d, depth);
      var head := ScanFinds(ts, d, depth + 1);
      var tail := ArrayFinds(ts, Dec(d.pos + Length(head), d.stack), depth);
      items := Item(head, tail);
    }
  }

  lemma ValueFollowsKey(ts: seq<Token>, d: Dec, depth: nat)
    requires Scan(ts, d, depth).Some? && TopIs(d.stack, AtValue)
    ensures More(ts, d)
  {
  }

  lemma KeyIsText(ts: seq<Token>, d: Dec, depth: nat, seen: set<string>)
    requires ObjectBody(ts, d, depth, seen).Some? && TopIs(d.stack, AtKey)
    ensures More(ts, d) ==> ts[d.pos].Text?
    ensures !More(ts, d) ==> d.pos < |ts| && ts[d.pos] == CloseObj
  {
  }

  /** The value after a key, and where the scan goes on. */
  lemma {:induction false} KeyedValue(ts: seq<Token>, d: Dec, depth: nat, seen: set<string>) returns (value: Json)
    requires ObjectBody(ts, d, depth, seen).Some? && TopIs(d.stack, AtKey) && More(ts, d) && ts[d.pos].Text?
    ensures TreeAt(ts, d.pos + 1, value)
    ensures ObjectBody(ts, d, depth, seen) == ObjectBody(ts, Dec(d.pos + 1 + Length(value), d.stack), depth, seen + {ts[d.pos].s})
    decreases |ts| - d.pos, 0
  {
    ObjectGoesOn(ts, d, depth, seen);
    KeyThenValue(d.stack);
    var key := Dec(d.pos + 1, Push(AtValue, d.stack.below));
    ValueFollowsKey(ts, key, depth + 1);
    value := ScanFinds(ts, key, depth + 1);
  }

  lemma {:induction false} ObjectFinds(ts: seq<Token>, d: Dec, depth: nat, seen: set<string>) returns (fields: Fields)
    requires ObjectBody(ts, d, depth, seen).Some? && TopIs(d.stack, AtKey)
    ensures FieldsAt(ts, d.pos, fields)
    ensures ObjectBody(ts, d, depth, seen).value == Dec(d.pos + FieldsLength(fields), AfterValue(d.stack.below))
    decreases |ts| - d.pos, 1
  {
    KeyIsText(ts, d, depth, seen);
    if !More(ts, d) {
      fields := NoField;
      ObjectEnds(ts, d, depth, seen);
    } else {
      var value := KeyedValue(ts, d, depth, seen);
      var rest := ObjectFinds(ts, Dec(d.pos + 1 + Length(value), d.stack), depth, seen + {ts[d.pos].s});
      fields := Field(ts[d.pos].s, value, rest);
    }
  }

  /** What the scan consumes is always the token sequence of some JSON value. */
  lemma ScanFindsTree(ts: seq<Token>, d: Dec, depth: nat) returns (j: Json)
    requires Scan(ts, d, depth).Some? && ValueDue(d.stack) && More(ts, d)
    ensures Follows(ts, d.pos, Tokens(j)) && Scan(ts, d, depth).value == Dec(d.pos + |Tokens(j)|, AfterValue(d.stack))
  {
    j := ScanFinds(ts, d, depth);
    TreeAtIsFollows(ts, d.pos, j);
  }

  /** MAIN: the accepted documents are exactly the token sequences of single values without
      repeated keys and at most 32 levels deep. */
  lemma AcceptedDocuments(ts: seq<Token>)
    ensures Accepts(ts) <==> exists j :: ts == Tokens(j) && NoRepeats(j) && Height(j) <= MAX_DEPTH
  {
    var d := Dec(0, Bottom);
    if Accepts(ts) {
      var j := ScanFindsTree(ts, d, 0);
      assert ts[0..|ts|] == ts;
      ScanOfTree(j, ts, d, 0);
    }
    if j :| ts == Tokens(j) && NoRepeats(j) && Height(j) <= MAX_DEPTH {
      assert ts[0..|ts|] == ts;
      ScanOfTree(j, ts, d, 0);
    }
  }
}
