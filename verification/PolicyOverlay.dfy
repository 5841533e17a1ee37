/** The overlay language that edits a copy of the base routing policy: `set`,
    `insert_unique` and `insert_object_unique`. */
module PolicyOverlay {
  import opened Wrappers
  import opened JsonPointer

  datatype Json = Object(members: map<string, Json>) | List(items: seq<Json>) | Scalar(text: string)

  datatype Anchor = AtEnd | Before(anchor: Json) | After(anchor: Json)

  datatype Operation =
    | SetValue(path: Path, value: Json)
    | InsertUnique(path: Path, key: string, equals: Json, memberPath: Path, value: Json, place: Anchor)
    | InsertObject(path: Path, uniqueKey: string, value: Json, place: Anchor)

  /** One step into a document. */
  datatype Step = Member(key: string) | Item(index: nat)

  // ---------------------------------------------------------------------
  // Pointers
  // ---------------------------------------------------------------------

  /** A tilde is only ever followed by 0 or 1. */
  predicate EscapesOnly(raw: string) {
    forall i :: 0 <= i < |raw| && raw[i] == '~' ==> i + 1 < |raw| && (raw[i + 1] == '0' || raw[i + 1] == '1')
  }

  /** The tokens of a pointer; empty segments and stray tildes are refused. */
  function Tokens(pointer: string): (r: Option<Path>)
    ensures r.Some? ==> r.value != []
  {
    if pointer == "" || pointer[0] != '/' then None
    else
      var raw := Split(pointer[1..]);
      if exists i :: 0 <= i < |raw| && (raw[i] == "" || !EscapesOnly(raw[i])) then None else Parts(pointer)
  }

  lemma {:induction false} SlashesLeaveEscapes(t: string)
    requires TildesMarked(t)
    ensures EscapesOnly(Replace(t, "/", "~1")) && (t != "" ==> Replace(t, "/", "~1") != "")
    ensures t != "" && t[0] == '0' ==> Replace(t, "/", "~1")[0] == '0'
  {
    if t != "" {
      var rest := Replace(t[1..], "/", "~1");
      var escaped := Replace(t, "/", "~1");
      assert TildesMarked(t[1..]) by {
        forall i | 0 <= i < |t[1..]| && t[1..][i] == '~' ensures i + 1 < |t[1..]| && t[1..][i + 1] == '0' {
          assert t[i + 1] == '~';
        }
      }
      SlashesLeaveEscapes(t[1..]);
      assert t[..1] == [t[0]];
      var head := if t[0] == '/' then "~1" else [t[0]];
      assert escaped == head + rest;
      assert t[0] == '~' ==> t[1..][0] == '0';
      forall i | 0 <= i < |escaped| && escaped[i] == '~'
        ensures i + 1 < |escaped| && (escaped[i + 1] == '0' || escaped[i + 1] == '1')
      {
        if i >= |head| { assert escaped[i] == rest[i - |head|]; }
      }
    }
  }

  /** Every path of non-empty tokens can be written as a pointer and is read back. */
  lemma TokensRoundTrip(path: Path)
    requires path != [] && forall i :: 0 <= i < |path| ==> path[i] != ""
    ensures Tokens(Pointer(path)) == Some(path)
  {
    forall i | 0 <= i < |path|
      ensures '/' !in Escaped(path)[i] && Escaped(path)[i] != "" && EscapesOnly(Escaped(path)[i])
    {
      EscapeRoundTrip(path[i]);
      TildesRoundTrip(path[i]);
      assert Replace(path[i], "~", "~0") != "" by { assert path[i][..1] == [path[i][0]]; }
      SlashesLeaveEscapes(Replace(path[i], "~", "~0"));
    }
    SplitJoin(Escaped(path));
    assert Pointer(path)[1..] == Join(Escaped(path));
    PointerRoundTrip(path);
  }

  // ---------------------------------------------------------------------
  // Reading and replacing a part of a document
  // ---------------------------------------------------------------------

  function At(root: Json, steps: seq<Step>): Option<Json>
    decreases steps
  {
    if steps == [] then Some(root)
    else
      match (steps[0], root)
      case (Member(key), Object(members)) => if key in members then At(members[key], steps[1..]) else None
      case (Item(i), List(items)) => if i < |items| then At(items[i], steps[1..]) else None
      case _ => None
  }

  function Update(root: Json, steps: seq<Step>, value: Json): Json
    requires At(root, steps).Some?
    decreases steps
  {
    if steps == [] then value
    else
      match (steps[0], root)
      case (Member(key), Object(members)) => Object(members[key := Update(members[key], steps[1..], value)])
      case (Item(i), List(items)) => List(items[i := Update(items[i], steps[1..], value)])
      case _ => root
  }

  function Members(path: Path): (r: seq<Step>)
    ensures |r| == |path|
  {
    seq(|path|, i requires 0 <= i < |path| => Member(path[i]))
  }

  /** Neither leads to or into the other. */
  predicate Diverge(a: seq<Step>, b: seq<Step>) {
    a != [] && b != [] && (a[0] != b[0] || Diverge(a[1..], b[1..]))
  }

  lemma {:induction false} UpdatedThere(root: Json, steps: seq<Step>, value: Json)
    requires At(root, steps).Some?
    ensures At(Update(root, steps, value), steps) == Some(value)
    decreases steps
  {
    if steps != [] {
      match (steps[0], root)
      case (Member(key), Object(members)) => UpdatedThere(members[key], steps[1..], value);
      case (Item(i), List(items)) => UpdatedThere(items[i], steps[1..], value);
      case _ =>
    }
  }

  /** Nothing off the addressed path changes. */
  lemma {:induction false} NothingElseChanges(root: Json, steps: seq<Step>, value: Json, other: seq<Step>)
    requires At(root, steps).Some? && Diverge(steps, other)
    ensures At(Update(root, steps, value), other) == At(root, other)
    decreases steps
  {
    match (steps[0], root)
    case (Member(key), Object(members)) =>
      if steps[0] == other[0] { NothingElseChanges(members[key], steps[1..], value, other[1..]); }
    case (Item(i), List(items)) =>
      if steps[0] == other[0] { NothingElseChanges(items[i], steps[1..], value, other[1..]); }
    case _ =>
  }

  lemma {:induction false} UpdateTwice(root: Json, steps: seq<Step>, first: Json, second: Json)
    requires At(root, steps).Some?
    ensures At(Update(root, steps, first), steps).Some?
    ensures Update(Update(root, steps, first), steps, second) == Update(root, steps, second)
    decreases steps
  {
    UpdatedThere(root, steps, first);
    if steps != [] {
      match (steps[0], root)
      case (Member(key), Object(members)) =>
        UpdateTwice(members[key], steps[1..], first, second);
        assert members[key := Update(members[key], steps[1..], first)][key := Update(members[key], steps[1..], second)]
            == members[key := Update(members[key], steps[1..], second)];
      case (Item(i), List(items)) =>
        UpdateTwice(items[i], steps[1..], first, second);
        assert items[i := Update(items[i], steps[1..], first)][i := Update(items[i], steps[1..], second)]
            == items[i := Update(items[i], steps[1..], second)];
      case _ =>
    }
  }

  lemma {:induction false} UpdateBySame(root: Json, steps: seq<Step>)
    requires At(root, steps).Some?
    ensures Update(root, steps, At(root, steps).value) == root
    decreases steps
  {
    if steps != [] {
      match (steps[0], root)
      case (Member(key), Object(members)) =>
        UpdateBySame(members[key], steps[1..]);
        assert members[key := members[key]] == members;
      case (Item(i), List(items)) =>
        UpdateBySame(items[i], steps[1..]);
        assert items[i := items[i]] == items;
      case _ =>
    }
  }

  lemma SiblingUpdatesCommute(root: Json, a: seq<Step>, x: Json, b: seq<Step>, y: Json)
    requires At(root, a).Some? && At(root, b).Some? && a != [] && b != [] && a[0] != b[0]
    ensures At(Update(root, a, x), b).Some? && At(Update(root, b, y), a).Some?
    ensures Update(Update(root, a, x), b, y) == Update(Update(root, b, y), a, x)
  {
    match root
    case Object(members) =>
      var k, l := a[0].key, b[0].key;
      var p, q := Update(members[k], a[1..], x), Update(members[l], b[1..], y);
      assert members[k := p][l := q] == members[l := q][k := p];
    case List(items) =>
      var k, l := a[0].index, b[0].index;
      var p, q := Update(items[k], a[1..], x), Update(items[l], b[1..], y);
      assert items[k := p][l := q] == items[l := q][k := p];
    case Scalar(_) =>
  }

  lemma {:induction false} DivergingUpdatesCommute(root: Json, a: seq<Step>, x: Json, b: seq<Step>, y: Json)
    requires At(root, a).Some? && At(root, b).Some? && Diverge(a, b)
    ensures At(Update(root, a, x), b).Some? && At(Update(root, b, y), a).Some?
    ensures Update(Update(root, a, x), b, y) == Update(Update(root, b, y), a, x)
    decreases a
  {
    if a[0] != b[0] {
      SiblingUpdatesCommute(root, a, x, b, y);
    } else {
      match root
      case Object(members) =>
        var k := a[0].key;
        DivergingUpdatesCommute(members[k], a[1..], x, b[1..], y);
        var p, q := Update(members[k], a[1..], x), Update(members[k], b[1..], y);
        assert members[k := p][k := Update(p, b[1..], y)] == members[k := q][k := Update(q, a[1..], x)];
      case List(items) =>
        var k := a[0].index;
        DivergingUpdatesCommute(items[k], a[1..], x, b[1..], y);
        var p, q := Update(items[k], a[1..], x), Update(items[k], b[1..], y);
        assert items[k := p][k := Update(p, b[1..], y)] == items[k := q][k := Update(q, a[1..], x)];
      case Scalar(_) =>
    }
  }

  lemma {:induction false} DivergenceIsMutual(a: seq<Step>, b: seq<Step>)
    requires Diverge(a, b)
    ensures Diverge(b, a)
  {
    if a[0] == b[0] { DivergenceIsMutual(a[1..], b[1..]); }
  }

  // ---------------------------------------------------------------------
  // The operations
  // ---------------------------------------------------------------------

  ghost predicate IsOnly<T>(values: seq<T>, value: T, i: nat) {
    i < |values| && values[i] == value && forall j :: 0 <= j < |values| && values[j] == value ==> j == i
  }

  /** The only place a value occurs at; `None` unless it occurs exactly once. */
  ghost function OnlyIndex<T(!new)>(values: seq<T>, value: T): (r: Option<nat>)
    ensures r.Some? ==> IsOnly(values, value, r.value)
    ensures r.None? ==> forall i :: !IsOnly(values, value, i)
  {
    if exists i :: IsOnly(values, value, i) then
      var i :| IsOnly(values, value, i);
      Some(i)
    else None
  }

  method FindOnly<T(==, !new)>(values: seq<T>, value: T) returns (r: Option<nat>)
    ensures r == OnlyIndex(values, value)
  {
    var positions: seq<nat> := [];
    for i := 0 to |values|
      invariant forall p :: p in positions <==> 0 <= p < i && values[p] == value
      invariant forall a, b :: 0 <= a < b < |positions| ==> positions[a] < positions[b]
      invariant forall a :: 0 <= a < |positions| ==> positions[a] in positions
    {
      if values[i] == value { positions := positions + [i]; }
    }
    if |positions| == 1 {
      assert positions[0] in positions;
      assert forall p :: p in positions ==> p == positions[0];
      assert IsOnly(values, value, positions[0]);
      return Some(positions[0]);
    }
    if |positions| > 1 { assert positions[0] in positions && positions[1] in positions; }
    return None;
  }

  ghost function PlaceIndex(values: seq<Json>, place: Anchor): (r: Option<nat>)
    ensures r.Some? ==> r.value <= |values|
  {
    match place
    case AtEnd => Some(|values|)
    case Before(anchor) => OnlyIndex(values, anchor)
    case After(anchor) =>
      match OnlyIndex(values, anchor) case Some(i) => Some(i + 1) case None => None
  }

  method FindPlace(values: seq<Json>, place: Anchor) returns (r: Option<nat>)
    ensures r == PlaceIndex(values, place)
  {
    match place
    case AtEnd => r := Some(|values|);
    case Before(anchor) => r := FindOnly(values, anchor);
    case After(anchor) =>
      r := FindOnly(values, anchor);
      if r.Some? { r := Some(r.value + 1); }
  }

  function Inserted<T>(values: seq<T>, i: nat, value: T): seq<T>
    requires i <= |values|
  {
    values[..i] + [value] + values[i..]
  }

  function Removed<T>(values: seq<T>, i: nat): seq<T>
    requires i < |values|
  {
    values[..i] + values[i + 1..]
  }

  function MemberOf(item: Json, key: string): Option<Json> {
    if item.Object? then Get(item.members, key) else None
  }

  function KeyValues(items: seq<Json>, key: string): (r: seq<Option<Json>>)
    ensures |r| == |items| && forall i :: 0 <= i < |r| ==> r[i] == MemberOf(items[i], key)
  {
    seq(|items|, i requires 0 <= i < |items| => MemberOf(items[i], key))
  }

  predicate AllObjects(items: seq<Json>) {
    forall i :: 0 <= i < |items| ==> items[i].Object?
  }

  /** Every item is an object with the unique key. */
  predicate AllKeyed(items: seq<Json>, key: string) {
    forall i :: 0 <= i < |items| ==> MemberOf(items[i], key).Some?
  }

  function Keys(items: seq<Json>, key: string): (r: seq<Json>)
    requires AllKeyed(items, key)
    ensures |r| == |items| && forall i :: 0 <= i < |r| ==> Some(r[i]) == MemberOf(items[i], key)
  {
    seq(|items|, i requires 0 <= i < |items| => MemberOf(items[i], key).value)
  }

  predicate Distinct<T(==)>(values: seq<T>) {
    forall i, j :: 0 <= i < j < |values| ==> values[i] != values[j]
  }

  /** What a validated operation looks like. */
  predicate Shaped(op: Operation) {
    && op.path != []
    && match op
       case SetValue(_, _) => true
       case InsertUnique(_, key, equals, memberPath, _, _) => key != "" && equals.Scalar? && memberPath != []
       case InsertObject(_, uniqueKey, value, _) => uniqueKey != "" && MemberOf(value, uniqueKey).Some?
  }

  /** The list an insertion goes to, as steps and as values. */
  ghost function TargetList(root: Json, op: Operation): Option<(seq<Step>, seq<Json>)> {
    match op
    case SetValue(_, _) => None
    case InsertObject(path, uniqueKey, _, _) =>
      (match At(root, Members(path))
       case Some(List(items)) => if AllKeyed(items, uniqueKey) then Some((Members(path), items)) else None
       case _ => None)
    case InsertUnique(path, key, equals, memberPath, _, _) =>
      match At(root, Members(path))
      case Some(List(items)) =>
        (if !AllObjects(items) then None
         else
           match OnlyIndex(KeyValues(items, key), Some(equals))
           case None => None
           case Some(i) =>
             match At(items[i], Members(memberPath))
             case Some(List(values)) => Some((Members(path) + [Item(i)] + Members(memberPath), values))
             case _ => None)
      case _ => None
  }

  /** Where in its list an insertion puts its value; `None` when it is refused. */
  ghost function InsertionIndex(values: seq<Json>, op: Operation): (r: Option<nat>)
    requires op.InsertObject? ==> AllKeyed(values, op.uniqueKey) && MemberOf(op.value, op.uniqueKey).Some?
    ensures r.Some? ==> r.value <= |values|
  {
    match op
    case SetValue(_, _) => None
    case InsertUnique(_, _, _, _, value, place) => if value in values then None else PlaceIndex(values, place)
    case InsertObject(_, uniqueKey, value, place) =>
      var keys := Keys(values, uniqueKey);
      if !Distinct(keys) || MemberOf(value, uniqueKey).value in keys then None else PlaceIndex(keys, place)
  }

  /** One operation on a document; `None` when it does not apply. */
  ghost function Apply(root: Json, op: Operation): Option<Json>
    requires Shaped(op)
  {
    if op.SetValue? then
      match At(root, Members(op.path))
      case Some(present) => if present == op.value then None else Some(Update(root, Members(op.path), op.value))
      case None => None
    else
      match TargetList(root, op)
      case None => None
      case Some((steps, values)) =>
        match InsertionIndex(values, op)
        case None => None
        case Some(i) => TargetIsList(root, op); Some(Update(root, steps, List(Inserted(values, i, op.value))))
  }

  // ---------------------------------------------------------------------
  // What an operation means
  // ---------------------------------------------------------------------

  /** `after` is `before` with the value at the end, or right before or right after
      the one item whose label is the anchor. */
  ghost predicate PlacedIn(before: seq<Json>, after: seq<Json>, labels: seq<Json>, value: Json, place: Anchor)
    requires |labels| == |before|
  {
    match place
    case AtEnd => after == before + [value]
    case Before(anchor) => exists i: nat :: IsOnly(labels, anchor, i) && after == before[..i] + [value] + before[i..]
    case After(anchor) =>
      exists i: nat :: IsOnly(labels, anchor, i) && after == before[..i + 1] + [value] + before[i + 1..]
  }

  /** A value placed in a list inside the only object of a collection that has the
      selecting member, when the list does not hold it yet. */
  ghost predicate ValuePlaced(
    before: Json, after: Json, op: Operation, items: seq<Json>, n: nat, values: seq<Json>, longer: seq<Json>)
    requires op.InsertUnique?
  {
    var steps := Members(op.path) + [Item(n)] + Members(op.memberPath);
    && At(before, Members(op.path)) == Some(List(items)) && AllObjects(items)
    && IsOnly(KeyValues(items, op.key), Some(op.equals), n)
    && At(before, steps) == Some(List(values)) && op.value !in values
    && PlacedIn(values, longer, values, op.value, op.place)
    && after == Update(before, steps, List(longer))
  }

  /** An object placed in a list of objects with distinct keys, when its own is not
      among them; the anchor is a key. */
  ghost predicate ObjectPlaced(before: Json, after: Json, op: Operation, items: seq<Json>, longer: seq<Json>)
    requires op.InsertObject?
  {
    && At(before, Members(op.path)) == Some(List(items)) && AllKeyed(items, op.uniqueKey)
    && var keys := Keys(items, op.uniqueKey);
       && Distinct(keys) && MemberOf(op.value, op.uniqueKey) !in KeyValues(items, op.uniqueKey)
       && PlacedIn(items, longer, keys, op.value, op.place)
       && after == Update(before, Members(op.path), List(longer))
  }

  /** What an accepted operation makes of a document. */
  ghost predicate Edits(before: Json, after: Json, op: Operation) {
    match op
    case SetValue(path, value) =>
      At(before, Members(path)).Some? && At(before, Members(path)) != Some(value)
      && after == Update(before, Members(path), value)
    case InsertUnique(_, _, _, _, _, _) =>
      exists items, n, values, longer :: ValuePlaced(before, after, op, items, n, values, longer)
    case InsertObject(_, _, _, _) => exists items, longer :: ObjectPlaced(before, after, op, items, longer)
  }

  lemma PlaceIsAnchored(values: seq<Json>, labels: seq<Json>, value: Json, place: Anchor, longer: seq<Json>)
    requires |labels| == |values|
    ensures PlacedIn(values, longer, labels, value, place) <==>
              PlaceIndex(labels, place).Some? && longer == Inserted(values, PlaceIndex(labels, place).value, value)
  {
    match place
    case AtEnd => assert values[..|values|] == values && values[|values|..] == [];
    case Before(anchor) =>
      if PlacedIn(values, longer, labels, value, place) {
        var i: nat :| IsOnly(labels, anchor, i) && longer == values[..i] + [value] + values[i..];
        OnlyIs(labels, anchor, i);
      }
    case After(anchor) =>
      if PlacedIn(values, longer, labels, value, place) {
        var i: nat :| IsOnly(labels, anchor, i) && longer == values[..i + 1] + [value] + values[i + 1..];
        OnlyIs(labels, anchor, i);
      }
  }

  /** An operation is accepted exactly when there is such a document, and makes it. */
  lemma ApplyMeans(root: Json, op: Operation, after: Json)
    requires Shaped(op)
    ensures Apply(root, op) == Some(after) <==> Edits(root, after, op)
  {
    hide PlaceIndex, PlacedIn, Inserted, Update, At;
    match op
    case SetValue(_, _) =>
    case InsertObject(_, _, _, _) => ObjectApplied(root, op, after);
    case InsertUnique(_, _, _, _, _, _) => ValueApplied(root, op, after);
  }

  lemma ObjectApplied(root: Json, op: Operation, after: Json)
    requires Shaped(op) && op.InsertObject?
    ensures Apply(root, op) == Some(after) <==> exists items, longer :: ObjectPlaced(root, after, op, items, longer)
  {
    hide PlaceIndex, PlacedIn, Inserted, Update, At, Keys, KeyValues;
    if Apply(root, op) == Some(after) {
      var items := At(root, Members(op.path)).value.items;
      KeysAreValues(items, op.uniqueKey, op.value);
      var longer := Inserted(items, InsertionIndex(items, op).value, op.value);
      PlaceIsAnchored(items, Keys(items, op.uniqueKey), op.value, op.place, longer);
      assert ObjectPlaced(root, after, op, items, longer);
    }
    if items, longer :| ObjectPlaced(root, after, op, items, longer) {
      KeysAreValues(items, op.uniqueKey, op.value);
      PlaceIsAnchored(items, Keys(items, op.uniqueKey), op.value, op.place, longer);
      assert InsertionIndex(items, op).Some?;
    }
  }

  lemma KeysAreValues(items: seq<Json>, key: string, value: Json)
    requires AllKeyed(items, key) && MemberOf(value, key).Some?
    ensures MemberOf(value, key).value in Keys(items, key) <==> MemberOf(value, key) in KeyValues(items, key)
  {
    var keys, values := Keys(items, key), KeyValues(items, key);
    assert forall i :: 0 <= i < |items| ==> values[i] == Some(keys[i]);
    if MemberOf(value, key) in values {
      var i :| 0 <= i < |values| && values[i] == MemberOf(value, key);
      assert keys[i] == MemberOf(value, key).value;
    }
    if MemberOf(value, key).value in keys {
      var i :| 0 <= i < |keys| && keys[i] == MemberOf(value, key).value;
      assert values[i] == MemberOf(value, key);
    }
  }

  lemma ValueApplied(root: Json, op: Operation, after: Json)
    requires Shaped(op) && op.InsertUnique?
    ensures Apply(root, op) == Some(after) <==>
              exists items, n, values, longer :: ValuePlaced(root, after, op, items, n, values, longer)
  {
    hide PlaceIndex, PlacedIn, Inserted, Update, KeyValues;
    if Apply(root, op) == Some(after) {
      TargetIsList(root, op);
      var items := At(root, Members(op.path)).value.items;
      var n := OnlyIndex(KeyValues(items, op.key), Some(op.equals)).value;
      var (steps, values) := TargetList(root, op).value;
      var longer := Inserted(values, InsertionIndex(values, op).value, op.value);
      PlaceIsAnchored(values, values, op.value, op.place, longer);
      assert ValuePlaced(root, after, op, items, n, values, longer);
    }
    if items, n, values, longer :| ValuePlaced(root, after, op, items, n, values, longer) {
      OnlyIs(KeyValues(items, op.key), Some(op.equals), n);
      ListBelow(root, op, items, n);
      PlaceIsAnchored(values, values, op.value, op.place, longer);
      assert TargetList(root, op) == Some((Members(op.path) + [Item(n)] + Members(op.memberPath), values));
    }
  }

  lemma ListBelow(root: Json, op: Operation, items: seq<Json>, n: nat)
    requires op.InsertUnique? && At(root, Members(op.path)) == Some(List(items)) && n < |items|
    ensures At(root, Members(op.path) + [Item(n)] + Members(op.memberPath)) == At(items[n], Members(op.memberPath))
  {
    var below := [Item(n)] + Members(op.memberPath);
    AtJoined(root, Members(op.path), below);
    assert below[1..] == Members(op.memberPath);
    assert Members(op.path) + [Item(n)] + Members(op.memberPath) == Members(op.path) + below;
  }

  lemma {:induction false} AtJoined(root: Json, a: seq<Step>, b: seq<Step>)
    ensures At(root, a + b) == match At(root, a) case Some(part) => At(part, b) case None => None
    decreases a
  {
    if a == [] {
      assert a + b == b;
    } else {
      assert (a + b)[0] == a[0] && (a + b)[1..] == a[1..] + b;
      match (a[0], root)
      case (Member(key), Object(members)) => if key in members { AtJoined(members[key], a[1..], b); }
      case (Item(i), List(items)) => if i < |items| { AtJoined(items[i], a[1..], b); }
      case _ =>
    }
  }

  lemma TargetIsList(root: Json, op: Operation)
    ensures (TargetList(root, op).Some? ==>
              At(root, TargetList(root, op).value.0) == Some(List(TargetList(root, op).value.1)))
  {
    if op.InsertUnique? && TargetList(root, op).Some? {
      var items := At(root, Members(op.path)).value.items;
      var i := OnlyIndex(KeyValues(items, op.key), Some(op.equals)).value;
      AtJoined(root, Members(op.path), [Item(i)] + Members(op.memberPath));
      assert ([Item(i)] + Members(op.memberPath))[1..] == Members(op.memberPath);
      assert Members(op.path) + [Item(i)] + Members(op.memberPath) ==
          Members(op.path) + ([Item(i)] + Members(op.memberPath));
    }
  }

  ghost function ApplyAll(root: Json, ops: seq<Operation>): Option<Json>
    requires forall i :: 0 <= i < |ops| ==> Shaped(ops[i])
  {
    if ops == [] then Some(root)
    else
      match ApplyAll(root, ops[..|ops| - 1])
      case Some(result) => Apply(result, ops[|ops| - 1])
      case None => None
  }

  // ---------------------------------------------------------------------
  // The edits in place
  // ---------------------------------------------------------------------

  /** Walks object members token by token. */
  method Resolve(root: Json, path: Path) returns (r: Option<Json>)
    ensures r == At(root, Members(path))
  {
    var current := root;
    for i := 0 to |path|
      invariant At(root, Members(path)) == At(current, Members(path[i..]))
    {
      assert Members(path[i..])[1..] == Members(path[i + 1..]);
      if !current.Object? || path[i] !in current.members { return None; }
      current := current.members[path[i]];
    }
    return Some(current);
  }

  /** The copy of the base policy that the operations edit. */
  class Policy {
    var document: Json

    constructor (base: Json)
      ensures document == base
    {
      document := base;
    }

    /** Sets an existing member to a different value. */
    method SetExisting(op: Operation) returns (ok: bool)
      requires op.SetValue? && Shaped(op)
      modifies this
      ensures ok <==> Apply(old(document), op).Some?
      ensures document == if ok then Apply(old(document), op).value else old(document)
      ensures if ok then Edits(old(document), document, op) else forall after :: !Edits(old(document), after, op)
    {
      forall after ensures Apply(document, op) == Some(after) <==> Edits(document, after, op) {
        ApplyMeans(document, op, after);
      }
      var present := Resolve(document, op.path);
      if present.None? || present.value == op.value { return false; }
      document := Update(document, Members(op.path), op.value);
      return true;
    }

    /** Inserts a value into a list inside the one selected object. */
    method InsertValue(op: Operation) returns (ok: bool)
      requires op.InsertUnique? && Shaped(op)
      modifies this
      ensures ok <==> Apply(old(document), op).Some?
      ensures document == if ok then Apply(old(document), op).value else old(document)
      ensures if ok then Edits(old(document), document, op) else forall after :: !Edits(old(document), after, op)
    {
      forall after ensures Apply(document, op) == Some(after) <==> Edits(document, after, op) {
        ApplyMeans(document, op, after);
      }
      var collection := Resolve(document, op.path);
      if collection.None? || !collection.value.List? || !AllObjects(collection.value.items) { return false; }
      var items := collection.value.items;
      var selected := FindOnly(KeyValues(items, op.key), Some(op.equals));
      if selected.None? { return false; }
      var target := Resolve(items[selected.value], op.memberPath);
      if target.None? || !target.value.List? || op.value in target.value.items { return false; }
      var place := FindPlace(target.value.items, op.place);
      if place.None? { return false; }
      TargetIsList(document, op);
      document := Update(document, Members(op.path) + [Item(selected.value)] + Members(op.memberPath),
        List(Inserted(target.value.items, place.value, op.value)));
      return true;
    }

    /** Inserts an object into a list of objects with distinct keys. */
    method InsertKeyed(op: Operation) returns (ok: bool)
      requires op.InsertObject? && Shaped(op)
      modifies this
      ensures ok <==> Apply(old(document), op).Some?
      ensures document == if ok then Apply(old(document), op).value else old(document)
      ensures if ok then Edits(old(document), document, op) else forall after :: !Edits(old(document), after, op)
    {
      forall after ensures Apply(document, op) == Some(after) <==> Edits(document, after, op) {
        ApplyMeans(document, op, after);
      }
      var collection := Resolve(document, op.path);
      if collection.None? || !collection.value.List? || !AllKeyed(collection.value.items, op.uniqueKey) {
        return false;
      }
      var items := collection.value.items;
      var keys := Keys(items, op.uniqueKey);
      if !Distinct(keys) || MemberOf(op.value, op.uniqueKey).value in keys { return false; }
      var place := FindPlace(keys, op.place);
      if place.None? { return false; }
      document := Update(document, Members(op.path), List(Inserted(items, place.value, op.value)));
      return true;
    }
  }

  /** What makes two operations the same edit. */
  datatype Signature =
    | OfSet(path: Path)
    | OfUnique(path: Path, key: string, equals: Json, memberPath: Path, value: Json)
    | OfObject(path: Path, uniqueKey: string, keyValue: Option<Json>)

  function SignatureOf(op: Operation): Signature {
    match op
    case SetValue(path, _) => OfSet(path)
    case InsertUnique(path, key, equals, memberPath, value, _) => OfUnique(path, key, equals, memberPath, value)
    case InsertObject(path, uniqueKey, value, _) => OfObject(path, uniqueKey, MemberOf(value, uniqueKey))
  }

  /** Two settings of one member, two insertions of one value by one selection, or two
      insertions of objects with one key. */
  predicate SameEdit(a: Operation, b: Operation) {
    match (a, b)
    case (SetValue(p, _), SetValue(q, _)) => p == q
    case (InsertUnique(p, k, x, m, v, _), InsertUnique(q, l, y, n, w, _)) => p == q && k == l && x == y && m == n
        && v == w
    case (InsertObject(p, k, v, _), InsertObject(q, l, w, _)) => p == q && k == l && MemberOf(v, k) == MemberOf(w, l)
    case _ => false
  }

  lemma SignaturesTell(a: Operation, b: Operation)
    ensures SignatureOf(a) == SignatureOf(b) <==> SameEdit(a, b)
  {
  }

  predicate ValidOverlay(ops: seq<Operation>) {
    && ops != []
    && (forall i :: 0 <= i < |ops| ==> Shaped(ops[i]))
    && (forall i, j :: 0 <= i < j < |ops| ==> SignatureOf(ops[i]) != SignatureOf(ops[j]))
  }

  method ValidateOverlay(ops: seq<Operation>) returns (ok: bool)
    ensures ok <==> ValidOverlay(ops)
    ensures ok <==> ops != [] && (forall i :: 0 <= i < |ops| ==> Shaped(ops[i]))
                    && forall i, j :: 0 <= i < j < |ops| ==> !SameEdit(ops[i], ops[j])
  {
    hide SameEdit;
    forall i, j | 0 <= i < j < |ops| ensures SignatureOf(ops[i]) == SignatureOf(ops[j]) <==> SameEdit(ops[i], ops[j]) {
      SignaturesTell(ops[i], ops[j]);
    }
    if ops == [] { return false; }
    var seen: set<Signature> := {};
    for i := 0 to |ops|
      invariant forall k :: 0 <= k < i ==> Shaped(ops[k]) && SignatureOf(ops[k]) in seen
      invariant forall s :: s in seen ==> exists k :: 0 <= k < i && SignatureOf(ops[k]) == s
      invariant forall j, k :: 0 <= j < k < i ==> SignatureOf(ops[j]) != SignatureOf(ops[k])
    {
      if !Shaped(ops[i]) || SignatureOf(ops[i]) in seen { return false; }
      seen := seen + {SignatureOf(ops[i])};
    }
    return true;
  }

  /** What an accepted list of operations makes of a document. */
  ghost predicate EditsAll(base: Json, result: Json, ops: seq<Operation>)
    decreases |ops|, 1
  {
    if ops == [] then result == base else exists middle :: EditsLast(base, middle, result, ops)
  }

  ghost predicate EditsLast(base: Json, middle: Json, result: Json, ops: seq<Operation>)
    requires ops != []
    decreases |ops|, 0
  {
    EditsAll(base, middle, ops[..|ops| - 1]) && Edits(middle, result, ops[|ops| - 1])
  }

  lemma SomeMiddle(base: Json, result: Json, ops: seq<Operation>)
    requires ops != [] && EditsAll(base, result, ops)
    ensures exists middle :: EditsLast(base, middle, result, ops)
  {
    hide Edits, EditsLast;
  }

  lemma {:induction false} ApplyAllMeans(base: Json, ops: seq<Operation>, result: Json)
    requires forall i :: 0 <= i < |ops| ==> Shaped(ops[i])
    ensures ApplyAll(base, ops) == Some(result) <==> EditsAll(base, result, ops)
    decreases |ops|
  {
    hide Apply, Edits, Shaped;
    if ops != [] {
      var init, last := ops[..|ops| - 1], ops[|ops| - 1];
      if ApplyAll(base, ops) == Some(result) {
        var middle := ApplyAll(base, init).value;
        ApplyAllMeans(base, init, middle);
        ApplyMeans(middle, last, result);
        assert EditsLast(base, middle, result, ops);
      }
      if EditsAll(base, result, ops) {
        SomeMiddle(base, result, ops);
        var middle :| EditsLast(base, middle, result, ops);
        ApplyAllMeans(base, init, middle);
        ApplyMeans(middle, last, result);
      }
    }
  }

  /** Validates an overlay and applies its operations in order to a copy. */
  method Materialize(base: Json, ops: seq<Operation>) returns (r: Option<Json>)
    ensures r.Some? <==> ValidOverlay(ops) && ApplyAll(base, ops).Some?
    ensures r.Some? ==> r == ApplyAll(base, ops) && EditsAll(base, r.value, ops)
    ensures r.None? ==> !ValidOverlay(ops) || forall result :: !EditsAll(base, result, ops)
  {
    hide Apply, Shaped, Edits, EditsAll;
    if ValidOverlay(ops) {
      forall result ensures ApplyAll(base, ops) == Some(result) <==> EditsAll(base, result, ops) {
        ApplyAllMeans(base, ops, result);
      }
    }
    var valid := ValidateOverlay(ops);
    if !valid { return None; }
    var policy := new Policy(base);
    for i := 0 to |ops|
      invariant ApplyAll(base, ops[..i]) == Some(policy.document)
    {
      assert ops[..i + 1][..i] == ops[..i];
      var ok;
      match ops[i] {
        case SetValue(_, _) => ok := policy.SetExisting(ops[i]);
        case InsertUnique(_, _, _, _, _, _) => ok := policy.InsertValue(ops[i]);
        case InsertObject(_, _, _, _) => ok := policy.InsertKeyed(ops[i]);
      }
      if !ok {
        RefusalStays(base, ops, i + 1);
        return None;
      }
    }
    assert ops[..|ops|] == ops;
    return Some(policy.document);
  }

  lemma {:induction false} RefusalStays(base: Json, ops: seq<Operation>, i: nat)
    requires forall k :: 0 <= k < |ops| ==> Shaped(ops[k])
    requires i <= |ops| && ApplyAll(base, ops[..i]).None?
    ensures ApplyAll(base, ops).None?
    decreases |ops|
  {
    if i < |ops| {
      assert ops[..|ops| - 1][..i] == ops[..i];
      RefusalStays(base, ops[..|ops| - 1], i);
    } else {
      assert ops[..i] == ops;
    }
  }

  // ---------------------------------------------------------------------
  // Independent settings
  // ---------------------------------------------------------------------

  predicate PrefixFree(a: Path, b: Path) {
    !(a <= b) && !(b <= a)
  }

  lemma {:induction false} PrefixFreeDiverge(a: Path, b: Path)
    requires PrefixFree(a, b)
    ensures Diverge(Members(a), Members(b))
  {
    if a[0] == b[0] {
      assert a == [a[0]] + a[1..] && b == [b[0]] + b[1..];
      PrefixFreeDiverge(a[1..], b[1..]);
      assert Members(a)[1..] == Members(a[1..]) && Members(b)[1..] == Members(b[1..]);
    }
  }

  ghost function Then(first: Option<Json>, op: Operation): Option<Json>
    requires Shaped(op)
  {
    match first case Some(root) => Apply(root, op) case None => None
  }

  /** Settings on pointers that are not prefixes of each other commute, and one
      is refused in either order if it is in one. */
  lemma SettingsCommute(root: Json, a: Operation, b: Operation)
    requires a.SetValue? && b.SetValue? && Shaped(a) && Shaped(b) && PrefixFree(a.path, b.path)
    ensures Then(Apply(root, a), b) == Then(Apply(root, b), a)
  {
    var x, y := Members(a.path), Members(b.path);
    PrefixFreeDiverge(a.path, b.path);
    DivergenceIsMutual(x, y);
    if At(root, x).Some? { NothingElseChanges(root, x, a.value, y); }
    if At(root, y).Some? { NothingElseChanges(root, y, b.value, x); }
    if At(root, x).Some? && At(root, y).Some? { DivergingUpdatesCommute(root, x, a.value, y, b.value); }
  }

  // ---------------------------------------------------------------------
  // Undoing insertions
  // ---------------------------------------------------------------------

  /** Takes the inserted value out of its list again. */
  ghost function Unapply(root: Json, op: Operation): Option<Json>
    requires Shaped(op)
  {
    match TargetList(root, op)
    case None => None
    case Some((steps, values)) =>
      TargetIsList(root, op);
      if op.InsertUnique? then
        (match OnlyIndex(values, op.value)
         case Some(i) => Some(Update(root, steps, List(Removed(values, i))))
         case None => None)
      else if op.InsertObject? then
        (match OnlyIndex(Keys(values, op.uniqueKey), MemberOf(op.value, op.uniqueKey).value)
         case Some(i) => Some(Update(root, steps, List(Removed(values, i))))
         case None => None)
      else None
  }

  lemma OnlyIs<T(!new)>(values: seq<T>, value: T, i: nat)
    requires IsOnly(values, value, i)
    ensures OnlyIndex(values, value) == Some(i)
  {
  }

  lemma InsertedOnce<T(!new)>(values: seq<T>, i: nat, value: T)
    requires i <= |values| && value !in values
    ensures OnlyIndex(Inserted(values, i, value), value) == Some(i)
    ensures Removed(Inserted(values, i, value), i) == values
  {
    var longer := Inserted(values, i, value);
    forall j | 0 <= j < |longer| && j != i ensures longer[j] != value {
      assert longer[j] == if j < i then values[j] else values[j - 1];
    }
    OnlyIs(longer, value, i);
  }

  /** An insertion never moves the place it went to. */
  lemma TargetStays(root: Json, op: Operation, longer: seq<Json>)
    requires Shaped(op) && TargetList(root, op).Some?
    requires op.InsertObject? ==> AllKeyed(longer, op.uniqueKey)
    ensures At(root, TargetList(root, op).value.0).Some?
    ensures TargetList(Update(root, TargetList(root, op).value.0, List(longer)), op) ==
        Some((TargetList(root, op).value.0, longer))
  {
    TargetIsList(root, op);
    var steps := TargetList(root, op).value.0;
    var changed := Update(root, steps, List(longer));
    UpdatedThere(root, steps, List(longer));
    if op.InsertUnique? {
      var items := At(root, Members(op.path)).value.items;
      var i := OnlyIndex(KeyValues(items, op.key), Some(op.equals)).value;
      var item := Update(items[i], Members(op.memberPath), List(longer));
      assert steps == Members(op.path) + ([Item(i)] + Members(op.memberPath));
      UpdateJoined(root, Members(op.path), [Item(i)] + Members(op.memberPath), List(longer));
      assert ([Item(i)] + Members(op.memberPath))[1..] == Members(op.memberPath);
      UpdatedThere(root, Members(op.path), List(items[i := item]));
      UpdatedThere(items[i], Members(op.memberPath), List(longer));
      SelectorStays(items[i], op.key, op.equals, op.memberPath, List(longer));
      assert KeyValues(items[i := item], op.key) == KeyValues(items, op.key);
    }
  }

  lemma {:induction false} UpdateJoined(root: Json, a: seq<Step>, b: seq<Step>, value: Json)
    requires At(root, a + b).Some?
    ensures At(root, a).Some? && At(At(root, a).value, b).Some?
    ensures Update(root, a + b, value) == Update(root, a, Update(At(root, a).value, b, value))
    decreases a
  {
    AtJoined(root, a, b);
    if a == [] {
      assert a + b == b;
    } else {
      assert (a + b)[0] == a[0] && (a + b)[1..] == a[1..] + b;
      match (a[0], root)
      case (Member(key), Object(members)) => UpdateJoined(members[key], a[1..], b, value);
      case (Item(i), List(items)) => UpdateJoined(items[i], a[1..], b, value);
      case _ =>
    }
  }

  /** The selecting member is a scalar, so no list below it can be edited. */
  lemma SelectorStays(item: Json, key: string, equals: Json, path: Path, value: Json)
    requires item.Object? && MemberOf(item, key) == Some(equals) && equals.Scalar? && path != []
    requires At(item, Members(path)).Some? && At(item, Members(path)).value.List?
    ensures MemberOf(Update(item, Members(path), value), key) == Some(equals)
    ensures Update(item, Members(path), value).Object?
  {
    assert path[0] == key ==> At(item, Members(path)) == At(equals, Members(path)[1..]);
  }

  /** Removing what an insertion added gives the list back. */
  lemma ListRestored(values: seq<Json>, op: Operation)
    requires Shaped(op) && !op.SetValue? && (op.InsertObject? ==> AllKeyed(values, op.uniqueKey))
    requires InsertionIndex(values, op).Some?
    ensures var i := InsertionIndex(values, op).value;
            var longer := Inserted(values, i, op.value);
            && Removed(longer, i) == values
            && (op.InsertUnique? ==> OnlyIndex(longer, op.value) == Some(i))
            && (op.InsertObject? ==> AllKeyed(longer, op.uniqueKey))
            && (op.InsertObject? ==>
                OnlyIndex(Keys(longer, op.uniqueKey), MemberOf(op.value, op.uniqueKey).value) == Some(i))
  {
    var i := InsertionIndex(values, op).value;
    if op.InsertUnique? {
      InsertedOnce(values, i, op.value);
    } else {
      InsertedKeys(values, i, op.value, op.uniqueKey);
      assert Removed(Inserted(values, i, op.value), i) == values;
    }
  }

  /** Removing what an insertion added gives the document back. */
  lemma InsertionUndone(root: Json, op: Operation)
    requires Shaped(op) && !op.SetValue? && Apply(root, op).Some?
    ensures Unapply(Apply(root, op).value, op) == Some(root)
  {
    hide TargetList, InsertionIndex, At, Update, OnlyIndex, Inserted, Removed;
    TargetIsList(root, op);
    TargetIsKeyed(root, op);
    var (steps, values) := TargetList(root, op).value;
    var i := InsertionIndex(values, op).value;
    var longer := Inserted(values, i, op.value);
    ListRestored(values, op);
    TargetStays(root, op, longer);
    UpdateTwice(root, steps, List(longer), List(values));
    UpdateBySame(root, steps);
  }

  lemma TargetIsKeyed(root: Json, op: Operation)
    ensures TargetList(root, op).Some? && op.InsertObject? ==> AllKeyed(TargetList(root, op).value.1, op.uniqueKey)
  {
  }

  /** The keys stay pairwise distinct, with the new one in its place. */
  lemma InsertedKeys(values: seq<Json>, i: nat, value: Json, key: string)
    requires i <= |values| && AllKeyed(values, key) && Distinct(Keys(values, key))
    requires MemberOf(value, key).Some? && MemberOf(value, key).value !in Keys(values, key)
    ensures AllKeyed(Inserted(values, i, value), key)
    ensures Keys(Inserted(values, i, value), key) == Inserted(Keys(values, key), i, MemberOf(value, key).value)
    ensures Distinct(Keys(Inserted(values, i, value), key))
    ensures OnlyIndex(Keys(Inserted(values, i, value), key), MemberOf(value, key).value) == Some(i)
  {
    var longer := Inserted(values, i, value);
    forall j | 0 <= j < |longer|
      ensures longer[j] == if j < i then values[j] else if j == i then value else values[j - 1]
    {}
    assert AllKeyed(longer, key);
    var keys := Inserted(Keys(values, key), i, MemberOf(value, key).value);
    forall j | 0 <= j < |keys| ensures keys[j] == Keys(longer, key)[j] {}
    InsertedOnce(Keys(values, key), i, MemberOf(value, key).value);
    DistinctInserted(Keys(values, key), i, MemberOf(value, key).value);
  }

  lemma DistinctInserted(keys: seq<Json>, i: nat, key: Json)
    requires i <= |keys| && Distinct(keys) && key !in keys
    ensures Distinct(Inserted(keys, i, key))
  {
    var longer := Inserted(keys, i, key);
    forall a, b | 0 <= a < b < |longer| ensures longer[a] != longer[b] {
      assert longer[a] == if a < i then keys[a] else if a == i then key else keys[a - 1];
      assert longer[b] == if b < i then keys[b] else if b == i then key else keys[b - 1];
    }
  }

  predicate InsertionsOnly(ops: seq<Operation>) {
    forall i :: 0 <= i < |ops| ==> Shaped(ops[i]) && !ops[i].SetValue?
  }

  /** Removes the inserted values, last one first. */
  ghost function UnapplyAll(root: Json, ops: seq<Operation>): Option<Json>
    requires InsertionsOnly(ops)
    decreases |ops|
  {
    if ops == [] then Some(root)
    else
      match Unapply(root, ops[|ops| - 1])
      case Some(result) => UnapplyAll(result, ops[..|ops| - 1])
      case None => None
  }

  lemma {:induction false} InsertionsUndone(base: Json, ops: seq<Operation>)
    requires InsertionsOnly(ops) && ApplyAll(base, ops).Some?
    ensures UnapplyAll(ApplyAll(base, ops).value, ops) == Some(base)
  {
    hide Apply, Unapply, Shaped;
    if ops != [] {
      InsertionUndone(ApplyAll(base, ops[..|ops| - 1]).value, ops[|ops| - 1]);
      InsertionsUndone(base, ops[..|ops| - 1]);
    }
  }

  /** After an insertion of an object the keys of its collection are distinct. */
  lemma KeysStayDistinct(root: Json, op: Operation)
    requires Shaped(op) && op.InsertObject? && Apply(root, op).Some?
    ensures TargetList(Apply(root, op).value, op).Some?
    ensures var values := TargetList(Apply(root, op).value, op).value.1;
            AllKeyed(values, op.uniqueKey) && Distinct(Keys(values, op.uniqueKey))
  {
    TargetIsList(root, op);
    var (steps, values) := TargetList(root, op).value;
    var i := InsertionIndex(values, op).value;
    InsertedKeys(values, i, op.value, op.uniqueKey);
    TargetStays(root, op, Inserted(values, i, op.value));
  }

  // ---------------------------------------------------------------------
  // Insertions only add
  // ---------------------------------------------------------------------

  /** `b` is `a` with further list items, at any depth, and nothing else changed. */
  ghost predicate Grown(a: Json, b: Json)
    decreases a, 1, 0
  {
    match (a, b)
    case (Scalar(x), Scalar(y)) => x == y
    case (Object(x), Object(y)) => x.Keys == y.Keys && forall key :: key in x ==> Grown(x[key], y[key])
    case (List(x), List(y)) => GrownList(a, x, y)
    case _ => false
  }

  /** `x` is a subsequence of `y`, up to growth of the items themselves. */
  ghost predicate GrownList(whole: Json, x: seq<Json>, y: seq<Json>)
    requires forall i :: 0 <= i < |x| ==> x[i] < whole
    decreases whole, 0, |x| + |y|
  {
    if x == [] then true
    else if y == [] then false
    else
      (Grown(x[|x| - 1], y[|y| - 1]) && GrownList(whole, x[..|x| - 1], y[..|y| - 1]))
          || GrownList(whole, x, y[..|y| - 1])
  }

  lemma {:induction false} GrownToItself(a: Json)
    ensures Grown(a, a)
    decreases a, 1, 0
  {
    match a
    case Scalar(_) =>
    case Object(members) => forall key | key in members ensures Grown(members[key], members[key]) {
      GrownToItself(members[key]);
    }
    case List(items) => ListGrownToItself(a, items);
  }

  lemma {:induction false} ListGrownToItself(whole: Json, x: seq<Json>)
    requires forall i :: 0 <= i < |x| ==> x[i] < whole
    ensures GrownList(whole, x, x)
    decreases whole, 0, |x|
  {
    if x != [] {
      GrownToItself(x[|x| - 1]);
      ListGrownToItself(whole, x[..|x| - 1]);
    }
  }

  lemma {:induction false} GrownByInsertion(whole: Json, x: seq<Json>, i: nat, value: Json)
    requires i <= |x| && forall k :: 0 <= k < |x| ==> x[k] < whole
    ensures GrownList(whole, x, Inserted(x, i, value))
  {
    var longer := Inserted(x, i, value);
    if i == |x| {
      assert longer[..|longer| - 1] == x;
      ListGrownToItself(whole, x);
    } else {
      assert longer[..|longer| - 1] == Inserted(x[..|x| - 1], i, value);
      GrownByInsertion(whole, x[..|x| - 1], i, value);
      GrownToItself(x[|x| - 1]);
    }
  }

  lemma {:induction false} GrownByItem(whole: Json, x: seq<Json>, i: nat, item: Json)
    requires i < |x| && Grown(x[i], item) && forall k :: 0 <= k < |x| ==> x[k] < whole
    ensures GrownList(whole, x, x[i := item])
  {
    var init := x[..|x| - 1];
    if i == |x| - 1 {
      assert x[i := item][..|x| - 1] == init;
      ListGrownToItself(whole, init);
    } else {
      assert x[i := item][..|x| - 1] == init[i := item];
      GrownByItem(whole, init, i, item);
      GrownToItself(x[|x| - 1]);
    }
  }

  lemma {:induction false} GrownByUpdate(root: Json, steps: seq<Step>, value: Json)
    requires At(root, steps).Some? && Grown(At(root, steps).value, value)
    ensures Grown(root, Update(root, steps, value))
    decreases steps
  {
    if steps != [] {
      match (steps[0], root)
      case (Member(key), Object(members)) =>
        GrownByUpdate(members[key], steps[1..], value);
        forall other | other in members
          ensures Grown(members[other], members[key := Update(members[key], steps[1..], value)][other])
        {
          if other != key { GrownToItself(members[other]); }
        }
      case (Item(i), List(items)) =>
        GrownByUpdate(items[i], steps[1..], value);
        GrownByItem(root, items, i, Update(items[i], steps[1..], value));
      case _ =>
    }
  }

  lemma {:induction false} GrowthGoesOn(a: Json, b: Json, c: Json)
    requires Grown(a, b) && Grown(b, c)
    ensures Grown(a, c)
    decreases a, 1, 0
  {
    match (a, b, c)
    case (Object(x), Object(y), Object(z)) =>
      forall key | key in x ensures Grown(x[key], z[key]) { GrowthGoesOn(x[key], y[key], z[key]); }
    case (List(x), List(y), List(z)) => ListGrowthGoesOn(a, b, x, y, z);
    case _ =>
  }

  lemma {:induction false} ListGrowthGoesOn(a: Json, b: Json, x: seq<Json>, y: seq<Json>, z: seq<Json>)
    requires forall k :: 0 <= k < |x| ==> x[k] < a
    requires forall k :: 0 <= k < |y| ==> y[k] < b
    requires GrownList(a, x, y) && GrownList(b, y, z)
    ensures GrownList(a, x, z)
    decreases a, 0, |x| + |y| + |z|
  {
    if x != [] && y != [] && z != [] {
      var x0, y0, z0 := x[..|x| - 1], y[..|y| - 1], z[..|z| - 1];
      if Grown(y[|y| - 1], z[|z| - 1]) && GrownList(b, y0, z0) {
        if Grown(x[|x| - 1], y[|y| - 1]) && GrownList(a, x0, y0) {
          GrowthGoesOn(x[|x| - 1], y[|y| - 1], z[|z| - 1]);
          ListGrowthGoesOn(a, b, x0, y0, z0);
        } else {
          ListGrowthGoesOn(a, b, x, y0, z0);
        }
      } else {
        ListGrowthGoesOn(a, b, x, y, z0);
      }
    }
  }

  /** One insertion keeps every list of the document as a subsequence. */
  lemma InsertionGrows(root: Json, op: Operation)
    requires Shaped(op) && !op.SetValue? && Apply(root, op).Some?
    ensures Grown(root, Apply(root, op).value)
  {
    TargetIsList(root, op);
    var (steps, values) := TargetList(root, op).value;
    var i := InsertionIndex(values, op).value;
    GrownByInsertion(List(values), values, i, op.value);
    GrownByUpdate(root, steps, List(Inserted(values, i, op.value)));
  }

  /** So does any accepted list of insertions. */
  lemma {:induction false} InsertionsGrow(base: Json, ops: seq<Operation>)
    requires InsertionsOnly(ops) && ApplyAll(base, ops).Some?
    ensures Grown(base, ApplyAll(base, ops).value)
  {
    hide Apply, Shaped, Grown;
    if ops == [] {
      GrownToItself(base);
    } else {
      var before := ApplyAll(base, ops[..|ops| - 1]).value;
      InsertionsGrow(base, ops[..|ops| - 1]);
      InsertionGrows(before, ops[|ops| - 1]);
      GrowthGoesOn(base, before, ApplyAll(base, ops).value);
    }
  }

  /** An accepted operation changes nothing off the path it addresses. */
  lemma OnlyTheTargetChanges(root: Json, op: Operation, other: seq<Step>)
    requires Shaped(op) && Apply(root, op).Some? && Diverge(Addressed(root, op), other)
    ensures At(Apply(root, op).value, other) == At(root, other)
  {
    if op.SetValue? {
      NothingElseChanges(root, Members(op.path), op.value, other);
    } else {
      TargetIsList(root, op);
      var (steps, values) := TargetList(root, op).value;
      NothingElseChanges(root, steps, List(Inserted(values, InsertionIndex(values, op).value, op.value)), other);
    }
  }

  // ---------------------------------------------------------------------
  // Unique keys over a whole overlay
  // ---------------------------------------------------------------------

  /** The list at `path` holds only objects with pairwise distinct keys. */
  ghost predicate KeysDistinct(root: Json, path: Path, key: string) {
    match At(root, Members(path))
    case Some(List(items)) => AllKeyed(items, key) && Distinct(Keys(items, key))
    case _ => false
  }

  /** The object an insertion selects, with the value already in it. */
  ghost function SelectedAfter(root: Json, op: Operation): Option<(nat, Json)>
    requires Shaped(op) && op.InsertUnique?
  {
    match TargetList(root, op)
    case None => None
    case Some((_, values)) =>
      var items := At(root, Members(op.path)).value.items;
      var n := OnlyIndex(KeyValues(items, op.key), Some(op.equals)).value;
      match InsertionIndex(values, op)
      case None => None
      case Some(i) => Some((n, Update(items[n], Members(op.memberPath), List(Inserted(values, i, op.value)))))
  }

  /** The guard the code would need to keep the keys of one collection distinct:
      a set above it brings distinct keys, an object inserted by another key has
      a key of its own, and a key that an insertion changes is nobody else's. */
  ghost predicate KeepsKeys(root: Json, op: Operation, path: Path, key: string)
    requires Shaped(op)
  {
    match op
    case SetValue(above, value) => above <= path ==> KeysDistinct(value, path[|above|..], key)
    case InsertObject(into, _, value, _) =>
      into == path && At(root, Members(path)).Some? && At(root, Members(path)).value.List? ==>
        MemberOf(value, key).Some? && MemberOf(value, key) !in KeyValues(At(root, Members(path)).value.items, key)
    case InsertUnique(into, _, _, memberPath, _, _) =>
      into == path && memberPath[0] == key && SelectedAfter(root, op).Some? ==>
        var items := At(root, Members(path)).value.items;
        forall j :: 0 <= j < |items| && j != SelectedAfter(root, op).value.0 ==>
          MemberOf(items[j], key) != MemberOf(SelectedAfter(root, op).value.1, key)
  }

  /** What can be read off an operation alone: it does not replace the collection,
      does not insert by another key and does not change values of this key. */
  predicate LeavesKeysAlone(op: Operation, path: Path, key: string)
    requires Shaped(op)
  {
    match op
    case SetValue(above, _) => !(above <= path)
    case InsertObject(into, uniqueKey, _, _) => into != path || uniqueKey == key
    case InsertUnique(into, selector, _, memberPath, _, _) => into != path || memberPath[0] != key || selector == key
  }

  lemma MembersJoined(a: Path, b: Path)
    requires a <= b
    ensures Members(b) == Members(a) + Members(b[|a|..])
  {
  }

  /** Pointers do not lead into lists. */
  lemma NotThroughLists(root: Json, path: Path, longer: Path)
    requires path <= longer && At(root, Members(path)).Some?
    requires At(root, Members(path)).value.List? && At(root, Members(longer)).Some?
    ensures longer == path
  {
    MembersJoined(path, longer);
    AtJoined(root, Members(path), Members(longer[|path|..]));
  }

  lemma {:induction false} DivergeFurther(a: seq<Step>, b: seq<Step>, more: seq<Step>)
    requires Diverge(a, b)
    ensures Diverge(a + more, b)
  {
    if a[0] == b[0] {
      DivergeFurther(a[1..], b[1..], more);
      assert (a + more)[1..] == a[1..] + more;
    }
  }

  /** The list or member an operation addresses. */
  ghost function Addressed(root: Json, op: Operation): seq<Step> {
    match TargetList(root, op)
    case Some((steps, _)) => steps
    case None => Members(op.path)
  }

  lemma AddressedBelowPath(root: Json, op: Operation, other: seq<Step>)
    requires Diverge(Members(op.path), other)
    ensures Diverge(Addressed(root, op), other)
  {
    if op.InsertUnique? && TargetList(root, op).Some? {
      var n := OnlyIndex(KeyValues(At(root, Members(op.path)).value.items, op.key), Some(op.equals)).value;
      DivergeFurther(Members(op.path), other, [Item(n)] + Members(op.memberPath));
      assert Members(op.path) + [Item(n)] + Members(op.memberPath) ==
          Members(op.path) + ([Item(n)] + Members(op.memberPath));
    }
  }

  /** An operation on another pointer leaves a list alone, unless it is a set above it. */
  lemma ListElsewhere(root: Json, op: Operation, path: Path)
    requires Shaped(op) && Apply(root, op).Some? && At(root, Members(path)).Some? && At(root, Members(path)).value.List?
    requires op.path != path && !(op.SetValue? && op.path <= path)
    ensures At(Apply(root, op).value, Members(path)) == At(root, Members(path))
  {
    if path <= op.path { NotThroughLists(root, path, op.path); }
    if op.path <= path { NotThroughLists(root, op.path, path); }
    PrefixFreeDiverge(op.path, path);
    AddressedBelowPath(root, op, Members(path));
    OnlyTheTargetChanges(root, op, Members(path));
  }

  lemma InsertedKeysExactly(items: seq<Json>, i: nat, value: Json, key: string)
    requires i <= |items| && AllKeyed(items, key) && Distinct(Keys(items, key))
    ensures AllKeyed(Inserted(items, i, value), key) && Distinct(Keys(Inserted(items, i, value), key)) <==>
              MemberOf(value, key).Some? && MemberOf(value, key) !in KeyValues(items, key)
  {
    var longer := Inserted(items, i, value);
    assert longer[i] == value;
    if MemberOf(value, key).Some? {
      if MemberOf(value, key) in KeyValues(items, key) {
        var j :| 0 <= j < |items| && MemberOf(items[j], key) == MemberOf(value, key);
        var there := if j < i then j else j + 1;
        assert longer[there] == items[j];
      } else {
        InsertedKeys(items, i, value, key);
      }
    }
  }

  lemma ReplacedKeysExactly(items: seq<Json>, n: nat, item: Json, key: string)
    requires n < |items| && AllKeyed(items, key) && Distinct(Keys(items, key)) && MemberOf(item, key).Some?
    ensures AllKeyed(items[n := item], key)
    ensures Distinct(Keys(items[n := item], key)) <==>
              forall j :: 0 <= j < |items| && j != n ==> MemberOf(items[j], key) != MemberOf(item, key)
  {
    var changed := items[n := item];
    var keys, was := Keys(changed, key), Keys(items, key);
    assert forall j :: 0 <= j < |items| && j != n ==> keys[j] == was[j];
    if Distinct(keys) {
      forall j | 0 <= j < |items| && j != n ensures MemberOf(items[j], key) != MemberOf(item, key) {
        assert keys[j] != keys[n];
      }
    }
  }

  lemma InsertedBelowMember(root: Json, op: Operation)
    requires Shaped(op) && op.InsertUnique? && Apply(root, op).Some?
    ensures var items := At(root, Members(op.path)).value.items;
            && SelectedAfter(root, op).Some?
            && At(Apply(root, op).value, Members(op.path)) ==
                 Some(List(items[SelectedAfter(root, op).value.0 := SelectedAfter(root, op).value.1]))
            && var (n, item) := SelectedAfter(root, op).value;
               && MemberOf(item, op.key) == MemberOf(items[n], op.key) && op.memberPath[0] != op.key
               && forall key :: (key != op.memberPath[0] ==> MemberOf(item, key) == MemberOf(items[n], key))
                             && (MemberOf(items[n], key).Some? ==> MemberOf(item, key).Some?)
  {
    TargetIsList(root, op);
    var (steps, values) := TargetList(root, op).value;
    var items := At(root, Members(op.path)).value.items;
    var (n, item) := SelectedAfter(root, op).value;
    var longer := List(Inserted(values, InsertionIndex(values, op).value, op.value));
    var below := [Item(n)] + Members(op.memberPath);
    assert steps == Members(op.path) + below && below[1..] == Members(op.memberPath);
    UpdateJoined(root, Members(op.path), below, longer);
    UpdatedThere(root, Members(op.path), List(items[n := item]));
    SelectorStays(items[n], op.key, op.equals, op.memberPath, longer);
    assert op.memberPath[0] == op.key ==>
        At(items[n], Members(op.memberPath)) == At(op.equals, Members(op.memberPath)[1..]);
  }

  /** One accepted operation keeps the keys of a collection distinct exactly under
      the guard. */
  lemma KeysKeptExactly(root: Json, op: Operation, path: Path, key: string)
    requires Shaped(op) && Apply(root, op).Some? && KeysDistinct(root, path, key)
    ensures KeysDistinct(Apply(root, op).value, path, key) <==> KeepsKeys(root, op, path, key)
  {
    if op.SetValue? && op.path <= path {
      MembersJoined(op.path, path);
      AtJoined(Apply(root, op).value, Members(op.path), Members(path[|op.path|..]));
      UpdatedThere(root, Members(op.path), op.value);
    } else if op.path != path {
      ListElsewhere(root, op, path);
    } else if op.InsertObject? {
      var items := At(root, Members(path)).value.items;
      var i := InsertionIndex(items, op).value;
      UpdatedThere(root, Members(path), List(Inserted(items, i, op.value)));
      InsertedKeysExactly(items, i, op.value, key);
    } else {
      var items := At(root, Members(path)).value.items;
      InsertedBelowMember(root, op);
      var (n, item) := SelectedAfter(root, op).value;
      ReplacedKeysExactly(items, n, item, key);
      if op.memberPath[0] != key {
        forall j | 0 <= j < |items| && j != n ensures MemberOf(items[j], key) != MemberOf(item, key) {
          assert Keys(items, key)[j] != Keys(items, key)[n];
        }
      }
    }
  }

  lemma LeftAloneIsKept(root: Json, op: Operation, path: Path, key: string)
    requires Shaped(op) && Apply(root, op).Some? && KeysDistinct(root, path, key) && LeavesKeysAlone(op, path, key)
    ensures KeepsKeys(root, op, path, key)
  {
    if op.InsertUnique? {
      InsertedBelowMember(root, op);
    }
  }

  /** The document after the first `n` operations of an accepted overlay. */
  ghost function State(base: Json, ops: seq<Operation>, n: nat): Json
    requires (forall k :: 0 <= k < |ops| ==> Shaped(ops[k])) && ApplyAll(base, ops).Some? && n <= |ops|
  {
    if ApplyAll(base, ops[..n]).None? then RefusalStays(base, ops, n); base else ApplyAll(base, ops[..n]).value
  }

  lemma StateSteps(base: Json, ops: seq<Operation>, n: nat)
    requires (forall k :: 0 <= k < |ops| ==> Shaped(ops[k])) && ApplyAll(base, ops).Some? && n <= |ops|
    ensures State(base, ops, 0) == base && Some(State(base, ops, |ops|)) == ApplyAll(base, ops)
    ensures n < |ops| ==> Apply(State(base, ops, n), ops[n]) == Some(State(base, ops, n + 1))
  {
    hide Apply, Shaped;
    assert ops[..|ops|] == ops;
    if n < |ops| {
      assert ops[..n + 1][..n] == ops[..n];
      if ApplyAll(base, ops[..n]).None? { RefusalStays(base, ops, n); }
      if ApplyAll(base, ops[..n + 1]).None? { RefusalStays(base, ops, n + 1); }
    }
  }

  /** Once distinct, the keys of a collection stay distinct after every operation
      exactly when every operation meets the guard. */
  lemma KeysStayDistinctExactly(base: Json, ops: seq<Operation>, from: nat, path: Path, key: string)
    requires (forall k :: 0 <= k < |ops| ==> Shaped(ops[k])) && ApplyAll(base, ops).Some? && from <= |ops|
    requires KeysDistinct(State(base, ops, from), path, key)
    ensures (forall n :: from <= n <= |ops| ==> KeysDistinct(State(base, ops, n), path, key)) <==>
            (forall n :: from <= n < |ops| ==> KeepsKeys(State(base, ops, n), ops[n], path, key))
  {
    hide Apply, Shaped, KeysDistinct, KeepsKeys, State;
    if forall n :: from <= n <= |ops| ==> KeysDistinct(State(base, ops, n), path, key) {
      forall n | from <= n < |ops| ensures KeepsKeys(State(base, ops, n), ops[n], path, key) {
        StateSteps(base, ops, n);
        assert KeysDistinct(State(base, ops, n + 1), path, key);
        KeysKeptExactly(State(base, ops, n), ops[n], path, key);
      }
    }
    if forall n :: from <= n < |ops| ==> KeepsKeys(State(base, ops, n), ops[n], path, key) {
      forall n | from <= n <= |ops| ensures KeysDistinct(State(base, ops, n), path, key) {
        KeysDistinctUpTo(base, ops, from, n, path, key);
      }
    }
  }

  lemma {:induction false} KeysDistinctUpTo(base: Json, ops: seq<Operation>, from: nat, n: nat, path: Path, key: string)
    requires (forall k :: 0 <= k < |ops| ==> Shaped(ops[k])) && ApplyAll(base, ops).Some? && from <= n <= |ops|
    requires KeysDistinct(State(base, ops, from), path, key)
    requires forall k :: from <= k < n ==> KeepsKeys(State(base, ops, k), ops[k], path, key)
    ensures KeysDistinct(State(base, ops, n), path, key)
  {
    hide Apply, Shaped, KeysDistinct, KeepsKeys, State;
    if n > from {
      KeysDistinctUpTo(base, ops, from, n - 1, path, key);
      StateSteps(base, ops, n - 1);
      KeysKeptExactly(State(base, ops, n - 1), ops[n - 1], path, key);
    }
  }

  /** No later operation replaces a collection an object was inserted into, inserts
      into it by another key, or changes values of its key. */
  predicate NoKeyConflicts(ops: seq<Operation>)
    requires forall k :: 0 <= k < |ops| ==> Shaped(ops[k])
  {
    forall i, j :: 0 <= i < j < |ops| && ops[i].InsertObject? ==> LeavesKeysAlone(ops[j], ops[i].path, ops[i].uniqueKey)
  }

  /** Whatever the base document, every collection that an accepted overlay without
      key conflicts inserts an object into ends with pairwise distinct keys. */
  lemma TouchedKeysStayDistinct(base: Json, ops: seq<Operation>, i: nat)
    requires (forall k :: 0 <= k < |ops| ==> Shaped(ops[k])) && ApplyAll(base, ops).Some? && NoKeyConflicts(ops)
    requires i < |ops| && ops[i].InsertObject?
    ensures KeysDistinct(ApplyAll(base, ops).value, ops[i].path, ops[i].uniqueKey)
  {
    StateSteps(base, ops, i);
    KeysStayDistinct(State(base, ops, i), ops[i]);
    LeftAloneUpTo(base, ops, i + 1, |ops|, ops[i].path, ops[i].uniqueKey);
    StateSteps(base, ops, |ops|);
  }

  lemma {:induction false} LeftAloneUpTo(base: Json, ops: seq<Operation>, from: nat, n: nat, path: Path, key: string)
    requires (forall k :: 0 <= k < |ops| ==> Shaped(ops[k])) && ApplyAll(base, ops).Some? && from <= n <= |ops|
    requires KeysDistinct(State(base, ops, from), path, key)
    requires forall k :: from <= k < n ==> LeavesKeysAlone(ops[k], path, key)
    ensures KeysDistinct(State(base, ops, n), path, key)
  {
    hide Apply, Shaped, KeysDistinct, KeepsKeys, LeavesKeysAlone, State;
    if n > from {
      LeftAloneUpTo(base, ops, from, n - 1, path, key);
      StateSteps(base, ops, n - 1);
      LeftAloneIsKept(State(base, ops, n - 1), ops[n - 1], path, key);
      KeysKeptExactly(State(base, ops, n - 1), ops[n - 1], path, key);
    }
  }

  function Record(id: string, k: Json): Json {
    Object(map["id" := Scalar(id), "k" := k])
  }

  const ONE := Scalar("1")
  const TWO := Scalar("2")
  const RECORD_A := Record("a", List([ONE]))
  const RECORD_B := Record("b", List([ONE, TWO]))
  const RECORD_Z := Record("z", Scalar("9"))
  const COLLIDING := [
    InsertObject(["c"], "k", RECORD_Z, AtEnd),
    InsertUnique(["c"], "id", Scalar("a"), ["k"], TWO, AtEnd)]

  lemma FirstIsAccepted()
    ensures Apply(Object(map["c" := List([RECORD_A, RECORD_B])]), COLLIDING[0]) ==
        Some(Object(map["c" := List([RECORD_A, RECORD_B, RECORD_Z])]))
  {
    var base := Object(map["c" := List([RECORD_A, RECORD_B])]);
    assert Members(["c"]) == [Member("c")];
    assert At(base, [Member("c")]) == Some(List([RECORD_A, RECORD_B]));
    assert TargetList(base, COLLIDING[0]) == Some(([Member("c")], [RECORD_A, RECORD_B]));
    assert Inserted([RECORD_A, RECORD_B], 2, RECORD_Z) == [RECORD_A, RECORD_B, RECORD_Z];
    assert Keys([RECORD_A, RECORD_B], "k") == [List([ONE]), List([ONE, TWO])];
    assert [ONE] != [ONE, TWO] by { assert |[ONE]| != |[ONE, TWO]|; }
    assert InsertionIndex([RECORD_A, RECORD_B], COLLIDING[0]) == Some(2);
    assert map["c" := List([RECORD_A, RECORD_B])]["c" := List([RECORD_A, RECORD_B, RECORD_Z])] ==
        map["c" := List([RECORD_A, RECORD_B, RECORD_Z])];
  }

  lemma SecondIsAccepted()
    ensures var middle := Object(map["c" := List([RECORD_A, RECORD_B, RECORD_Z])]);
            && Shaped(COLLIDING[1]) && Apply(middle, COLLIDING[1]).Some?
            && SelectedAfter(middle, COLLIDING[1]) ==
                Some((0, RECORD_B.(members := RECORD_B.members["id" := Scalar("a")])))
  {
    var middle := Object(map["c" := List([RECORD_A, RECORD_B, RECORD_Z])]);
    var second := COLLIDING[1];
    assert Members(["c"]) == [Member("c")] && Members(["k"]) == [Member("k")];
    assert At(middle, [Member("c")]) == Some(List([RECORD_A, RECORD_B, RECORD_Z]));
    OnlyIs(KeyValues([RECORD_A, RECORD_B, RECORD_Z], "id"), Some(Scalar("a")), 0);
    assert At(RECORD_A, [Member("k")]) == Some(List([ONE]));
    assert TargetList(middle, second) == Some(([Member("c")] + [Item(0)] + [Member("k")], [ONE]));
    assert InsertionIndex([ONE], second) == Some(1);
    assert Inserted([ONE], 1, TWO) == [ONE, TWO];
    var changed := SelectedAfter(middle, second).value.1;
    assert RECORD_A.members["k" := List([ONE, TWO])] == RECORD_B.members["id" := Scalar("a")];
  }

  /** An accepted overlay that leaves two equal keys: the keys are lists, and the
      second operation makes one of them equal to another. */
  lemma KeysCanCollide()
    ensures ValidOverlay(COLLIDING) && ApplyAll(Object(map["c" := List([RECORD_A, RECORD_B])]), COLLIDING).Some?
    ensures !KeysDistinct(ApplyAll(Object(map["c" := List([RECORD_A, RECORD_B])]), COLLIDING).value, ["c"], "k")
  {
    hide Apply, TargetList, SelectedAfter;
    var base, middle :=
        Object(map["c" := List([RECORD_A, RECORD_B])]), Object(map["c" := List([RECORD_A, RECORD_B, RECORD_Z])]);
    var ops, items := COLLIDING, [RECORD_A, RECORD_B, RECORD_Z];
    FirstIsAccepted();
    SecondIsAccepted();
    assert ops[..1] == [ops[0]] && ops[..1][..0] == [];
    assert ApplyAll(base, []) == Some(base);
    assert ApplyAll(base, ops[..1]) == Some(middle);
    InsertedBelowMember(middle, ops[1]);
    assert At(middle, Members(["c"])) == Some(List(items));
    var changed := SelectedAfter(middle, ops[1]).value.1;
    assert MemberOf(changed, "k") == MemberOf(RECORD_B, "k");
    var keys := Keys(items[0 := changed], "k");
    assert keys[0] == keys[1];
  }

  // ---------------------------------------------------------------------
  // Nothing else changes
  // ---------------------------------------------------------------------

  /** An accepted overlay changes nothing off the lists and members its operations
      address, each read in the document it is applied to. */
  lemma OnlyTheTargetsChange(base: Json, ops: seq<Operation>, other: seq<Step>)
    requires (forall k :: 0 <= k < |ops| ==> Shaped(ops[k])) && ApplyAll(base, ops).Some?
    requires forall k :: 0 <= k < |ops| ==> Diverge(Addressed(State(base, ops, k), ops[k]), other)
    ensures At(ApplyAll(base, ops).value, other) == At(base, other)
  {
    StateSteps(base, ops, 0);
    UnchangedUpTo(base, ops, |ops|, other);
  }

  lemma {:induction false} UnchangedUpTo(base: Json, ops: seq<Operation>, n: nat, other: seq<Step>)
    requires (forall k :: 0 <= k < |ops| ==> Shaped(ops[k])) && ApplyAll(base, ops).Some? && n <= |ops|
    requires forall k :: 0 <= k < n ==> Diverge(Addressed(State(base, ops, k), ops[k]), other)
    ensures At(State(base, ops, n), other) == At(base, other)
  {
    hide Apply, Shaped, State, At, Addressed;
    StateSteps(base, ops, 0);
    if n > 0 {
      UnchangedUpTo(base, ops, n - 1, other);
      StateSteps(base, ops, n - 1);
      OnlyTheTargetChanges(State(base, ops, n - 1), ops[n - 1], other);
    }
  }

  /** So nothing changes that no pointer of the overlay leads to or into. */
  lemma OffEveryPointer(base: Json, ops: seq<Operation>, other: seq<Step>)
    requires (forall k :: 0 <= k < |ops| ==> Shaped(ops[k])) && ApplyAll(base, ops).Some?
    requires forall k :: 0 <= k < |ops| ==> Diverge(Members(ops[k].path), other)
    ensures At(ApplyAll(base, ops).value, other) == At(base, other)
  {
    forall k | 0 <= k < |ops|
      ensures Diverge(Addressed(State(base, ops, k), ops[k]), other)
    {
      AddressedBelowPath(State(base, ops, k), ops[k], other);
    }
    OnlyTheTargetsChange(base, ops, other);
  }
}
