/** The flat form of a capability configuration: one typed leaf per JSON pointer.
    A leaf stands for the digest of its canonical JSON text. */
module ConfigFingerprint {
  import opened Wrappers
  import opened JsonPointer
  import opened Decimals

  datatype Kind = Integer | Float | DateTime | Date | Time

  datatype Scalar =
    | Boolean(flag: bool)
    | Text(text: string)
    | Literal(kind: Kind, canonical: string)
    | NotFinite
    | SessionPipe

  datatype Tree = Table(entries: map<string, Tree>) | Array(items: seq<Tree>) | Atom(scalar: Scalar)

  /** What is digested at one pointer: a typed scalar, or the length of an array. */
  datatype Leaf = ScalarLeaf(scalar: Scalar) | ArrayLeaf(length: nat)

  const ARRAY_MARK := "@type"

  // ---------------------------------------------------------------------
  // The leaves of a tree, by path
  // ---------------------------------------------------------------------

  ghost predicate IsIndex(segment: string, length: nat) {
    exists i: nat :: i < length && segment == Decimal(i)
  }

  /** The leaf a tree holds at a path, if any. */
  ghost function LeafAt(tree: Tree, path: Path): Option<Leaf>
    decreases tree
  {
    match tree
    case Atom(scalar) => if path == [] then Some(ScalarLeaf(scalar)) else None
    case Table(entries) =>
      if path != [] && path[0] in entries then LeafAt(entries[path[0]], path[1..]) else None
    case Array(items) =>
      if path == [ARRAY_MARK] then Some(ArrayLeaf(|items|))
      else if path != [] && IsIndex(path[0], |items|) then
        var i: nat :| i < |items| && path[0] == Decimal(i);
        LeafAt(items[i], path[1..])
      else None
  }

  lemma ItemLeaf(items: seq<Tree>, i: nat, path: Path)
    requires i < |items|
    ensures LeafAt(Array(items), [Decimal(i)] + path) == LeafAt(items[i], path)
  {
    var whole := [Decimal(i)] + path;
    assert whole != [ARRAY_MARK] by { assert whole[0][0] != ARRAY_MARK[0] && [ARRAY_MARK][0] == ARRAY_MARK; }
    assert IsIndex(whole[0], |items|) && whole[1..] == path;
    forall m: nat | m < |items| && whole[0] == Decimal(m) ensures m == i {
      DecimalIsInjective(m, i);
    }
  }

  lemma EntryLeaf(entries: map<string, Tree>, key: string, path: Path)
    ensures LeafAt(Table(entries), [key] + path) == if key in entries then LeafAt(entries[key], path) else None
  {
    assert ([key] + path)[1..] == path;
  }

  // ---------------------------------------------------------------------
  // Empty tables are invisible, and nothing else is
  // ---------------------------------------------------------------------

  predicate EmptyTable(tree: Tree) {
    tree.Table? && tree.entries == map[]
  }

  /** `tree` without its empty sub-tables.  Elements of arrays are kept. */
  function Pruned(tree: Tree): Tree {
    match tree
    case Table(entries) =>
      Table(map key | key in entries && !EmptyTable(Pruned(entries[key])) :: Pruned(entries[key]))
    case Array(items) => Array(seq(|items|, i requires 0 <= i < |items| => Pruned(items[i])))
    case Atom(_) => tree
  }

  ghost predicate SameLeaves(a: Tree, b: Tree) {
    forall path :: LeafAt(a, path) == LeafAt(b, path)
  }

  lemma {:induction false} PruningKeepsLeaves(tree: Tree, path: Path)
    ensures LeafAt(Pruned(tree), path) == LeafAt(tree, path)
    decreases tree
  {
    match tree
    case Atom(_) =>
    case Table(entries) =>
      if path != [] && path[0] in entries { PruningKeepsLeaves(entries[path[0]], path[1..]); }
    case Array(items) =>
      if path != [] && path != [ARRAY_MARK] && IsIndex(path[0], |items|) {
        var i: nat :| i < |items| && path[0] == Decimal(i);
        assert path == [Decimal(i)] + path[1..];
        ItemLeaf(items, i, path[1..]);
        ItemLeaf(Pruned(tree).items, i, path[1..]);
        PruningKeepsLeaves(items[i], path[1..]);
      }
  }

  /** No table of a pruned tree maps a key to an empty table. */
  predicate IsPruned(tree: Tree) {
    match tree
    case Atom(_) => true
    case Array(items) => forall i :: 0 <= i < |items| ==> IsPruned(items[i])
    case Table(entries) => forall key :: key in entries ==> IsPruned(entries[key]) && !EmptyTable(entries[key])
  }

  lemma {:induction false} PrunedIsPruned(tree: Tree)
    ensures IsPruned(Pruned(tree))
  {
    match tree
    case Atom(_) =>
    case Array(items) =>
      forall i | 0 <= i < |items| ensures IsPruned(Pruned(items[i])) { PrunedIsPruned(items[i]); }
    case Table(entries) =>
      forall key | key in entries ensures IsPruned(Pruned(entries[key])) { PrunedIsPruned(entries[key]); }
  }

  lemma {:induction false} SomeLeaf(tree: Tree) returns (path: Path)
    requires IsPruned(tree) && !EmptyTable(tree)
    ensures LeafAt(tree, path).Some?
  {
    match tree
    case Atom(_) => path := [];
    case Array(items) => path := [ARRAY_MARK];
    case Table(entries) =>
      var key :| key in entries;
      var rest := SomeLeaf(entries[key]);
      path := [key] + rest;
      EntryLeaf(entries, key, rest);
  }

  lemma SameKeys(x: map<string, Tree>, y: map<string, Tree>)
    requires IsPruned(Table(x)) && SameLeaves(Table(x), Table(y))
    ensures forall key :: key in x ==> key in y
  {
    forall key | key in x ensures key in y {
      var path := SomeLeaf(x[key]);
      EntryLeaf(x, key, path);
      EntryLeaf(y, key, path);
    }
  }

  lemma {:induction false} LeavesDetermine(x: Tree, y: Tree)
    requires IsPruned(x) && IsPruned(y) && SameLeaves(x, y)
    ensures x == y
  {
    match x
    case Atom(_) =>
      assert LeafAt(x, []) == LeafAt(y, []);
    case Array(items) =>
      assert LeafAt(x, [ARRAY_MARK]) == LeafAt(y, [ARRAY_MARK]);
      assert y.Array? && |y.items| == |items| by { ArraysShow(y, |items|); }
      forall i: nat | i < |items| ensures items[i] == y.items[i] {
        forall path ensures LeafAt(items[i], path) == LeafAt(y.items[i], path) {
          ItemLeaf(items, i, path);
          ItemLeaf(y.items, i, path);
        }
        LeavesDetermine(items[i], y.items[i]);
      }
    case Table(entries) =>
      assert y.Table? by {
        assert LeafAt(y, []) == LeafAt(x, []);
        assert LeafAt(y, [ARRAY_MARK]) == LeafAt(x, [ARRAY_MARK]);
        if y.Array? { ArraysShow(x, |y.items|); }
      }
      SameKeys(entries, y.entries);
      SameKeys(y.entries, entries);
      forall key | key in entries ensures entries[key] == y.entries[key] {
        forall path ensures LeafAt(entries[key], path) == LeafAt(y.entries[key], path) {
          EntryLeaf(entries, key, path);
          EntryLeaf(y.entries, key, path);
        }
        LeavesDetermine(entries[key], y.entries[key]);
      }
  }

  /** Only an array records a length, even beside keys that look like its mark. */
  lemma ArraysShow(tree: Tree, length: nat)
    ensures LeafAt(tree, [ARRAY_MARK]) == Some(ArrayLeaf(length)) ==> tree.Array? && |tree.items| == length
  {
    if tree.Table? && ARRAY_MARK in tree.entries {
      assert [ARRAY_MARK][1..] == [];
      assert LeafAt(tree.entries[ARRAY_MARK], []) != Some(ArrayLeaf(length));
    }
  }

  /** The leaves carry the tree up to empty sub-tables, and no more. */
  lemma LeavesAreTree(a: Tree, b: Tree)
    ensures SameLeaves(a, b) <==> Pruned(a) == Pruned(b)
  {
    forall path ensures LeafAt(Pruned(a), path) == LeafAt(a, path) && LeafAt(Pruned(b), path) == LeafAt(b, path) {
      PruningKeepsLeaves(a, path);
      PruningKeepsLeaves(b, path);
    }
    if SameLeaves(a, b) {
      PrunedIsPruned(a);
      PrunedIsPruned(b);
      LeavesDetermine(Pruned(a), Pruned(b));
    }
  }

  // ---------------------------------------------------------------------
  // The flat form
  // ---------------------------------------------------------------------

  /** `leaves` holds exactly the leaves of `tree`, keyed by their pointers. */
  ghost predicate Flattens(leaves: map<string, Leaf>, tree: Tree) {
    && (forall path :: LeafAt(tree, path).Some? ==> Get(leaves, Pointer(path)) == LeafAt(tree, path))
    && (forall pointer :: pointer in leaves ==> exists path :: LeafAt(tree, path).Some? && pointer == Pointer(path))
  }

  /** Two configurations have one fingerprint exactly when they are equal after
      their empty sub-tables are deleted. */
  lemma FingerprintIsTree(a: Tree, leavesA: map<string, Leaf>, b: Tree, leavesB: map<string, Leaf>)
    requires a.Table? && b.Table?
    requires Flattens(leavesA, a) && Flattens(leavesB, b)
    ensures leavesA == leavesB <==> Pruned(a) == Pruned(b)
  {
    LeavesAreTree(a, b);
    if leavesA == leavesB {
      forall path ensures LeafAt(a, path) == LeafAt(b, path) {
        LeafFromFlat(a, leavesA, path);
        LeafFromFlat(b, leavesB, path);
      }
    } else if SameLeaves(a, b) {
      forall pointer ensures Get(leavesA, pointer) == Get(leavesB, pointer) {
        FlatFromLeaf(a, leavesA, b, leavesB, pointer);
        FlatFromLeaf(b, leavesB, a, leavesA, pointer);
      }
      SameLookups(leavesA, leavesB);
    }
  }

  lemma LeafFromFlat(tree: Tree, leaves: map<string, Leaf>, path: Path)
    requires tree.Table? && Flattens(leaves, tree)
    ensures LeafAt(tree, path) == if path == [] then None else Get(leaves, Pointer(path))
  {
    if path != [] && Pointer(path) in leaves {
      var other :| LeafAt(tree, other).Some? && Pointer(path) == Pointer(other);
      PointerIsInjective(path, other);
    }
  }

  lemma FlatFromLeaf(a: Tree, leavesA: map<string, Leaf>, b: Tree, leavesB: map<string, Leaf>, pointer: string)
    requires Flattens(leavesA, a) && Flattens(leavesB, b) && SameLeaves(a, b)
    ensures pointer in leavesA ==> Get(leavesB, pointer) == Get(leavesA, pointer)
  {
    if pointer in leavesA {
      var path :| LeafAt(a, path).Some? && pointer == Pointer(path);
      assert LeafAt(b, path) == LeafAt(a, path);
    }
  }

  /** The pointer of a leaf below `path`. */
  function Below(path: Path, rest: Path): string {
    Pointer(path + rest)
  }

  /** `after` is `before` with exactly the leaves of `tree` written below `path`. */
  ghost predicate Written(before: map<string, Leaf>, after: map<string, Leaf>, path: Path, tree: Tree) {
    && (forall rest :: LeafAt(tree, rest).Some? ==> Get(after, Below(path, rest)) == LeafAt(tree, rest))
    && (forall pointer :: Get(after, pointer) == Get(before, pointer)
          || exists rest :: LeafAt(tree, rest).Some? && pointer == Below(path, rest))
  }

  /** The part of `Written` a loop over keys has reached. */
  ghost predicate EntriesWritten(
    before: map<string, Leaf>, after: map<string, Leaf>, path: Path, entries: map<string, Tree>, done: set<string>)
  {
    && (forall key, rest :: key in done && key in entries && LeafAt(entries[key], rest).Some? ==>
          Get(after, Below(path + [key], rest)) == LeafAt(entries[key], rest))
    && (forall pointer :: Get(after, pointer) == Get(before, pointer)
          || exists key, rest :: key in done && key in entries && LeafAt(entries[key], rest).Some? && pointer ==
              Below(path + [key], rest))
  }

  lemma OneMoreEntry(
    first: map<string, Leaf>, before: map<string, Leaf>, after: map<string, Leaf>, path: Path,
    entries: map<string, Tree>, done: set<string>, key: string)
    requires key in entries && key !in done
    requires EntriesWritten(first, before, path, entries, done)
    requires Written(before, after, path + [key], entries[key])
    ensures EntriesWritten(first, after, path, entries, done + {key})
  {
    forall other, rest | other in done && other in entries && LeafAt(entries[other], rest).Some?
      ensures Get(after, Below(path + [other], rest)) == LeafAt(entries[other], rest)
    {
      forall mine ensures Below(path + [other], rest) != Below(path + [key], mine) {
        assert (path + [other] + rest)[|path|] == other && (path + [key] + mine)[|path|] == key;
        if Below(path + [other], rest) == Below(path + [key], mine) {
          PointerIsInjective(path + [other] + rest, path + [key] + mine);
        }
      }
    }
  }

  lemma EntriesAreTable(before: map<string, Leaf>, after: map<string, Leaf>, path: Path, entries: map<string, Tree>)
    requires EntriesWritten(before, after, path, entries, entries.Keys)
    ensures Written(before, after, path, Table(entries))
  {
    forall rest | LeafAt(Table(entries), rest).Some?
      ensures Get(after, Below(path, rest)) == LeafAt(Table(entries), rest)
    {
      assert path + rest == path + [rest[0]] + rest[1..];
      assert Below(path, rest) == Below(path + [rest[0]], rest[1..]);
    }
    forall pointer | Get(after, pointer) != Get(before, pointer)
      ensures exists rest :: LeafAt(Table(entries), rest).Some? && pointer == Below(path, rest)
    {
      var key, rest :| key in entries && LeafAt(entries[key], rest).Some? && pointer == Below(path + [key], rest);
      EntryLeaf(entries, key, rest);
      assert path + ([key] + rest) == path + [key] + rest;
      assert pointer == Below(path, [key] + rest);
    }
  }

  /** An array writes its length and then its items, like a table of them. */
  ghost function ItemTable(items: seq<Tree>, count: nat): map<string, Tree>
    requires count <= |items|
  {
    if count == 0 then map[] else ItemTable(items, count - 1)[Decimal(count - 1) := items[count - 1]]
  }

  lemma {:induction false} ItemTableHolds(items: seq<Tree>, count: nat)
    requires count <= |items|
    ensures forall key :: key in ItemTable(items, count) <==> IsIndex(key, count)
    ensures forall i: nat ::
              i < count ==> Decimal(i) in ItemTable(items, count) && ItemTable(items, count)[Decimal(i)] == items[i]
  {
    hide IsIndex, Decimal;
    if count > 0 {
      ItemTableHolds(items, count - 1);
      forall i: nat | i < count - 1 ensures Decimal(i) != Decimal(count - 1) {
        if Decimal(i) == Decimal(count - 1) { DecimalIsInjective(i, count - 1); }
      }
      forall key ensures IsIndex(key, count) <==> IsIndex(key, count - 1) || key == Decimal(count - 1) {
        OneMoreIndex(key, count - 1);
      }
    } else {
      forall key ensures !IsIndex(key, 0) { OneMoreIndex(key, 0); }
    }
  }

  lemma OneMoreIndex(key: string, count: nat)
    ensures !IsIndex(key, 0)
    ensures IsIndex(key, count + 1) <==> IsIndex(key, count) || key == Decimal(count)
  {
    hide Decimal;
    if IsIndex(key, count) {
      var i: nat :| i < count && key == Decimal(i);
      assert i < count + 1;
    }
  }

  lemma ItemsAreArray(
    before: map<string, Leaf>, marked: map<string, Leaf>, after: map<string, Leaf>, path: Path, items: seq<Tree>)
    requires marked == before[Below(path, [ARRAY_MARK]) := ArrayLeaf(|items|)]
    requires EntriesWritten(marked, after, path, ItemTable(items, |items|), ItemTable(items, |items|).Keys)
    ensures Written(before, after, path, Array(items))
  {
    var table := ItemTable(items, |items|);
    ItemTableHolds(items, |items|);
    EntriesAreTable(marked, after, path, table);
    assert LeafAt(Table(table),
        [ARRAY_MARK]).None? by { assert !IsIndex(ARRAY_MARK, |items|) by { MarkIsNoIndex(|items|); } }
    forall rest | LeafAt(Array(items), rest).Some? ensures Get(after, Below(path, rest)) == LeafAt(Array(items), rest) {
      if rest == [ARRAY_MARK] {
        forall other | LeafAt(Table(table), other).Some? ensures Below(path, other) != Below(path, rest) {
          BelowIsInjective(path, other, rest);
        }
      } else {
        ArrayAsTable(items, rest);
        assert Get(after, Below(path, rest)) == LeafAt(Table(table), rest);
      }
    }
    forall pointer | Get(after, pointer) != Get(before, pointer)
      ensures exists rest :: LeafAt(Array(items), rest).Some? && pointer == Below(path, rest)
    {
      if pointer == Below(path, [ARRAY_MARK]) {
        assert LeafAt(Array(items), [ARRAY_MARK]).Some?;
      } else {
        var rest :| LeafAt(Table(table), rest).Some? && pointer == Below(path, rest);
        ArrayAsTable(items, rest);
      }
    }
  }

  lemma BelowIsInjective(path: Path, a: Path, b: Path)
    requires a != [] && b != []
    ensures Below(path, a) == Below(path, b) ==> a == b
  {
    assert (path + a)[|path|..] == a && (path + b)[|path|..] == b;
    if Below(path, a) == Below(path, b) { PointerIsInjective(path + a, path + b); }
  }

  lemma MarkIsNoIndex(length: nat)
    ensures !IsIndex(ARRAY_MARK, length)
  {
    forall i: nat ensures Decimal(i) != ARRAY_MARK { assert Decimal(i)[0] != ARRAY_MARK[0]; }
  }

  lemma ArrayAsTable(items: seq<Tree>, rest: Path)
    requires rest != [ARRAY_MARK]
    ensures LeafAt(Array(items), rest) == LeafAt(Table(ItemTable(items, |items|)), rest)
  {
    ItemTableHolds(items, |items|);
    if rest != [] && IsIndex(rest[0], |items|) {
      var i: nat :| i < |items| && rest[0] == Decimal(i);
      assert rest == [Decimal(i)] + rest[1..];
      ItemLeaf(items, i, rest[1..]);
    }
  }

  lemma ScalarWritten(before: map<string, Leaf>, path: Path, scalar: Scalar)
    ensures Written(before, before[Pointer(path) := ScalarLeaf(scalar)], path, Atom(scalar))
  {
    assert path + [] == path;
    assert LeafAt(Atom(scalar), []).Some? && Below(path, []) == Pointer(path);
  }

  lemma NothingWritten(before: map<string, Leaf>, path: Path, entries: map<string, Tree>)
    ensures EntriesWritten(before, before, path, entries, {})
  {
  }

  /** The leaves collected so far. */
  class LeafMap {
    var leaves: map<string, Leaf>

    constructor ()
      ensures leaves == map[]
    {
      leaves := map[];
    }

    method Record(path: Path, leaf: Leaf)
      modifies this
      ensures leaves == old(leaves)[Pointer(path) := leaf]
    {
      leaves := leaves[Pointer(path) := leaf];
    }

    /** Records every leaf of `tree`, which is found at `path`. */
    method Walk(path: Path, tree: Tree)
      modifies this
      ensures Written(old(leaves), leaves, path, tree)
      decreases tree, 1
    {
      match tree
      case Atom(scalar) =>
        ScalarWritten(leaves, path, scalar);
        Record(path, ScalarLeaf(scalar));
      case Table(entries) => WalkTable(path, tree);
      case Array(items) => WalkArray(path, tree);
    }

    method WalkTable(path: Path, tree: Tree)
      requires tree.Table?
      modifies this
      ensures Written(old(leaves), leaves, path, tree)
      decreases tree, 0
    {
      hide Written, EntriesWritten;
      ghost var first := leaves;
      var todo := tree.entries.Keys;
      ghost var done: set<string> := {};
      NothingWritten(leaves, path, tree.entries);
      while todo != {}
        invariant todo !! done && todo + done == tree.entries.Keys
        invariant EntriesWritten(first, leaves, path, tree.entries, done)
        decreases todo
      {
        var key :| key in todo;
        ghost var before := leaves;
        Walk(path + [key], tree.entries[key]);
        OneMoreEntry(first, before, leaves, path, tree.entries, done, key);
        todo, done := todo - {key}, done + {key};
      }
      EntriesAreTable(first, leaves, path, tree.entries);
    }

    method WalkArray(path: Path, tree: Tree)
      requires tree.Array?
      modifies this
      ensures Written(old(leaves), leaves, path, tree)
      decreases tree, 0
    {
      hide Written, EntriesWritten, IsIndex;
      ghost var first := leaves;
      var items := tree.items;
      Record(path + [ARRAY_MARK], ArrayLeaf(|items|));
      ghost var marked, table := leaves, ItemTable(items, |items|);
      ItemTableHolds(items, |items|);
      NothingWritten(leaves, path, table);
      ghost var done: set<string> := {};
      for i := 0 to |items|
        invariant done == ItemTable(items, i).Keys
        invariant EntriesWritten(marked, leaves, path, table, done)
      {
        ghost var before := leaves;
        ItemTableHolds(items, i);
        NextIsNoIndex(i);
        Walk(path + [Decimal(i)], items[i]);
        OneMoreEntry(marked, before, leaves, path, table, done, Decimal(i));
        done := done + {Decimal(i)};
      }
      ItemsAreArray(first, marked, leaves, path, items);
    }
  }

  lemma NextIsNoIndex(i: nat)
    ensures !IsIndex(Decimal(i), i)
  {
    forall m: nat | m < i ensures Decimal(m) != Decimal(i) {
      if Decimal(m) == Decimal(i) { DecimalIsInjective(m, i); }
    }
  }

  /** The flat form of a configuration. */
  method LeafHashes(tree: Tree) returns (leaves: map<string, Leaf>)
    ensures Flattens(leaves, tree)
  {
    var collected := new LeafMap();
    collected.Walk([], tree);
    leaves := collected.leaves;
    WrittenIsFlat(leaves, tree);
  }

  lemma WrittenIsFlat(leaves: map<string, Leaf>, tree: Tree)
    requires Written(map[], leaves, [], tree)
    ensures Flattens(leaves, tree)
  {
    forall path ensures Below([], path) == Pointer(path) {
      assert [] + path == path;
    }
    forall pointer | pointer in leaves ensures exists path :: LeafAt(tree, path).Some? && pointer == Pointer(path) {
      assert Get(leaves, pointer) != Get(map[], pointer);
    }
  }
}
