/**
 * The pure computations behind the column editor: reordering by drag
 * (`findIndex` and `arrayMove`), the draft of selected paths
 * (`columns.map(c => c.path)`), and the rebuild of the column list when the
 * "Add export fields" dialog is saved (`new Map(prev.map(c => [c.path, c]))`,
 * then a map/filter over the draft).
 */
module ColumnSet {
  import opened Wrappers
  import opened FieldCatalogue

  /** `s` without its element at `i` (`splice(i, 1)`). */
  function RemoveAt<T>(s: seq<T>, i: nat): (r: seq<T>)
    requires i < |s|
    ensures |r| == |s| - 1
    ensures forall k :: 0 <= k < |r| ==> r[k] == if k < i then s[k] else s[k + 1]
  {
    s[..i] + s[i + 1..]
  }

  /** `s` with `x` inserted so that it lands at index `i` (`splice(i, 0, x)`). */
  function InsertAt<T>(s: seq<T>, i: nat, x: T): (r: seq<T>)
    requires i <= |s|
    ensures |r| == |s| + 1 && r[i] == x
    ensures forall k :: 0 <= k < |r| && k != i ==> r[k] == if k < i then s[k] else s[k - 1]
  {
    s[..i] + [x] + s[i..]
  }

  lemma RemoveInsert<T>(s: seq<T>, i: nat, x: T)
    requires i <= |s|
    ensures RemoveAt(InsertAt(s, i, x), i) == s
  {
    var t := InsertAt(s, i, x);
    assert t[..i] == s[..i] && t[i + 1..] == s[i..];
    assert s[..i] + s[i..] == s;
  }

  lemma InsertRemove<T>(s: seq<T>, i: nat)
    requires i < |s|
    ensures InsertAt(RemoveAt(s, i), i, s[i]) == s
  {
    var t := RemoveAt(s, i);
    assert t[..i] == s[..i] && t[i..] == s[i + 1..];
    assert s[..i] + [s[i]] + s[i + 1..] == s;
  }

  lemma MultisetRemoveAt<T>(s: seq<T>, i: nat)
    requires i < |s|
    ensures multiset(RemoveAt(s, i)) + multiset{s[i]} == multiset(s)
  {
    assert s == s[..i] + [s[i]] + s[i + 1..];
  }

  lemma MultisetInsertAt<T>(s: seq<T>, i: nat, x: T)
    requires i <= |s|
    ensures multiset(InsertAt(s, i, x)) == multiset(s) + multiset{x}
  {
    assert s == s[..i] + s[i..];
  }

  /**
   * `arrayMove(array, from, to)` from @dnd-kit/sortable on in-range indices:
   * the element at `from` ends up at `to`, and removing it from both lists
   * leaves the same list, so every other element keeps its relative order.
   */
  function ArrayMove<T>(s: seq<T>, from: nat, to: nat): (r: seq<T>)
    requires from < |s| && to < |s|
    ensures |r| == |s| && r[to] == s[from]
    ensures RemoveAt(r, to) == RemoveAt(s, from)
  {
    RemoveInsert(RemoveAt(s, from), to, s[from]);
    InsertAt(RemoveAt(s, from), to, s[from])
  }

  /** Moving an element is a permutation. */
  lemma ArrayMovePermutation<T>(s: seq<T>, from: nat, to: nat)
    requires from < |s| && to < |s|
    ensures multiset(ArrayMove(s, from, to)) == multiset(s)
  {
    MultisetRemoveAt(s, from);
    MultisetInsertAt(RemoveAt(s, from), to, s[from]);
  }

  /** Moving back from the target to the source undoes a move. */
  lemma ArrayMoveInverse<T>(s: seq<T>, from: nat, to: nat)
    requires from < |s| && to < |s|
    ensures ArrayMove(ArrayMove(s, from, to), to, from) == s
  {
    var r := ArrayMove(s, from, to);
    assert RemoveAt(r, to) == RemoveAt(s, from);
    InsertRemove(s, from);
  }

  /** A move onto its own index changes nothing. */
  lemma ArrayMoveSame<T>(s: seq<T>, i: nat)
    requires i < |s|
    ensures ArrayMove(s, i, i) == s
  {
    InsertRemove(s, i);
  }

  /** `prev.findIndex(c => c.id === id)`: the first column with that id, or -1. */
  function IndexOfId(cols: seq<Column>, id: string): (r: int)
    ensures -1 <= r < |cols|
    ensures r >= 0 ==> cols[r].id == id && forall k :: 0 <= k < r ==> cols[k].id != id
    ensures r == -1 ==> forall k :: 0 <= k < |cols| ==> cols[k].id != id
  {
    if cols == [] then -1
    else if cols[0].id == id then 0
    else
      var k := IndexOfId(cols[1..], id);
      if k == -1 then -1 else k + 1
  }

  /** The drop of a drag that acts: it has a target, and the target is not the dragged column. */
  predicate Moves(activeId: string, overId: Option<string>) {
    overId.Some? && overId.value != activeId
  }

  /**
   * The column update of `handleDragEnd`. Without a target, or onto itself,
   * the columns are unchanged; otherwise the dragged column is moved to the
   * index the target had, and the rest keep their order.
   */
  function Reorder(cols: seq<Column>, activeId: string, overId: Option<string>): (r: seq<Column>)
    requires Moves(activeId, overId) ==> IndexOfId(cols, activeId) >= 0 && IndexOfId(cols, overId.value) >= 0
    ensures !Moves(activeId, overId) ==> r == cols
    ensures |r| == |cols| && multiset(r) == multiset(cols)
    ensures Moves(activeId, overId) ==>
      var oldIndex := IndexOfId(cols, activeId);
      var newIndex := IndexOfId(cols, overId.value);
      r[newIndex] == cols[oldIndex] && r[newIndex].id == activeId
      && RemoveAt(r, newIndex) == RemoveAt(cols, oldIndex)
  {
    if !Moves(activeId, overId) then cols
    else
      var oldIndex := IndexOfId(cols, activeId);
      var newIndex := IndexOfId(cols, overId.value);
      ArrayMovePermutation(cols, oldIndex, newIndex);
      ArrayMove(cols, oldIndex, newIndex)
  }

  /** `columns.map(c => c.path)`. */
  function Paths(cols: seq<Column>): (r: seq<string>)
    ensures |r| == |cols|
    ensures forall i :: 0 <= i < |cols| ==> r[i] == cols[i].path
  {
    seq(|cols|, i requires 0 <= i < |cols| => cols[i].path)
  }

  lemma PathsCons(c: Column, rest: seq<Column>)
    ensures Paths([c] + rest) == [c.path] + Paths(rest)
  {
  }

  /**
   * `new Map(prev.map(c => [c.path, c]))`: the entries are set in list
   * order, so every column path is a key and each key maps to a column
   * with that path.
   */
  function PathMap(cols: seq<Column>): (m: map<string, Column>)
    ensures forall i :: 0 <= i < |cols| ==> cols[i].path in m
    ensures Coherent(m)
  {
    if cols == [] then map[]
    else
      var init := cols[..|cols| - 1];
      var last := cols[|cols| - 1];
      assert forall i :: 0 <= i < |init| ==> init[i] == cols[i];
      PathMap(init)[last.path := last]
  }

  /** When several columns share a path, the map keeps the last of them. */
  lemma {:induction false} PathMapLastWins(cols: seq<Column>, p: string)
    requires p in PathMap(cols)
    ensures exists i :: 0 <= i < |cols| && cols[i] == PathMap(cols)[p] && forall k :: i < k < |cols| ==> cols[k].path != p
  {
    var init := cols[..|cols| - 1];
    var last := cols[|cols| - 1];
    if p == last.path {
      assert cols[|cols| - 1] == PathMap(cols)[p];
    } else {
      PathMapLastWins(init, p);
      var i :| 0 <= i < |init| && init[i] == PathMap(init)[p] && forall k :: i < k < |init| ==> init[k].path != p;
      assert cols[i] == PathMap(cols)[p];
      forall k | i < k < |cols| ensures cols[k].path != p {
        if k < |init| {
          assert cols[k] == init[k];
        }
      }
    }
  }

  /** Every key of `m` maps to a column carrying that key as its path. */
  predicate Coherent(m: map<string, Column>) {
    forall p :: p in m ==> m[p].path == p
  }

  /**
   * What a draft path becomes on save: the previous column with that path if
   * there is one, else a new column built from the catalogue entry with
   * `id = path`, else nothing.
   */
  function ColumnFor(prevMap: map<string, Column>, p: string): Option<Column> {
    if p in prevMap then Some(prevMap[p])
    else match FindByPath(Catalogue, p)
      case Some(f) => Some(Column(f.path, f.title, f.path))
      case None => None
  }

  /** `draftSelectedPaths.map(path => ...).filter(Boolean)`. */
  function Rebuild(prevMap: map<string, Column>, draft: seq<string>): (r: seq<Column>)
    requires Coherent(prevMap)
    ensures |r| <= |draft|
    ensures forall i :: 0 <= i < |r| ==> r[i].path in draft && ColumnFor(prevMap, r[i].path) == Some(r[i])
  {
    if draft == [] then []
    else
      var rest := Rebuild(prevMap, draft[1..]);
      match ColumnFor(prevMap, draft[0])
      case Some(c) => [c] + rest
      case None => rest
  }

  /** The columns after `handleSaveFields`. */
  function SaveColumns(prev: seq<Column>, draft: seq<string>): seq<Column> {
    Rebuild(PathMap(prev), draft)
  }

  /** A draft path survives a save when it is already a column path or a catalogue path. */
  predicate Known(prev: seq<Column>, p: string) {
    p in Paths(prev) || FindByPath(Catalogue, p).Some?
  }

  /** The draft restricted to known paths, in draft order. */
  function KnownPaths(prev: seq<Column>, draft: seq<string>): (r: seq<string>)
    ensures forall i :: 0 <= i < |r| ==> r[i] in draft && Known(prev, r[i])
  {
    if draft == [] then []
    else if Known(prev, draft[0]) then [draft[0]] + KnownPaths(prev, draft[1..])
    else KnownPaths(prev, draft[1..])
  }

  lemma ColumnForKnown(prev: seq<Column>, p: string)
    ensures ColumnFor(PathMap(prev), p).Some? <==> Known(prev, p)
    ensures ColumnFor(PathMap(prev), p).Some? ==> ColumnFor(PathMap(prev), p).value.path == p
  {
    var m := PathMap(prev);
    if p in m {
      PathMapLastWins(prev, p);
      var i :| 0 <= i < |prev| && prev[i] == m[p] && forall k :: i < k < |prev| ==> prev[k].path != p;
      assert Paths(prev)[i] == p;
    }
  }

  /** The saved columns carry exactly the known draft paths, in draft order. */
  lemma {:induction false} SavePaths(prev: seq<Column>, draft: seq<string>)
    ensures Paths(SaveColumns(prev, draft)) == KnownPaths(prev, draft)
  {
    if draft != [] {
      var m := PathMap(prev);
      var rest := Rebuild(m, draft[1..]);
      SavePaths(prev, draft[1..]);
      ColumnForKnown(prev, draft[0]);
      match ColumnFor(m, draft[0])
      case Some(c) =>
        assert Rebuild(m, draft) == [c] + rest;
        PathsCons(c, rest);
      case None =>
        assert Rebuild(m, draft) == rest;
    }
  }

  /** Column `j` of `cols` is the last one with its path. */
  predicate IsLastWithPath(cols: seq<Column>, j: int) {
    0 <= j < |cols| && forall k :: j < k < |cols| ==> cols[k].path != cols[j].path
  }

  /** A column made from a catalogue entry: its id is its path. */
  predicate FromCatalogue(c: Column) {
    c.id == c.path && FieldOption(c.title, c.path) in Catalogue
  }

  /**
   * Each saved column either is the previous column with that path,
   * unchanged (the last one when several share it), or, for a path no
   * column had, a new column with `id = path` and the catalogue label.
   */
  lemma SaveColumnOrigin(prev: seq<Column>, draft: seq<string>)
    ensures forall i :: 0 <= i < |SaveColumns(prev, draft)| ==>
      var c := SaveColumns(prev, draft)[i];
      (c.path in Paths(prev) ==> exists j :: IsLastWithPath(prev, j) && prev[j] == c)
      && (c.path !in Paths(prev) ==> FromCatalogue(c))
  {
    var m := PathMap(prev);
    var r := SaveColumns(prev, draft);
    forall i | 0 <= i < |r|
      ensures r[i].path in Paths(prev) ==> exists j :: IsLastWithPath(prev, j) && prev[j] == r[i]
      ensures r[i].path !in Paths(prev) ==> FromCatalogue(r[i])
    {
      var p := r[i].path;
      assert ColumnFor(m, p) == Some(r[i]);
      if p in m {
        PathMapLastWins(prev, p);
        var j :| 0 <= j < |prev| && prev[j] == m[p] && forall k :: j < k < |prev| ==> prev[k].path != p;
        assert IsLastWithPath(prev, j);
        assert Paths(prev)[j] == p;
      } else {
        assert p !in Paths(prev);
      }
    }
  }

  /** A draft path that resolves to a column puts that column in the rebuilt list. */
  lemma {:induction false} RebuildContains(prevMap: map<string, Column>, draft: seq<string>, p: string)
    requires Coherent(prevMap)
    requires p in draft && ColumnFor(prevMap, p).Some?
    ensures ColumnFor(prevMap, p).value in Rebuild(prevMap, draft)
  {
    if draft[0] != p {
      RebuildContains(prevMap, draft[1..], p);
    }
  }

  /** Rebuilding with two maps that resolve every draft path alike gives the same columns. */
  lemma {:induction false} RebuildAgree(m1: map<string, Column>, m2: map<string, Column>, draft: seq<string>)
    requires Coherent(m1) && Coherent(m2)
    requires forall p :: p in draft ==> ColumnFor(m1, p) == ColumnFor(m2, p)
    ensures Rebuild(m1, draft) == Rebuild(m2, draft)
  {
    if draft != [] {
      RebuildAgree(m1, m2, draft[1..]);
    }
  }

  /** After a save, each draft path resolves against the new columns as it did against the old. */
  lemma ColumnForSaved(prev: seq<Column>, draft: seq<string>, p: string)
    requires p in draft
    ensures ColumnFor(PathMap(SaveColumns(prev, draft)), p) == ColumnFor(PathMap(prev), p)
  {
    var m := PathMap(prev);
    var r := SaveColumns(prev, draft);
    var m2 := PathMap(r);
    ColumnForKnown(prev, p);
    if ColumnFor(m, p).Some? {
      var c := ColumnFor(m, p).value;
      RebuildContains(m, draft, p);
      var i :| 0 <= i < |r| && r[i] == c;
      assert p in m2;
      PathMapLastWins(r, p);
      var j :| 0 <= j < |r| && r[j] == m2[p] && forall k :: j < k < |r| ==> r[k].path != p;
      assert ColumnFor(m, r[j].path) == Some(r[j]);
    } else if p in m2 {
      PathMapLastWins(r, p);
    }
  }

  /** Saving twice with the same draft gives the same columns as saving once. */
  lemma SaveIdempotent(prev: seq<Column>, draft: seq<string>)
    ensures SaveColumns(SaveColumns(prev, draft), draft) == SaveColumns(prev, draft)
  {
    forall p | p in draft
      ensures ColumnFor(PathMap(SaveColumns(prev, draft)), p) == ColumnFor(PathMap(prev), p)
    {
      ColumnForSaved(prev, draft, p);
    }
    RebuildAgree(PathMap(SaveColumns(prev, draft)), PathMap(prev), draft);
  }

  /** No two columns share a path. */
  predicate PathsUnique(cols: seq<Column>) {
    forall i, j :: 0 <= i < j < |cols| ==> cols[i].path != cols[j].path
  }

  lemma {:induction false} RebuildOwnPaths(m: map<string, Column>, cols: seq<Column>)
    requires Coherent(m)
    requires forall i :: 0 <= i < |cols| ==> ColumnFor(m, cols[i].path) == Some(cols[i])
    ensures Rebuild(m, Paths(cols)) == cols
  {
    if cols != [] {
      assert Paths(cols)[1..] == Paths(cols[1..]);
      RebuildOwnPaths(m, cols[1..]);
    }
  }

  /** Opening the dialog and saving it untouched leaves columns with distinct paths as they were. */
  lemma SaveCurrentPaths(cols: seq<Column>)
    requires PathsUnique(cols)
    ensures SaveColumns(cols, Paths(cols)) == cols
  {
    var m := PathMap(cols);
    forall i | 0 <= i < |cols| ensures ColumnFor(m, cols[i].path) == Some(cols[i]) {
      PathMapLastWins(cols, cols[i].path);
      var j :| 0 <= j < |cols| && cols[j] == m[cols[i].path] && forall k :: j < k < |cols| ==> cols[k].path != cols[i].path;
    }
    RebuildOwnPaths(m, cols);
  }

  /**
   * The shape of every column list the editor produces from distinct draft
   * paths: no two columns share a path, and each column is a default column
   * or was made from a catalogue entry.
   */
  predicate WellFormed(cols: seq<Column>) {
    PathsUnique(cols) && forall i :: 0 <= i < |cols| ==> cols[i] in DefaultFields || FromCatalogue(cols[i])
  }

  /** The default columns are well formed, and none of their ids starts like a catalogue path. */
  lemma DefaultFieldsWellFormed()
    ensures WellFormed(DefaultFields)
    ensures forall c :: c in DefaultFields ==> |c.id| > 0 && c.id[0] != 'r' && c.id[0] != '_'
  {
  }

  /** In a well-formed column list the ids, which drag and drop go by, are distinct. */
  lemma WellFormedIdsUnique(cols: seq<Column>)
    requires WellFormed(cols)
    ensures forall i, j :: 0 <= i < j < |cols| ==> cols[i].id != cols[j].id
  {
    DefaultFieldsWellFormed();
    DefaultFieldsInCatalogue();
    CataloguePathStarts();
    forall i, j | 0 <= i < j < |cols| ensures cols[i].id != cols[j].id {
      var a, b := cols[i], cols[j];
      if FromCatalogue(a) && FromCatalogue(b) {
      } else if FromCatalogue(a) {
        var k :| 0 <= k < |Catalogue| && Catalogue[k] == FieldOption(a.title, a.path);
      } else if FromCatalogue(b) {
        var k :| 0 <= k < |Catalogue| && Catalogue[k] == FieldOption(b.title, b.path);
      } else {
        var x :| 0 <= x < |DefaultFields| && DefaultFields[x] == a;
        var y :| 0 <= y < |DefaultFields| && DefaultFields[y] == b;
        assert x != y;
      }
    }
  }

  /** No path occurs twice in `paths`, as in the selection a multi-select hands back. */
  predicate NoRepeats(paths: seq<string>) {
    forall i, j :: 0 <= i < j < |paths| ==> paths[i] != paths[j]
  }

  /** The draft of a well-formed column list has no repeated path. */
  lemma WellFormedPathsNoRepeats(cols: seq<Column>)
    requires WellFormed(cols)
    ensures NoRepeats(Paths(cols))
  {
  }

  lemma {:induction false} KnownPathsUnique(prev: seq<Column>, draft: seq<string>)
    requires NoRepeats(draft)
    ensures forall i, j :: 0 <= i < j < |KnownPaths(prev, draft)| ==> KnownPaths(prev, draft)[i] != KnownPaths(prev, draft)[j]
  {
    if draft != [] {
      KnownPathsUnique(prev, draft[1..]);
      assert draft[0] !in draft[1..];
    }
  }

  /** Saving a draft without repeated paths keeps the column list well formed. */
  lemma SaveWellFormed(prev: seq<Column>, draft: seq<string>)
    requires WellFormed(prev)
    requires NoRepeats(draft)
    ensures WellFormed(SaveColumns(prev, draft))
  {
    var r := SaveColumns(prev, draft);
    SavePaths(prev, draft);
    KnownPathsUnique(prev, draft);
    assert forall i :: 0 <= i < |r| ==> Paths(r)[i] == r[i].path;
    SaveColumnOrigin(prev, draft);
    forall i | 0 <= i < |r| ensures r[i] in DefaultFields || FromCatalogue(r[i]) {
      if r[i].path in Paths(prev) {
        var j :| IsLastWithPath(prev, j) && prev[j] == r[i];
      }
    }
  }

  /** The index in the old list of the element a move puts at `k`. */
  function MoveSource(k: nat, from: nat, to: nat): nat {
    if k == to then from
    else
      var q := if k < to then k else k - 1;
      if q < from then q else q + 1
  }

  lemma ArrayMoveAt<T>(s: seq<T>, from: nat, to: nat, k: nat)
    requires from < |s| && to < |s| && k < |s|
    ensures MoveSource(k, from, to) < |s|
    ensures ArrayMove(s, from, to)[k] == s[MoveSource(k, from, to)]
  {
    var r := ArrayMove(s, from, to);
    if k != to {
      assert r[k] == RemoveAt(r, to)[if k < to then k else k - 1];
    }
  }

  lemma MovePathsUnique(s: seq<Column>, from: nat, to: nat)
    requires from < |s| && to < |s| && PathsUnique(s)
    ensures PathsUnique(ArrayMove(s, from, to))
  {
    var r := ArrayMove(s, from, to);
    forall i, j | 0 <= i < j < |r| ensures r[i].path != r[j].path {
      ArrayMoveAt(s, from, to, i);
      ArrayMoveAt(s, from, to, j);
      assert MoveSource(i, from, to) != MoveSource(j, from, to);
    }
  }

  /** A drag keeps the column list well formed. */
  lemma ReorderWellFormed(cols: seq<Column>, activeId: string, overId: Option<string>)
    requires Moves(activeId, overId) ==> IndexOfId(cols, activeId) >= 0 && IndexOfId(cols, overId.value) >= 0
    requires WellFormed(cols)
    ensures WellFormed(Reorder(cols, activeId, overId))
  {
    var r := Reorder(cols, activeId, overId);
    if Moves(activeId, overId) {
      MovePathsUnique(cols, IndexOfId(cols, activeId), IndexOfId(cols, overId.value));
      forall i | 0 <= i < |r| ensures r[i] in DefaultFields || FromCatalogue(r[i]) {
        assert r[i] in multiset(cols);
      }
    }
  }
}
