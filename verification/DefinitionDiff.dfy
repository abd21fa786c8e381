/**
 What changed in a tool definition (tool_definition_diff.go): one entry per
 changed path, from the pinned definition to the one sent. Scalars compare as
 they are spelled, object keys in no order.
 */
module DefinitionDiff {
  import opened Wrappers
  import opened OrderedJson

  datatype Step = Key(key: string) | Item(i: nat)

  type Path = seq<Step>

  datatype Kind =
    | Added
    | Removed
    | Changed(before: Json, after: Json)
    | MembersChanged(added: seq<Json>, removed: seq<Json>)
    | Reordered
    | CountChanged(had: nat, has: nat)

  datatype Change = Change(path: Path, kind: Kind)

  /** The keys of a set in the order they are visited: each once. */
  type KeyOrder = set<string> -> seq<string>

  ghost predicate ListsEachOnce(order: KeyOrder) {
    forall ks :: EachOnce(order(ks), ks)
  }

  ghost predicate EachOnce(xs: seq<string>, ks: set<string>) {
    && (forall k :: k in xs <==> k in ks)
    && (forall i, j :: 0 <= i < j < |xs| ==> xs[i] != xs[j])
  }

  function Keys(v: Json): set<string>
    requires v.Object?
  {
    set i | 0 <= i < |v.members| :: v.members[i].key
  }

  /** The value of a key the object has. */
  function At(v: Json, k: string): (w: Json)
    requires v.Object? && k in Keys(v)
    ensures w < v
  {
    KeyFound(v.members, k);
    v.members[Index(v.members, k)].value
  }

  lemma KeyFound(ms: seq<Member<string, Json>>, k: string)
    requires exists i :: 0 <= i < |ms| && ms[i].key == k
    ensures Has(ms, k)
  {
  }

  predicate IsScalar(v: Json) { !v.List? && !v.Object? }

  predicate AllScalars(vs: seq<Json>) { forall i :: 0 <= i < |vs| ==> IsScalar(vs[i]) }

  // --- The diff ---

  function Members(vs: seq<Json>): set<Json> { set i | 0 <= i < |vs| :: vs[i] }

  /** The members of a list that are not among the others, each once, in order. */
  function Missing(vs: seq<Json>, others: set<Json>): seq<Json> {
    if vs == [] then [] else
      var front, last := Missing(vs[..|vs| - 1], others), vs[|vs| - 1];
      if last in others || last in front then front else front + [last]
  }

  function ScalarListChange(old_: seq<Json>, cur: seq<Json>): Kind {
    var added, removed := Missing(cur, Members(old_)), Missing(old_, Members(cur));
    if |added| + |removed| > 0 then MembersChanged(added, removed)
    else if |old_| == |cur| then Reordered
    else CountChanged(|old_|, |cur|)
  }

  /** diffValues. */
  function Diff(order: KeyOrder, path: Path, a: Json, b: Json): seq<Change>
    decreases a, 2, 0
  {
    if a.Object? && b.Object? then DiffKeys(order, path, a, b, order(Keys(a) + Keys(b)))
    else if a.List? && b.List? then DiffLists(order, path, a, b)
    else if a == b then []
    else [Change(path, Changed(a, b))]
  }

  /** diffObjects, over these keys. */
  function DiffKeys(order: KeyOrder, path: Path, a: Json, b: Json, ks: seq<string>): seq<Change>
    requires a.Object? && b.Object?
    decreases a, 1, |ks|
  {
    if ks == [] then []
    else DiffKeys(order, path, a, b, ks[..|ks| - 1]) + DiffKey(order, path, a, b, ks[|ks| - 1])
  }

  function DiffKey(order: KeyOrder, path: Path, a: Json, b: Json, k: string): seq<Change>
    requires a.Object? && b.Object?
    decreases a, 0, 0
  {
    var p := path + [Key(k)];
    if k in Keys(a) && k in Keys(b) then Diff(order, p, At(a, k), At(b, k))
    else if k in Keys(b) then [Change(p, Added)]
    else if k in Keys(a) then [Change(p, Removed)]
    else []
  }

  /** diffArrays. */
  function DiffLists(order: KeyOrder, path: Path, a: Json, b: Json): seq<Change>
    requires a.List? && b.List?
    decreases a, 1, |a.items| + 1
  {
    if AllScalars(a.items) && AllScalars(b.items) then
      if a.items == b.items then [] else [Change(path, ScalarListChange(a.items, b.items))]
    else if |a.items| != |b.items| then [Change(path, CountChanged(|a.items|, |b.items|))]
    else DiffItems(order, path, a, b, |a.items|)
  }

  function DiffItems(order: KeyOrder, path: Path, a: Json, b: Json, n: nat): seq<Change>
    requires a.List? && b.List? && n <= |a.items| && |a.items| == |b.items|
    decreases a, 1, n
  {
    if n == 0 then []
    else DiffItems(order, path, a, b, n - 1) + Diff(order, path + [Item(n - 1)], a.items[n - 1], b.items[n - 1])
  }

  /** The entries as they are collected. */
  class Report {
    const order: KeyOrder
    var out: seq<Change>

    constructor (order: KeyOrder)
      ensures this.order == order && out == []
    {
      this.order := order;
      out := [];
    }

    method DiffValues(path: Path, a: Json, b: Json)
      modifies this
      ensures out == old(out) + Diff(order, path, a, b)
      decreases a, 1
    {
      if a.Object? && b.Object? {
        DiffObjects(path, a, b);
        return;
      }
      if a.List? && b.List? {
        DiffArrays(path, a, b);
        return;
      }
      if a == b {
        return;
      }
      out := out + [Change(path, Changed(a, b))];
    }

    method DiffObjects(path: Path, a: Json, b: Json)
      requires a.Object? && b.Object?
      modifies this
      ensures out == old(out) + DiffKeys(order, path, a, b, order(Keys(a) + Keys(b)))
      decreases a, 0
    {
      var ks := order(Keys(a) + Keys(b));
      for i := 0 to |ks|
        invariant out == old(out) + DiffKeys(order, path, a, b, ks[..i])
      {
        assert ks[..i + 1][..i] == ks[..i];
        var k := ks[i];
        if k !in Keys(a) {
          if k in Keys(b) {
            out := out + [Change(path + [Key(k)], Added)];
          }
        } else if k !in Keys(b) {
          out := out + [Change(path + [Key(k)], Removed)];
        } else {
          DiffValues(path + [Key(k)], At(a, k), At(b, k));
        }
      }
      assert ks[..|ks|] == ks;
    }

    method DiffArrays(path: Path, a: Json, b: Json)
      requires a.List? && b.List?
      modifies this
      ensures out == old(out) + DiffLists(order, path, a, b)
      decreases a, 0
    {
      if AllScalars(a.items) && AllScalars(b.items) {
        if a.items == b.items {
          return;
        }
        var added := ListMissing(b.items, Members(a.items));
        var removed := ListMissing(a.items, Members(b.items));
        if |added| + |removed| > 0 {
          out := out + [Change(path, MembersChanged(added, removed))];
        } else if |a.items| == |b.items| {
          out := out + [Change(path, Reordered)];
        } else {
          out := out + [Change(path, CountChanged(|a.items|, |b.items|))];
        }
        return;
      }
      if |a.items| != |b.items| {
        out := out + [Change(path, CountChanged(|a.items|, |b.items|))];
        return;
      }
      for i := 0 to |a.items|
        invariant out == old(out) + DiffItems(order, path, a, b, i)
      {
        DiffValues(path + [Item(i)], a.items[i], b.items[i]);
      }
    }
  }

  /** The loop of memberChanges. */
  method ListMissing(vs: seq<Json>, others: set<Json>) returns (names: seq<Json>)
    ensures names == Missing(vs, others)
  {
    names := [];
    var seen: set<Json> := {};
    for i := 0 to |vs|
      invariant names == Missing(vs[..i], others)
      invariant forall v :: v in seen <==> v in names
    {
      assert vs[..i + 1][..i] == vs[..i];
      if vs[i] !in others && vs[i] !in seen {
        seen := seen + {vs[i]};
        names := names + [vs[i]];
      }
    }
    assert vs[..|vs|] == vs;
  }

  // --- Sameness ---

  /** The same JSON value: objects with the same keys and the same values under them, whatever the order. */
  predicate Same(a: Json, b: Json)
    decreases a
  {
    if a.Object? && b.Object? then
      Keys(a) == Keys(b) && forall k :: k in Keys(a) ==> Same(At(a, k), At(b, k))
    else if a.List? && b.List? then
      |a.items| == |b.items| && forall i :: 0 <= i < |a.items| ==> Same(a.items[i], b.items[i])
    else a == b
  }

  // --- Nothing is reported exactly when nothing changed ---

  lemma {:induction false} NoEntryIffSame(order: KeyOrder, path: Path, a: Json, b: Json)
    requires ListsEachOnce(order)
    ensures Diff(order, path, a, b) == [] <==> Same(a, b)
    decreases a, 2, 0
  {
    if a.Object? && b.Object? {
      var ks := order(Keys(a) + Keys(b));
      assert EachOnce(ks, Keys(a) + Keys(b));
      NoKeyEntryIff(order, path, a, b, ks);
      assert Same(a, b) <==> forall k :: k in ks ==> SameAt(a, b, k);
    } else if a.List? && b.List? {
      if AllScalars(a.items) && AllScalars(b.items) {
        ScalarsSame(a.items, b.items);
      } else if |a.items| == |b.items| {
        NoItemEntryIff(order, path, a, b, |a.items|);
      }
    }
  }

  predicate SameAt(a: Json, b: Json, k: string)
    requires a.Object? && b.Object?
  {
    (k in Keys(a) <==> k in Keys(b)) && (k in Keys(a) && k in Keys(b) ==> Same(At(a, k), At(b, k)))
  }

  lemma {:induction false} NoKeyEntryIff(order: KeyOrder, path: Path, a: Json, b: Json, ks: seq<string>)
    requires ListsEachOnce(order) && a.Object? && b.Object?
    ensures DiffKeys(order, path, a, b, ks) == [] <==> forall k :: k in ks ==> SameAt(a, b, k)
    decreases a, 1, |ks|
  {
    if ks != [] {
      var front, k := ks[..|ks| - 1], ks[|ks| - 1];
      NoKeyEntryIff(order, path, a, b, front);
      if k in Keys(a) && k in Keys(b) {
        NoEntryIffSame(order, path + [Key(k)], At(a, k), At(b, k));
      }
      assert DiffKey(order, path, a, b, k) == [] <==> SameAt(a, b, k);
      assert forall x :: x in ks <==> x in front || x == k;
      assert |DiffKeys(order, path, a, b, ks)| == |DiffKeys(order, path, a, b, front)| + |DiffKey(order, path, a, b, k)|;
    }
  }

  lemma {:induction false} NoItemEntryIff(order: KeyOrder, path: Path, a: Json, b: Json, n: nat)
    requires ListsEachOnce(order) && a.List? && b.List? && n <= |a.items| && |a.items| == |b.items|
    ensures DiffItems(order, path, a, b, n) == [] <==> forall i :: 0 <= i < n ==> Same(a.items[i], b.items[i])
    decreases a, 1, n
  {
    if n > 0 {
      NoItemEntryIff(order, path, a, b, n - 1);
      NoEntryIffSame(order, path + [Item(n - 1)], a.items[n - 1], b.items[n - 1]);
    }
  }

  lemma ScalarsSame(xs: seq<Json>, ys: seq<Json>)
    requires AllScalars(xs) && AllScalars(ys)
    ensures Same(List(xs), List(ys)) <==> xs == ys
  {
  }

  // --- Every entry is a difference, and every difference has an entry ---

  function ValueAt(v: Json, path: Path): Option<Json> {
    if path == [] then Some(v)
    else
      match path[0]
      case Key(k) => if v.Object? && k in Keys(v) then ValueAt(At(v, k), path[1..]) else None
      case Item(i) => if v.List? && i < |v.items| then ValueAt(v.items[i], path[1..]) else None
  }

  predicate Differ(x: Option<Json>, y: Option<Json>) {
    if x.Some? && y.Some? then !Same(x.value, y.value) else x != y
  }

  /** The entry says what happened at its path. */
  predicate Tells(kind: Kind, x: Option<Json>, y: Option<Json>) {
    match kind
    case Added => x.None? && y.Some?
    case Removed => x.Some? && y.None?
    case Changed(before, after) => x == Some(before) && y == Some(after) && !Same(before, after)
    case MembersChanged(added, removed) =>
      && x.Some? && y.Some? && x.value.List? && y.value.List? && added + removed != []
      && Members(added) == Members(y.value.items) - Members(x.value.items)
      && Members(removed) == Members(x.value.items) - Members(y.value.items)
    case Reordered =>
      && x.Some? && y.Some? && x.value.List? && y.value.List? && x != y
      && |x.value.items| == |y.value.items| && Members(x.value.items) == Members(y.value.items)
    case CountChanged(had, has) =>
      && x.Some? && y.Some? && x.value.List? && y.value.List?
      && had == |x.value.items| && has == |y.value.items| && had != has
  }

  lemma {:induction false} MissingMeans(vs: seq<Json>, others: set<Json>)
    ensures Members(Missing(vs, others)) == Members(vs) - others
    ensures forall i, j :: 0 <= i < j < |Missing(vs, others)| ==> Missing(vs, others)[i] != Missing(vs, others)[j]
  {
    if vs != [] {
      var front, last := vs[..|vs| - 1], vs[|vs| - 1];
      MissingMeans(front, others);
      MembersAppend(front, last);
      MembersAppend(Missing(front, others), last);
      assert vs == front + [last];
    }
  }

  lemma MembersAppend(vs: seq<Json>, v: Json)
    ensures Members(vs + [v]) == Members(vs) + {v}
  {
    var all := vs + [v];
    assert all[|vs|] == v && forall i :: 0 <= i < |vs| ==> all[i] == vs[i];
  }

  lemma EmptyMembers(vs: seq<Json>)
    ensures Members(vs) == {} <==> vs == []
  {
    if vs != [] {
      assert vs[0] in Members(vs);
    }
  }

  lemma ScalarListTold(xs: seq<Json>, ys: seq<Json>)
    requires xs != ys
    ensures Tells(ScalarListChange(xs, ys), Some(List(xs)), Some(List(ys)))
  {
    MissingMeans(ys, Members(xs));
    MissingMeans(xs, Members(ys));
    EmptyMembers(Missing(ys, Members(xs)));
    EmptyMembers(Missing(xs, Members(ys)));
  }

  /** An entry under path tells of the two values there. */
  ghost predicate ToldUnder(c: Change, path: Path, a: Json, b: Json) {
    && path <= c.path
    && Tells(c.kind, ValueAt(a, c.path[|path|..]), ValueAt(b, c.path[|path|..]))
  }

  ghost predicate AllTold(cs: seq<Change>, path: Path, a: Json, b: Json) {
    forall i :: 0 <= i < |cs| ==> ToldUnder(cs[i], path, a, b)
  }

  lemma ToldHere(kind: Kind, path: Path, a: Json, b: Json)
    requires Tells(kind, Some(a), Some(b))
    ensures AllTold([Change(path, kind)], path, a, b)
  {
    assert path[|path|..] == [];
  }

  /** One step up. */
  lemma ToldAbove(cs: seq<Change>, path: Path, step: Step, a: Json, b: Json, x: Json, y: Json)
    requires AllTold(cs, path + [step], x, y)
    requires ValueAt(a, [step]) == Some(x) && ValueAt(b, [step]) == Some(y)
    ensures AllTold(cs, path, a, b)
  {
    forall i | 0 <= i < |cs|
      ensures ToldUnder(cs[i], path, a, b)
    {
      var p := cs[i].path;
      assert ToldUnder(cs[i], path + [step], x, y);
      assert p[|path|] == step by {
        assert (path + [step])[|path|] == step;
      }
      assert path <= p by {
        assert p[..|path|] == (path + [step])[..|path|] == path;
      }
      assert p[|path|..][1..] == p[|path| + 1..];
      assert [step][1..] == [];
    }
  }

  lemma {:induction false} EveryEntryTold(order: KeyOrder, path: Path, a: Json, b: Json)
    ensures AllTold(Diff(order, path, a, b), path, a, b)
    decreases a, 2, 0
  {
    if a.Object? && b.Object? {
      EveryKeyTold(order, path, a, b, order(Keys(a) + Keys(b)));
    } else if a.List? && b.List? {
      if AllScalars(a.items) && AllScalars(b.items) {
        if a.items != b.items {
          ScalarListTold(a.items, b.items);
          ToldHere(ScalarListChange(a.items, b.items), path, a, b);
        }
      } else if |a.items| != |b.items| {
        ToldHere(CountChanged(|a.items|, |b.items|), path, a, b);
      } else {
        EveryItemTold(order, path, a, b, |a.items|);
      }
    } else if a != b {
      ToldHere(Changed(a, b), path, a, b);
    }
  }

  lemma {:induction false} EveryKeyTold(order: KeyOrder, path: Path, a: Json, b: Json, ks: seq<string>)
    requires a.Object? && b.Object?
    ensures AllTold(DiffKeys(order, path, a, b, ks), path, a, b)
    decreases a, 1, |ks|
  {
    if ks != [] {
      var k := ks[|ks| - 1];
      EveryKeyTold(order, path, a, b, ks[..|ks| - 1]);
      KeyTold(order, path, a, b, k);
    }
  }

  lemma {:induction false} KeyTold(order: KeyOrder, path: Path, a: Json, b: Json, k: string)
    requires a.Object? && b.Object?
    ensures AllTold(DiffKey(order, path, a, b, k), path, a, b)
    decreases a, 0, 0
  {
    var p := path + [Key(k)];
    if k in Keys(a) && k in Keys(b) {
      EveryEntryTold(order, p, At(a, k), At(b, k));
      assert [Key(k)][1..] == [];
      ToldAbove(DiffKey(order, path, a, b, k), path, Key(k), a, b, At(a, k), At(b, k));
    } else {
      assert path <= p && p[|path|..] == [Key(k)] && [Key(k)][1..] == [];
      assert ValueAt(a, [Key(k)]) == (if k in Keys(a) then Some(At(a, k)) else None);
      assert ValueAt(b, [Key(k)]) == (if k in Keys(b) then Some(At(b, k)) else None);
    }
  }

  lemma {:induction false} EveryItemTold(order: KeyOrder, path: Path, a: Json, b: Json, n: nat)
    requires a.List? && b.List? && n <= |a.items| && |a.items| == |b.items|
    ensures AllTold(DiffItems(order, path, a, b, n), path, a, b)
    decreases a, 1, n
  {
    if n > 0 {
      var x, y := a.items[n - 1], b.items[n - 1];
      EveryItemTold(order, path, a, b, n - 1);
      EveryEntryTold(order, path + [Item(n - 1)], x, y);
      assert [Item(n - 1)][1..] == [];
      ToldAbove(Diff(order, path + [Item(n - 1)], x, y), path, Item(n - 1), a, b, x, y);
    }
  }

  /** One path is at or below the other. */
  predicate Meet(p: Path, q: Path) { p <= q || q <= p }

  ghost predicate Named(cs: seq<Change>, p: Path) {
    exists i :: 0 <= i < |cs| && Meet(cs[i].path, p)
  }

  lemma NamedIn(cs: seq<Change>, more: seq<Change>, p: Path)
    ensures Named(cs + more, p) <==> Named(cs, p) || Named(more, p)
  {
    var all := cs + more;
    if Named(cs, p) {
      var i :| 0 <= i < |cs| && Meet(cs[i].path, p);
      assert Meet(all[i].path, p);
    }
    if Named(more, p) {
      var i :| 0 <= i < |more| && Meet(more[i].path, p);
      assert Meet(all[|cs| + i].path, p);
    }
  }

  lemma NamedHere(c: Change, p: Path)
    requires Meet(c.path, p)
    ensures Named([c], p)
  {
    assert Meet([c][0].path, p);
  }

  lemma {:induction false} SameEverywhere(a: Json, b: Json, q: Path)
    requires Same(a, b)
    ensures !Differ(ValueAt(a, q), ValueAt(b, q))
    decreases |q|
  {
    if q != [] {
      match q[0]
      case Key(k) =>
        if a.Object? && b.Object? && k in Keys(a) {
          SameEverywhere(At(a, k), At(b, k), q[1..]);
        }
      case Item(i) =>
        if a.List? && b.List? && i < |a.items| {
          SameEverywhere(a.items[i], b.items[i], q[1..]);
        }
    }
  }

  /** Wherever the two definitions differ, some entry is at that path, above it or below it. */
  lemma {:induction false} EveryDifferenceNamed(order: KeyOrder, path: Path, a: Json, b: Json, q: Path)
    requires ListsEachOnce(order) && Differ(ValueAt(a, q), ValueAt(b, q))
    ensures Named(Diff(order, path, a, b), path + q)
    decreases a, 2, 0
  {
    NoEntryIffSame(order, path, a, b);
    if Same(a, b) {
      SameEverywhere(a, b, q);
    }
    var cs := Diff(order, path, a, b);
    assert cs != [];
    if a.Object? && b.Object? && q != [] {
      var k := q[0].key;
      var ks := order(Keys(a) + Keys(b));
      assert EachOnce(ks, Keys(a) + Keys(b));
      KeyDifferenceNamed(order, path, a, b, q, k);
      InKeys(order, path, a, b, ks, k, path + q);
    } else if a.List? && b.List? && |a.items| == |b.items| && !(AllScalars(a.items) && AllScalars(b.items)) && q != [] {
      var i := q[0].i;
      EveryDifferenceNamed(order, path + [Item(i)], a.items[i], b.items[i], q[1..]);
      assert path + [Item(i)] + q[1..] == path + q;
      InItems(order, path, a, b, |a.items|, i, path + q);
    } else {
      EveryEntryTold(order, path, a, b);
      assert ToldUnder(cs[0], path, a, b);
      if q == [] {
        assert path + q == path;
      } else {
        assert cs[0].path == path && path <= path + q;
      }
      assert Meet(cs[0].path, path + q);
    }
  }

  lemma {:induction false} KeyDifferenceNamed(order: KeyOrder, path: Path, a: Json, b: Json, q: Path, k: string)
    requires ListsEachOnce(order) && a.Object? && b.Object? && q != [] && q[0] == Key(k)
    requires Differ(ValueAt(a, q), ValueAt(b, q))
    ensures k in Keys(a) + Keys(b) && Named(DiffKey(order, path, a, b, k), path + q)
    decreases a, 1, 0
  {
    var p := path + [Key(k)];
    assert path + q == p + q[1..];
    if k in Keys(a) && k in Keys(b) {
      EveryDifferenceNamed(order, p, At(a, k), At(b, k), q[1..]);
    } else {
      NamedHere(DiffKey(order, path, a, b, k)[0], path + q);
    }
  }

  lemma {:induction false} InKeys(order: KeyOrder, path: Path, a: Json, b: Json, ks: seq<string>, k: string, p: Path)
    requires a.Object? && b.Object? && k in ks && Named(DiffKey(order, path, a, b, k), p)
    ensures Named(DiffKeys(order, path, a, b, ks), p)
    decreases |ks|
  {
    var front, last := ks[..|ks| - 1], ks[|ks| - 1];
    NamedIn(DiffKeys(order, path, a, b, front), DiffKey(order, path, a, b, last), p);
    if last != k {
      InKeys(order, path, a, b, front, k, p);
    }
  }

  lemma {:induction false} InItems(order: KeyOrder, path: Path, a: Json, b: Json, n: nat, i: nat, p: Path)
    requires a.List? && b.List? && i < n <= |a.items| && |a.items| == |b.items|
    requires Named(Diff(order, path + [Item(i)], a.items[i], b.items[i]), p)
    ensures Named(DiffItems(order, path, a, b, n), p)
    decreases n
  {
    NamedIn(DiffItems(order, path, a, b, n - 1), Diff(order, path + [Item(n - 1)], a.items[n - 1], b.items[n - 1]), p);
    if n - 1 != i {
      InItems(order, path, a, b, n - 1, i, p);
    }
  }

  // --- How deep an entry sits ---

  /**
   The diff goes into these two rather than comparing them: two objects, or two
   lists of one length that are not all scalars.
   */
  predicate Opens(a: Json, b: Json) {
    || (a.Object? && b.Object?)
    || (a.List? && b.List? && |a.items| == |b.items| && !(AllScalars(a.items) && AllScalars(b.items)))
  }

  /** Following q, step by step through values that open, ends at a difference that opens no further. */
  predicate LeafAt(a: Json, b: Json, q: Path)
    decreases |q|
  {
    if q == [] then !Opens(a, b) && !Same(a, b)
    else
      Opens(a, b) &&
      match q[0]
      case Key(k) =>
        a.Object? &&
        if k in Keys(a) && k in Keys(b) then LeafAt(At(a, k), At(b, k), q[1..])
        else |q| == 1 && (k in Keys(a) || k in Keys(b))
      case Item(i) => a.List? && i < |a.items| && LeafAt(a.items[i], b.items[i], q[1..])
  }

  ghost predicate HasEntry(cs: seq<Change>, p: Path) {
    exists i :: 0 <= i < |cs| && cs[i].path == p
  }

  lemma HasIn(cs: seq<Change>, more: seq<Change>, p: Path)
    ensures HasEntry(cs + more, p) <==> HasEntry(cs, p) || HasEntry(more, p)
  {
    var all := cs + more;
    if HasEntry(cs, p) {
      var i :| 0 <= i < |cs| && cs[i].path == p;
      assert all[i].path == p;
    }
    if HasEntry(more, p) {
      var i :| 0 <= i < |more| && more[i].path == p;
      assert all[|cs| + i].path == p;
    }
  }

  lemma OneHas(c: Change, p: Path)
    ensures HasEntry([c], p) <==> c.path == p
  {
    assert [c][0] == c;
  }

  /** Entries under another step are elsewhere. */
  lemma OtherStep(cs: seq<Change>, path: Path, step: Step, q: Path)
    requires forall i :: 0 <= i < |cs| ==> path + [step] <= cs[i].path
    requires q == [] || q[0] != step
    ensures !HasEntry(cs, path + q)
  {
    forall i | 0 <= i < |cs|
      ensures cs[i].path != path + q
    {
      assert (path + [step])[|path|] == step && path + [step] <= cs[i].path;
      if q != [] {
        assert (path + q)[|path|] == q[0];
      }
    }
  }

  lemma EntriesBelow(order: KeyOrder, path: Path, a: Json, b: Json)
    ensures forall i :: 0 <= i < |Diff(order, path, a, b)| ==> path <= Diff(order, path, a, b)[i].path
  {
    EveryEntryTold(order, path, a, b);
    forall i | 0 <= i < |Diff(order, path, a, b)|
      ensures path <= Diff(order, path, a, b)[i].path
    {
      assert ToldUnder(Diff(order, path, a, b)[i], path, a, b);
    }
  }

  lemma KeyEntriesBelow(order: KeyOrder, path: Path, a: Json, b: Json, k: string)
    requires a.Object? && b.Object?
    ensures forall i :: 0 <= i < |DiffKey(order, path, a, b, k)| ==> path + [Key(k)] <= DiffKey(order, path, a, b, k)[i].path
  {
    if k in Keys(a) && k in Keys(b) {
      EntriesBelow(order, path + [Key(k)], At(a, k), At(b, k));
    }
  }

  lemma {:induction false} KeysHave(order: KeyOrder, path: Path, a: Json, b: Json, ks: seq<string>, q: Path)
    requires a.Object? && b.Object?
    ensures HasEntry(DiffKeys(order, path, a, b, ks), path + q) <==>
            q != [] && q[0].Key? && q[0].key in ks && HasEntry(DiffKey(order, path, a, b, q[0].key), path + q)
    decreases |ks|
  {
    if ks != [] {
      var front, k := ks[..|ks| - 1], ks[|ks| - 1];
      KeysHave(order, path, a, b, front, q);
      HasIn(DiffKeys(order, path, a, b, front), DiffKey(order, path, a, b, k), path + q);
      assert forall x :: x in ks <==> x in front || x == k;
      if q == [] || q[0] != Key(k) {
        KeyEntriesBelow(order, path, a, b, k);
        OtherStep(DiffKey(order, path, a, b, k), path, Key(k), q);
      }
    }
  }

  lemma {:induction false} ItemsHave(order: KeyOrder, path: Path, a: Json, b: Json, n: nat, q: Path)
    requires a.List? && b.List? && n <= |a.items| && |a.items| == |b.items|
    ensures HasEntry(DiffItems(order, path, a, b, n), path + q) <==>
            q != [] && q[0].Item? && q[0].i < n &&
            HasEntry(Diff(order, path + [q[0]], a.items[q[0].i], b.items[q[0].i]), path + q)
    decreases n
  {
    if n > 0 {
      var cs := Diff(order, path + [Item(n - 1)], a.items[n - 1], b.items[n - 1]);
      ItemsHave(order, path, a, b, n - 1, q);
      HasIn(DiffItems(order, path, a, b, n - 1), cs, path + q);
      if q == [] || q[0] != Item(n - 1) {
        EntriesBelow(order, path + [Item(n - 1)], a.items[n - 1], b.items[n - 1]);
        OtherStep(cs, path, Item(n - 1), q);
      }
    }
  }

  /** Two values that do not open have one entry, at their own path, or none. */
  lemma ClosedHas(order: KeyOrder, path: Path, a: Json, b: Json, q: Path)
    requires ListsEachOnce(order) && !Opens(a, b)
    ensures HasEntry(Diff(order, path, a, b), path + q) <==> q == [] && !Same(a, b)
  {
    NoEntryIffSame(order, path, a, b);
    var cs := Diff(order, path, a, b);
    assert path + q == path <==> q == [] by {
      assert |path + q| == |path| + |q|;
    }
    if cs != [] {
      assert cs == [cs[0]] && cs[0].path == path;
      OneHas(cs[0], path + q);
    }
  }

  /**
   The entries sit exactly at the deepest differences: there is one at a path if
   and only if the path leads through values that both sides open to a key that
   only one side has, or to two different values that open no further.
   */
  lemma {:induction false} EntriesAtLeaves(order: KeyOrder, path: Path, a: Json, b: Json, q: Path)
    requires ListsEachOnce(order)
    ensures HasEntry(Diff(order, path, a, b), path + q) <==> LeafAt(a, b, q)
    decreases |q|
  {
    if !Opens(a, b) {
      ClosedHas(order, path, a, b, q);
    } else if a.Object? {
      var ks := order(Keys(a) + Keys(b));
      assert EachOnce(ks, Keys(a) + Keys(b));
      KeysHave(order, path, a, b, ks, q);
      if q != [] && q[0].Key? {
        KeyAtLeaves(order, path, a, b, q);
      }
    } else {
      ItemsHave(order, path, a, b, |a.items|, q);
      if q != [] && q[0].Item? && q[0].i < |a.items| {
        EntriesAtLeaves(order, path + [q[0]], a.items[q[0].i], b.items[q[0].i], q[1..]);
        assert path + [q[0]] + q[1..] == path + q;
      }
    }
  }

  lemma {:induction false} KeyAtLeaves(order: KeyOrder, path: Path, a: Json, b: Json, q: Path)
    requires ListsEachOnce(order) && a.Object? && b.Object? && q != [] && q[0].Key?
    ensures q[0].key in Keys(a) + Keys(b) && HasEntry(DiffKey(order, path, a, b, q[0].key), path + q) <==> LeafAt(a, b, q)
    decreases |q|, 0
  {
    var k := q[0].key;
    var p := path + [Key(k)];
    assert path + q == p + q[1..];
    if k in Keys(a) && k in Keys(b) {
      EntriesAtLeaves(order, p, At(a, k), At(b, k), q[1..]);
    } else if k in Keys(a) || k in Keys(b) {
      OneHas(DiffKey(order, path, a, b, k)[0], path + q);
      assert p == p + q[1..] <==> q[1..] == [] by {
        assert |p + q[1..]| == |p| + |q[1..]|;
      }
    }
  }

  // --- One entry per path ---

  ghost predicate DistinctPaths(cs: seq<Change>) {
    forall i, j :: 0 <= i < j < |cs| ==> cs[i].path != cs[j].path
  }

  predicate Through(c: Change, n: nat, step: Step) { n < |c.path| && c.path[n] == step }

  predicate AllThrough(cs: seq<Change>, n: nat, steps: set<Step>) {
    forall i :: 0 <= i < |cs| ==> n < |cs[i].path| && cs[i].path[n] in steps
  }

  lemma JoinedPaths(cs: seq<Change>, more: seq<Change>, n: nat, steps: set<Step>, step: Step)
    requires DistinctPaths(cs) && DistinctPaths(more) && step !in steps
    requires AllThrough(cs, n, steps) && forall i :: 0 <= i < |more| ==> Through(more[i], n, step)
    ensures DistinctPaths(cs + more) && AllThrough(cs + more, n, steps + {step})
  {
    forall i, j | 0 <= i < |cs| && 0 <= j < |more|
      ensures cs[i].path != more[j].path
    {
      assert cs[i].path[n] in steps && Through(more[j], n, step);
    }
  }

  lemma BelowStep(cs: seq<Change>, path: Path, step: Step, x: Json, y: Json)
    requires AllTold(cs, path + [step], x, y)
    ensures forall i :: 0 <= i < |cs| ==> Through(cs[i], |path|, step)
  {
    forall i | 0 <= i < |cs|
      ensures Through(cs[i], |path|, step)
    {
      assert ToldUnder(cs[i], path + [step], x, y);
      assert (path + [step])[|path|] == step;
    }
  }

  /** No path is reported twice. */
  lemma {:induction false} OneEntryPerPath(order: KeyOrder, path: Path, a: Json, b: Json)
    requires ListsEachOnce(order)
    ensures DistinctPaths(Diff(order, path, a, b))
    decreases a, 2, 0
  {
    if a.Object? && b.Object? {
      var ks := order(Keys(a) + Keys(b));
      assert EachOnce(ks, Keys(a) + Keys(b));
      OneEntryPerKey(order, path, a, b, ks);
    } else if a.List? && b.List? && |a.items| == |b.items| && !(AllScalars(a.items) && AllScalars(b.items)) {
      OneEntryPerItem(order, path, a, b, |a.items|);
    }
  }

  function KeySteps(ks: seq<string>): set<Step> { set i | 0 <= i < |ks| :: Key(ks[i]) }

  lemma KeyStepsAppend(ks: seq<string>, k: string)
    requires k !in ks
    ensures KeySteps(ks + [k]) == KeySteps(ks) + {Key(k)} && Key(k) !in KeySteps(ks)
  {
    var all := ks + [k];
    assert all[|ks|] == k && forall i :: 0 <= i < |ks| ==> all[i] == ks[i];
  }

  lemma {:induction false} OneEntryPerKey(order: KeyOrder, path: Path, a: Json, b: Json, ks: seq<string>)
    requires ListsEachOnce(order) && a.Object? && b.Object?
    requires forall i, j :: 0 <= i < j < |ks| ==> ks[i] != ks[j]
    ensures DistinctPaths(DiffKeys(order, path, a, b, ks))
    ensures AllThrough(DiffKeys(order, path, a, b, ks), |path|, KeySteps(ks))
    decreases a, 1, |ks|
  {
    if ks != [] {
      var front, k := ks[..|ks| - 1], ks[|ks| - 1];
      OneEntryPerKey(order, path, a, b, front);
      KeyStepsAppend(front, k);
      assert front + [k] == ks;
      if k in Keys(a) && k in Keys(b) {
        OneEntryPerPath(order, path + [Key(k)], At(a, k), At(b, k));
        EveryEntryTold(order, path + [Key(k)], At(a, k), At(b, k));
        BelowStep(DiffKey(order, path, a, b, k), path, Key(k), At(a, k), At(b, k));
      }
      JoinedPaths(DiffKeys(order, path, a, b, front), DiffKey(order, path, a, b, k), |path|, KeySteps(front), Key(k));
    }
  }

  function ItemSteps(n: nat): set<Step> { set i: nat | 0 <= i < n :: Item(i) }

  lemma {:induction false} OneEntryPerItem(order: KeyOrder, path: Path, a: Json, b: Json, n: nat)
    requires ListsEachOnce(order) && a.List? && b.List? && n <= |a.items| && |a.items| == |b.items|
    ensures DistinctPaths(DiffItems(order, path, a, b, n))
    ensures AllThrough(DiffItems(order, path, a, b, n), |path|, ItemSteps(n))
    decreases a, 1, n
  {
    if n > 0 {
      var x, y, step := a.items[n - 1], b.items[n - 1], Item(n - 1);
      OneEntryPerItem(order, path, a, b, n - 1);
      OneEntryPerPath(order, path + [step], x, y);
      EveryEntryTold(order, path + [step], x, y);
      BelowStep(Diff(order, path + [step], x, y), path, step, x, y);
      JoinedPaths(DiffItems(order, path, a, b, n - 1), Diff(order, path + [step], x, y), |path|, ItemSteps(n - 1), step);
      assert ItemSteps(n - 1) + {step} == ItemSteps(n);
    }
  }

  // --- The length of an entry ---

  const MAX_ENTRY := 160

  /** clipMiddle, on characters. */
  function ClipMiddle(s: string, limit: nat): string
    requires limit >= 1
  {
    if |s| <= limit then s else s[..limit / 3] + "…" + s[|s| - (limit - limit / 3 - 1)..]
  }

  /** An entry is at most limit long, is untouched if it fits, and otherwise keeps its beginning and its end. */
  lemma ClipMiddleBounds(s: string, limit: nat)
    requires limit >= 1
    ensures var t := ClipMiddle(s, limit);
            && |t| <= limit
            && (|s| <= limit ==> t == s)
            && (|s| > limit ==> |t| == limit && t[..limit / 3] == s[..limit / 3]
                                && t[limit / 3 + 1..] == s[|s| - (limit - limit / 3 - 1)..])
  {
  }
}
