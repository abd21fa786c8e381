/**
 The hook installer's edit of a settings file (gate_install.go): draftcat's
 entries are taken out of hooks.<event>, and on install one entry is put where
 the first of them was.
 */
module HookInstall {
  import opened Wrappers
  import opened OrderedJson

  type Members = seq<Member<string, Json>>

  const MARKER := " gate hook --format "

  predicate Contains(s: string, sub: string) {
    sub <= s || (s != "" && Contains(s[1..], sub))
  }

  predicate RunsDraftcat(ms: Members, key: string) {
    var v := Get(ms, key);
    v.Some? && v.value.Str? && Contains(v.value.s, MARKER)
  }

  /** isDraftcatHook. */
  predicate IsHook(v: Json) {
    v.Object? && (RunsDraftcat(v.members, "command") || RunsDraftcat(v.members, "bash") || RunsDraftcat(v.members, "powershell"))
  }

  // --- One list of entries ---

  function WithoutHooks(items: seq<Json>): seq<Json> {
    if items == [] then []
    else if IsHook(items[|items| - 1]) then WithoutHooks(items[..|items| - 1])
    else WithoutHooks(items[..|items| - 1]) + [items[|items| - 1]]
  }

  /** The list of a matcher group. */
  function Inner(v: Json): Option<seq<Json>> {
    if v.Object? && Get(v.members, "hooks").Some? && Get(v.members, "hooks").value.List?
    then Some(Get(v.members, "hooks").value.items) else None
  }

  /** What stays of an entry: nothing of draftcat's, and no group that this empties. */
  function Stripped(v: Json): Option<Json> {
    if IsHook(v) then None
    else if Inner(v).None? then Some(v)
    else
      var rest := WithoutHooks(Inner(v).value);
      if rest == [] && Inner(v).value != [] then None
      else if |rest| != |Inner(v).value| then Some(Object(Set(v.members, "hooks", List(rest))))
      else Some(v)
  }

  predicate HasHook(v: Json) {
    IsHook(v) || (Inner(v).Some? && exists i :: 0 <= i < |Inner(v).value| && IsHook(Inner(v).value[i]))
  }

  /** The entries that stay, in order. */
  function Kept(list: seq<Json>): seq<Json> {
    if list == [] then []
    else
      var last := Stripped(list[|list| - 1]);
      if last.Some? then Kept(list[..|list| - 1]) + [last.value] else Kept(list[..|list| - 1])
  }

  /** Where the first entry that goes was, among those that stay. */
  function Place(list: seq<Json>): Option<nat> {
    if list == [] then None
    else
      var before := Place(list[..|list| - 1]);
      if before.Some? then before
      else if Stripped(list[|list| - 1]).None? then Some(|Kept(list[..|list| - 1])|)
      else None
  }

  predicate Found(list: seq<Json>) {
    exists i :: 0 <= i < |list| && HasHook(list[i])
  }

  lemma {:induction false} PlaceInKept(list: seq<Json>)
    ensures Place(list).Some? ==> Place(list).value <= |Kept(list)|
  {
    if list != [] {
      PlaceInKept(list[..|list| - 1]);
    }
  }

  function Position(list: seq<Json>): (p: nat)
    ensures p <= |Kept(list)|
  {
    PlaceInKept(list);
    if Place(list).Some? then Place(list).value else |Kept(list)|
  }

  function Inserted(list: seq<Json>, entry: Json): seq<Json> {
    Kept(list)[..Position(list)] + [entry] + Kept(list)[Position(list)..]
  }

  // --- The whole file ---

  datatype InstallError = HooksNotObject | EventNotList

  datatype Result<+T> = Ok(value: T) | Err(error: InstallError)

  /** hooks.<event>, an empty list when there is none. */
  function EventList(root: Members, event: string): Result<seq<Json>> {
    var hooks := Get(root, "hooks");
    if hooks.None? then Ok([])
    else if !hooks.value.Object? then Err(HooksNotObject)
    else
      var list := Get(hooks.value.members, event);
      if list.None? then Ok([]) else if list.value.List? then Ok(list.value.items) else Err(EventNotList)
  }

  function HooksOf(root: Members): Members {
    var hooks := Get(root, "hooks");
    if hooks.Some? && hooks.value.Object? then hooks.value.members else []
  }

  function Install(root: Members, event: string, entry: Json): Result<Members> {
    var list := EventList(root, event);
    if list.Err? then Err(list.error)
    else Ok(Set(root, "hooks", Object(Set(HooksOf(root), event, List(Inserted(list.value, entry))))))
  }

  function Remove(root: Members, event: string): Result<Members> {
    var list := EventList(root, event);
    if list.Err? then Err(list.error)
    else if !Found(list.value) then Ok(root)
    else
      var hooks := HooksOf(root);
      if Kept(list.value) != [] then Ok(Set(root, "hooks", Object(Set(hooks, event, List(Kept(list.value))))))
      else if Del(hooks, event) == [] then Ok(Del(root, "hooks"))
      else Ok(Set(root, "hooks", Object(Del(hooks, event))))
  }

  /** One turn of the loop of upsertHookEntry: what stays of the entry. */
  method StripEntry(item: Json) returns (stays: Option<Json>, found: bool)
    ensures stays == Stripped(item) && (found <==> HasHook(item))
  {
    if !item.Object? {
      return Some(item), false;
    }
    if IsHook(item) {
      return None, true;
    }
    var inner := Inner(item);
    if inner.None? {
      return Some(item), false;
    }
    var rest;
    rest, found := StripGroup(inner.value);
    if |rest| == 0 && |inner.value| > 0 {
      return None, found;
    }
    if |rest| != |inner.value| {
      return Some(Object(Set(item.members, "hooks", List(rest)))), found;
    }
    return Some(item), found;
  }

  method StripEntries(list: seq<Json>) returns (kept: seq<Json>, insertAt: Option<nat>, found: bool)
    ensures kept == Kept(list) && insertAt == Place(list) && (found <==> Found(list))
  {
    kept, insertAt, found := [], None, false;
    for i := 0 to |list|
      invariant kept == Kept(list[..i]) && insertAt == Place(list[..i])
      invariant found <==> Found(list[..i])
    {
      assert list[..i + 1][..i] == list[..i];
      FoundAppend(list[..i], list[i]);
      assert list[..i] + [list[i]] == list[..i + 1];
      var stays, foundHere := StripEntry(list[i]);
      found := found || foundHere;
      if stays.Some? {
        kept := kept + [stays.value];
      } else if insertAt.None? {
        insertAt := Some(|kept|);
      }
    }
    assert list[..|list|] == list;
  }

  method StripGroup(inner: seq<Json>) returns (rest: seq<Json>, found: bool)
    ensures rest == WithoutHooks(inner)
    ensures found <==> exists i :: 0 <= i < |inner| && IsHook(inner[i])
  {
    rest, found := [], false;
    for i := 0 to |inner|
      invariant rest == WithoutHooks(inner[..i])
      invariant found <==> exists j :: 0 <= j < i && IsHook(inner[j])
    {
      assert inner[..i + 1][..i] == inner[..i];
      if IsHook(inner[i]) {
        found := true;
        continue;
      }
      rest := rest + [inner[i]];
    }
    assert inner[..|inner|] == inner;
  }

  lemma FoundAppend(list: seq<Json>, v: Json)
    ensures Found(list + [v]) <==> Found(list) || HasHook(v)
  {
    var all := list + [v];
    if Found(list) {
      var i :| 0 <= i < |list| && HasHook(list[i]);
      assert HasHook(all[i]);
    }
    if HasHook(v) {
      assert HasHook(all[|list|]);
    }
  }

  /** upsertHookEntry; entry is None on removal. */
  method UpsertHookEntry(root: Members, event: string, entry: Option<Json>) returns (r: Result<Members>, found: bool)
    ensures r == if entry.Some? then Install(root, event, entry.value) else Remove(root, event)
    ensures r.Ok? ==> (found <==> Found(EventList(root, event).value))
  {
    var tree := root;
    var hv := Get(tree, "hooks");
    if hv.None? {
      if entry.None? {
        return Ok(root), false;
      }
      hv := Some(Object([]));
    }
    if !hv.value.Object? {
      return Err(HooksNotObject), false;
    }
    var hooks := hv.value.members;
    var lv := Get(hooks, event);
    if lv.None? {
      lv := Some(List([]));
    }
    if !lv.value.List? {
      return Err(EventNotList), false;
    }
    var kept, insertAt;
    kept, insertAt, found := StripEntries(lv.value.items);
    if entry.None? {
      if !found {
        return Ok(root), false;
      }
      if |kept| > 0 {
        return Ok(Set(root, "hooks", Object(Set(hooks, event, List(kept))))), true;
      }
      hooks := Del(hooks, event);
      if |hooks| == 0 {
        return Ok(Del(root, "hooks")), true;
      }
      return Ok(Set(root, "hooks", Object(hooks))), true;
    }
    PlaceInKept(lv.value.items);
    var at := if insertAt.None? then |kept| else insertAt.value;
    kept := kept[..at] + [entry.value] + kept[at..];
    return Ok(Set(root, "hooks", Object(Set(hooks, event, List(kept))))), found;
  }

  // --- Stripping, by itself ---

  lemma {:induction false} WithoutHooksIsClean(items: seq<Json>)
    ensures forall i :: 0 <= i < |WithoutHooks(items)| ==> !IsHook(WithoutHooks(items)[i])
    ensures |WithoutHooks(items)| <= |items|
    ensures |WithoutHooks(items)| == |items| <==> forall i :: 0 <= i < |items| ==> !IsHook(items[i])
    ensures |WithoutHooks(items)| == |items| ==> WithoutHooks(items) == items
  {
    if items != [] {
      var front, last := items[..|items| - 1], items[|items| - 1];
      WithoutHooksIsClean(front);
      assert items == front + [last];
      assert forall i :: 0 <= i < |front| ==> items[i] == front[i];
    }
  }

  /** What stays of an entry holds nothing of draftcat's, and stays as it is the next time. */
  lemma StrippedIsClean(v: Json)
    ensures Stripped(v).Some? ==> !HasHook(Stripped(v).value) && Stripped(Stripped(v).value) == Stripped(v)
    ensures Stripped(v) == Some(v) <==> !HasHook(v)
  {
    if !IsHook(v) && Inner(v).Some? {
      var inner := Inner(v).value;
      WithoutHooksIsClean(inner);
      WithoutHooksIsClean(WithoutHooks(inner));
      if Stripped(v).Some? && |WithoutHooks(inner)| != |inner| {
        SetOtherKeys(v, List(WithoutHooks(inner)));
      }
    }
  }

  /** Replacing a group's list touches none of the keys that make a hook. */
  lemma SetOtherKeys(v: Json, list: Json)
    requires v.Object? && list.List?
    ensures var w := Object(Set(v.members, "hooks", list));
            Inner(w) == Some(list.items) && (IsHook(w) <==> IsHook(v)) && (v == w <==> Get(v.members, "hooks") == Some(list))
  {
    GetSet(v.members, "hooks", list, "hooks");
    assert "hooks"[0] == 'h' && "command"[0] == 'c' && "bash"[0] == 'b' && "powershell"[0] == 'p';
    GetSet(v.members, "hooks", list, "command");
    GetSet(v.members, "hooks", list, "bash");
    GetSet(v.members, "hooks", list, "powershell");
    if Get(v.members, "hooks") == Some(list) {
      SetSame(v.members, "hooks", list);
    }
  }

  lemma {:induction false} KeptAppend(a: seq<Json>, b: seq<Json>)
    ensures Kept(a + b) == Kept(a) + Kept(b)
    decreases |b|
  {
    if b == [] {
      assert a + b == a;
    } else {
      var n := |b| - 1;
      KeptAppend(a, b[..n]);
      assert (a + b)[..|a + b| - 1] == a + b[..n];
    }
  }

  lemma {:induction false} KeptIsClean(list: seq<Json>)
    ensures !Found(Kept(list))
    ensures !Found(list) <==> Kept(list) == list
    ensures Kept(Kept(list)) == Kept(list)
    ensures |Kept(list)| <= |list|
    ensures Place(list).None? ==> |Kept(list)| == |list|
  {
    if list != [] {
      var front, last := list[..|list| - 1], list[|list| - 1];
      KeptIsClean(front);
      StrippedIsClean(last);
      assert list == front + [last];
      FoundAppend(front, last);
      if Stripped(last).Some? {
        FoundAppend(Kept(front), Stripped(last).value);
        KeptAppend(Kept(front), [Stripped(last).value]);
        KeptOne(Stripped(last).value);
      }
    }
  }

  lemma KeptOne(v: Json)
    ensures Kept([v]) == if Stripped(v).Some? then [Stripped(v).value] else []
  {
    assert [v][..0] == [];
    assert Kept([]) == [];
  }

  /** The entry is recognised again: it is a hook of draftcat's, or a group of nothing else. */
  predicate Owned(entry: Json) { Stripped(entry).None? }

  /** The entry of Claude Code, Codex and Gemini CLI: a matcher group with one hook. */
  lemma GroupIsOwned(matcher: string, hook: Json)
    requires IsHook(hook)
    ensures Owned(Object([Member("matcher", Str(matcher)), Member("hooks", List([hook]))]))
  {
    var ms := [Member("matcher", Str(matcher)), Member("hooks", List([hook]))];
    var v := Object(ms);
    assert "hooks"[0] == 'h' && "matcher"[0] == 'm';
    IndexIs(ms, "hooks", 1);
    assert Inner(v) == Some([hook]);
    assert [hook][..0] == [] && WithoutHooks([]) == [];
    assert WithoutHooks([hook]) == [];
  }

  lemma {:induction false} PlaceOfFirst(a: seq<Json>, entry: Json, b: seq<Json>)
    requires !Found(a) && Owned(entry)
    ensures Place(a + [entry] + b) == Some(|a|)
    decreases |b|
  {
    if b == [] {
      assert a + [entry] + b == a + [entry];
      assert (a + [entry])[..|a|] == a;
      KeptIsClean(a);
      NoPlace(a);
    } else {
      var n := |b| - 1;
      PlaceOfFirst(a, entry, b[..n]);
      var all := a + [entry] + b;
      assert all[..|all| - 1] == a + [entry] + b[..n];
    }
  }

  lemma {:induction false} NoPlace(list: seq<Json>)
    requires !Found(list)
    ensures Place(list).None?
  {
    if list != [] {
      var front, last := list[..|list| - 1], list[|list| - 1];
      assert list == front + [last];
      FoundAppend(front, last);
      NoPlace(front);
      StrippedIsClean(last);
    }
  }

  lemma PartsNotFound(a: seq<Json>, b: seq<Json>)
    ensures Found(a + b) <==> Found(a) || Found(b)
  {
    var all := a + b;
    if Found(a) {
      var i :| 0 <= i < |a| && HasHook(a[i]);
      assert HasHook(all[i]);
    }
    if Found(b) {
      var i :| 0 <= i < |b| && HasHook(b[i]);
      assert HasHook(all[|a| + i]);
    }
  }

  lemma KeptAround(a: seq<Json>, entry: Json, b: seq<Json>)
    requires !Found(a) && !Found(b) && Owned(entry)
    ensures Kept(a + [entry] + b) == a + b
  {
    KeptIsClean(a);
    KeptIsClean(b);
    KeptAppend(a + [entry], b);
    KeptAppend(a, [entry]);
    KeptOne(entry);
    assert a + [] == a;
  }

  /** After an install the kept entries and the place are what they were before it. */
  lemma InsertedAgain(list: seq<Json>, entry: Json)
    requires Owned(entry)
    ensures Kept(Inserted(list, entry)) == Kept(list)
    ensures Position(Inserted(list, entry)) == Position(list)
  {
    var a, b := Kept(list)[..Position(list)], Kept(list)[Position(list)..];
    assert Kept(list) == a + b;
    KeptIsClean(list);
    PartsNotFound(a, b);
    KeptAround(a, entry, b);
    PlaceOfFirst(a, entry, b);
  }

  // --- The installer's promises ---

  /** The entries and hooks that are not draftcat's, in order, whatever group holds them. */
  function Foreign(list: seq<Json>): seq<Json> {
    if list == [] then [] else Foreign(list[..|list| - 1]) + ForeignIn(list[|list| - 1])
  }

  function ForeignIn(v: Json): seq<Json> {
    if IsHook(v) then [] else if Inner(v).None? then [v] else WithoutHooks(Inner(v).value)
  }

  lemma {:induction false} ForeignAppend(a: seq<Json>, b: seq<Json>)
    ensures Foreign(a + b) == Foreign(a) + Foreign(b)
    decreases |b|
  {
    if b == [] {
      assert a + b == a;
    } else {
      var n := |b| - 1;
      ForeignAppend(a, b[..n]);
      assert (a + b)[..|a + b| - 1] == a + b[..n];
      Associative(Foreign(a), Foreign(b[..n]), ForeignIn(b[n]));
    }
  }

  lemma Associative<T>(a: seq<T>, b: seq<T>, c: seq<T>)
    ensures a + b + c == a + (b + c)
  {
  }

  lemma ForeignOne(v: Json)
    ensures Foreign([v]) == ForeignIn(v)
  {
    assert [v][..0] == [];
    assert Foreign([]) == [];
  }

  lemma StrippedForeign(v: Json)
    ensures ForeignIn(v) == if Stripped(v).Some? then ForeignIn(Stripped(v).value) else []
  {
    if !IsHook(v) && Inner(v).Some? {
      var inner := Inner(v).value;
      WithoutHooksIsClean(inner);
      WithoutHooksIsClean(WithoutHooks(inner));
      if Stripped(v).Some? && |WithoutHooks(inner)| != |inner| {
        SetOtherKeys(v, List(WithoutHooks(inner)));
      }
    }
  }

  lemma {:induction false} KeptForeign(list: seq<Json>)
    ensures Foreign(Kept(list)) == Foreign(list)
  {
    if list != [] {
      var front, last := list[..|list| - 1], list[|list| - 1];
      KeptForeign(front);
      StrippedForeign(last);
      if Stripped(last).Some? {
        ForeignAppend(Kept(front), [Stripped(last).value]);
        ForeignOne(Stripped(last).value);
      } else {
        assert Foreign(front) + [] == Foreign(front);
      }
    }
  }

  lemma ForeignAround(a: seq<Json>, entry: Json, b: seq<Json>)
    requires Owned(entry)
    ensures Foreign(a + [entry] + b) == Foreign(a + b)
  {
    ForeignAppend(a + [entry], b);
    ForeignAppend(a, [entry]);
    ForeignAppend(a, b);
    ForeignOne(entry);
    assert ForeignIn(entry) == [] && Foreign(a) + [] == Foreign(a);
  }

  /** Installing leaves exactly one entry of draftcat's, where the first one was or else at the end. */
  lemma OneEntry(list: seq<Json>, entry: Json)
    requires Owned(entry)
    ensures var after, p := Inserted(list, entry), Position(list);
            after[p] == entry && !Found(after[..p] + after[p + 1..])
    ensures !Found(list) ==> Inserted(list, entry) == list + [entry]
  {
    var p, after := Position(list), Inserted(list, entry);
    KeptIsClean(list);
    TakenOut(Kept(list), p, entry);
    if !Found(list) {
      NoPlace(list);
    }
  }

  /** The positions of the entries that stay. */
  function Survivors(list: seq<Json>): seq<nat> {
    if list == [] then []
    else
      var front := Survivors(list[..|list| - 1]);
      if Stripped(list[|list| - 1]).Some? then front + [|list| - 1] else front
  }

  /** Nothing but draftcat's is in the entry: it is a hook of draftcat's, or a group of nothing else. */
  predicate OnlyDraftcats(v: Json) {
    IsHook(v) || (Inner(v).Some? && Inner(v).value != [] && forall i :: 0 <= i < |Inner(v).value| ==> IsHook(Inner(v).value[i]))
  }

  /** The same entry without draftcat's hooks: the other members are untouched and in place. */
  ghost predicate SameButHooks(v: Json, w: Json) {
    if Inner(v).None? then w == v
    else
      && w.Object? && KeyOrder(w.members) == KeyOrder(v.members)
      && Inner(w) == Some(WithoutHooks(Inner(v).value))
      && Del(w.members, "hooks") == Del(v.members, "hooks")
  }

  lemma {:induction false} WithoutHooksEmpty(items: seq<Json>)
    ensures WithoutHooks(items) == [] <==> forall i :: 0 <= i < |items| ==> IsHook(items[i])
  {
    if items != [] {
      var front := items[..|items| - 1];
      WithoutHooksEmpty(front);
      assert forall i :: 0 <= i < |front| ==> items[i] == front[i];
    }
  }

  /** An entry goes if it is draftcat's alone, and else stays as it was but for draftcat's hooks. */
  lemma StrippedMeans(v: Json)
    ensures Stripped(v).None? <==> OnlyDraftcats(v)
    ensures Stripped(v).Some? ==> SameButHooks(v, Stripped(v).value)
  {
    if !IsHook(v) && Inner(v).Some? {
      var inner := Inner(v).value;
      WithoutHooksEmpty(inner);
      WithoutHooksIsClean(inner);
      SetOrder(v.members, "hooks", List(WithoutHooks(inner)));
      SetOtherKeys(v, List(WithoutHooks(inner)));
      assert "hooks" == KeyOrder(v.members)[Index(v.members, "hooks")];
    }
  }

  predicate Increasing(at: seq<nat>, bound: nat) {
    && (forall j, k :: 0 <= j < k < |at| ==> at[j] < at[k])
    && (forall k :: 0 <= k < |at| ==> at[k] < bound)
  }

  predicate Selects(list: seq<Json>, at: seq<nat>) {
    forall i :: 0 <= i < |list| ==> (i in at <==> !OnlyDraftcats(list[i]))
  }

  /** kept holds, in order, exactly the entries of list that are not draftcat's alone, each without draftcat's hooks. */
  ghost predicate KeptFrom(list: seq<Json>, at: seq<nat>, kept: seq<Json>) {
    && Increasing(at, |list|) && Selects(list, at) && |at| == |kept|
    && (forall k :: 0 <= k < |at| ==> SameButHooks(list[at[k]], kept[k]))
  }

  lemma SelectsAppend(list: seq<Json>, at: seq<nat>, v: Json)
    requires Selects(list, at) && Increasing(at, |list|)
    ensures Selects(list + [v], if OnlyDraftcats(v) then at else at + [|list|])
  {
    var all := list + [v];
    assert all[|list|] == v && forall i :: 0 <= i < |list| ==> all[i] == list[i];
    assert |list| !in at;
  }

  lemma KeptFromSkip(list: seq<Json>, at: seq<nat>, kept: seq<Json>, v: Json)
    requires KeptFrom(list, at, kept) && OnlyDraftcats(v)
    ensures KeptFrom(list + [v], at, kept)
  {
    SelectsAppend(list, at, v);
    assert forall k :: 0 <= k < |at| ==> (list + [v])[at[k]] == list[at[k]];
  }

  lemma KeptFromTake(list: seq<Json>, at: seq<nat>, kept: seq<Json>, v: Json, w: Json)
    requires KeptFrom(list, at, kept) && !OnlyDraftcats(v) && SameButHooks(v, w)
    ensures KeptFrom(list + [v], at + [|list|], kept + [w])
  {
    SelectsAppend(list, at, v);
    var all, at', kept' := list + [v], at + [|list|], kept + [w];
    forall k | 0 <= k < |at'|
      ensures SameButHooks(all[at'[k]], kept'[k])
    {
      if k < |at| {
        assert all[at'[k]] == list[at[k]] && kept'[k] == kept[k];
      }
    }
  }

  lemma {:induction false} KeptPointwise(list: seq<Json>)
    ensures KeptFrom(list, Survivors(list), Kept(list))
  {
    if list != [] {
      var front, last := list[..|list| - 1], list[|list| - 1];
      KeptPointwise(front);
      StrippedMeans(last);
      if Stripped(last).Some? {
        KeptFromTake(front, Survivors(front), Kept(front), last, Stripped(last).value);
      } else {
        KeptFromSkip(front, Survivors(front), Kept(front), last);
      }
      assert list == front + [last];
    }
  }

  /**
   Whatever is not draftcat's survives, in order: taking the new entry out again
   leaves every entry of the list that was not draftcat's alone, with its other
   members untouched and its own hooks, in order, in the group that held them.
   */
  lemma OthersInOrder(list: seq<Json>, entry: Json)
    requires Owned(entry)
    ensures var after, p := Inserted(list, entry), Position(list);
            after[p] == entry && KeptFrom(list, Survivors(list), after[..p] + after[p + 1..])
    ensures Foreign(Inserted(list, entry)) == Foreign(list)
  {
    var a, b := Kept(list)[..Position(list)], Kept(list)[Position(list)..];
    KeptForeign(list);
    ForeignAround(a, entry, b);
    Rejoined(Kept(list), Position(list));
    TakenOut(Kept(list), Position(list), entry);
    KeptPointwise(list);
  }

  lemma TakenOut<T>(s: seq<T>, p: nat, x: T)
    requires p <= |s|
    ensures var t := s[..p] + [x] + s[p..];
            t[p] == x && t[..p] + t[p + 1..] == s
  {
  }

  lemma Rejoined<T>(s: seq<T>, p: nat)
    requires p <= |s|
    ensures s[..p] + s[p..] == s
  {
  }

  lemma EventListAfter(root: Members, hooks: Members, event: string, list: seq<Json>)
    ensures var root' := Set(root, "hooks", Object(Set(hooks, event, List(list))));
            EventList(root', event) == Ok(list) && HooksOf(root') == Set(hooks, event, List(list))
  {
    GetSet(root, "hooks", Object(Set(hooks, event, List(list))), "hooks");
    GetSet(hooks, event, List(list), event);
  }

  /** Re-running replaces the entry: only the last install counts, and installing twice is installing once. */
  lemma InstallReplaces(root: Members, event: string, entry: Json, again: Json)
    requires Owned(entry) && Install(root, event, entry).Ok?
    ensures Install(Install(root, event, entry).value, event, again) == Install(root, event, again)
  {
    var list, hooks := EventList(root, event).value, HooksOf(root);
    var once := Inserted(list, entry);
    EventListAfter(root, hooks, event, once);
    InsertedAgain(list, entry);
    SetSet(hooks, event, List(once), List(Inserted(list, again)));
    SetSet(root, "hooks", Object(Set(hooks, event, List(once))), Object(Set(hooks, event, List(Inserted(list, again)))));
  }

  /** The members but one are the same, in the same order, and that one is in its place or at the end. */
  predicate OnlyChanges(before: Members, after: Members, key: string) {
    KeyOrder(after) == With(KeyOrder(before), key) && Del(after, key) == Del(before, key)
  }

  /** Every other key of the file, and every other event, keeps its value and its place. */
  lemma InstallKeepsOthers(root: Members, event: string, entry: Json, key: string, other: string)
    requires Install(root, event, entry).Ok?
    ensures var after := Install(root, event, entry).value;
            && OnlyChanges(root, after, "hooks") && OnlyChanges(HooksOf(root), HooksOf(after), event)
            && (key != "hooks" ==> Get(after, key) == Get(root, key))
            && (other != event ==> Get(HooksOf(after), other) == Get(HooksOf(root), other))
  {
    var list, hooks := EventList(root, event).value, HooksOf(root);
    var changed := Set(hooks, event, List(Inserted(list, entry)));
    SetOrder(root, "hooks", Object(changed));
    SetOrder(hooks, event, List(Inserted(list, entry)));
    GetSet(root, "hooks", Object(changed), key);
    GetSet(root, "hooks", Object(changed), "hooks");
    GetSet(hooks, event, List(Inserted(list, entry)), other);
  }

  lemma DelTwice(ms: Members, key: string)
    requires DistinctKeys(ms)
    ensures Del(Del(ms, key), key) == Del(ms, key)
  {
    DelGone(ms, key);
  }

  /** A removal takes nothing else with it, but for a hooks object that it leaves empty. */
  lemma RemoveKeepsOthers(root: Members, event: string)
    requires Remove(root, event).Ok? && DistinctKeys(root) && DistinctKeys(HooksOf(root))
    ensures var after := Remove(root, event).value;
            Del(after, "hooks") == Del(root, "hooks") && Del(HooksOf(after), event) == Del(HooksOf(root), event)
  {
    var list, hooks := EventList(root, event).value, HooksOf(root);
    if Found(list) {
      DelTwice(hooks, event);
      if Kept(list) != [] {
        var changed := Set(hooks, event, List(Kept(list)));
        SetOrder(root, "hooks", Object(changed));
        SetOrder(hooks, event, List(Kept(list)));
        GetSet(root, "hooks", Object(changed), "hooks");
      } else if Del(hooks, event) == [] {
        DelTwice(root, "hooks");
        DelGone(root, "hooks");
      } else {
        SetOrder(root, "hooks", Object(Del(hooks, event)));
        GetSet(root, "hooks", Object(Del(hooks, event)), "hooks");
      }
    }
  }

  /** The edit is refused if and only if hooks is there and is no object, or the event is there and is no list. */
  lemma RefusedIff(root: Members, event: string, entry: Json)
    ensures Install(root, event, entry).Ok? <==> Remove(root, event).Ok?
    ensures Install(root, event, entry).Ok? <==>
            Get(root, "hooks").Some? ==>
              var hooks := Get(root, "hooks").value;
              hooks.Object? && (Get(hooks.members, event).Some? ==> Get(hooks.members, event).value.List?)
    ensures Install(root, event, entry).Err? ==>
            (Install(root, event, entry).error == HooksNotObject <==> !Get(root, "hooks").value.Object?)
  {
  }

  /** A removal leaves the event's other entries, and none of draftcat's. */
  lemma RemoveTakesOut(root: Members, event: string)
    requires Remove(root, event).Ok? && DistinctKeys(root) && DistinctKeys(HooksOf(root))
    ensures var list, after := EventList(root, event).value, Remove(root, event).value;
            && EventList(after, event) == Ok(Kept(list)) && !Found(Kept(list))
            && (!Found(list) ==> after == root)
  {
    var list, hooks := EventList(root, event).value, HooksOf(root);
    KeptIsClean(list);
    if Found(list) {
      if Kept(list) != [] {
        EventListAfter(root, hooks, event, Kept(list));
      } else if Del(hooks, event) == [] {
        DelGone(root, "hooks");
      } else {
        DelGone(hooks, event);
        GetSet(root, "hooks", Object(Del(hooks, event)), "hooks");
      }
    }
  }

  /** The file held an empty hooks object, or an empty list for the event. */
  predicate HeldEmpty(root: Members, event: string) {
    var hooks := Get(root, "hooks");
    hooks.Some? && hooks.value.Object? && (hooks.value.members == [] || Get(hooks.value.members, event) == Some(List([])))
  }

  lemma DelGone(ms: Members, key: string)
    requires DistinctKeys(ms)
    ensures !Has(Del(ms, key), key)
  {
    var i := Index(ms, key);
    if i < |ms| {
      var rest := Del(ms, key);
      assert forall j :: 0 <= j < |rest| ==> rest[j] == ms[if j < i then j else j + 1];
      IndexIs(rest, key, |rest|);
    }
  }

  /** The event's list after an install into a file without draftcat's entries, and what stays of it. */
  lemma CleanInstall(list: seq<Json>, entry: Json)
    requires Owned(entry) && !Found(list)
    ensures Inserted(list, entry) == list + [entry]
    ensures Kept(list + [entry]) == list && Found(list + [entry])
  {
    InsertedAgain(list, entry);
    KeptIsClean(list);
    NoPlace(list);
    FoundAppend(list, entry);
    StrippedIsClean(entry);
  }

  predicate CleanFile(root: Members, event: string) {
    EventList(root, event).Ok? && !Found(EventList(root, event).value)
  }

  /** What a removal gives after an install into such a file: something else was in the list. */
  lemma RemoveFromOthers(root: Members, event: string, entry: Json)
    requires Owned(entry) && CleanFile(root, event) && EventList(root, event).value != []
    ensures Remove(Install(root, event, entry).value, event) == Ok(root)
  {
    var list, hooks := EventList(root, event).value, HooksOf(root);
    CleanInstall(list, entry);
    EventListAfter(root, hooks, event, list + [entry]);
    SetSet(hooks, event, List(list + [entry]), List(list));
    SetSet(root, "hooks", Object(Set(hooks, event, List(list + [entry]))), Object(Set(hooks, event, List(list))));
    SetSame(hooks, event, List(list));
    SetSame(root, "hooks", Object(hooks));
  }

  /** The list was empty, or there was none: the event goes, and the hooks object with it if that empties it. */
  lemma RemoveAlone(root: Members, event: string, entry: Json)
    requires Owned(entry) && CleanFile(root, event) && EventList(root, event).value == []
    ensures var held := Set(HooksOf(root), event, List([entry]));
            Remove(Install(root, event, entry).value, event) ==
            Ok(if Del(held, event) == [] then Del(Set(root, "hooks", Object(held)), "hooks")
               else Set(root, "hooks", Object(Del(held, event))))
  {
    var hooks := HooksOf(root);
    CleanInstall([], entry);
    assert [] + [entry] == [entry];
    var held := Set(hooks, event, List([entry]));
    EventListAfter(root, hooks, event, [entry]);
    SetSet(root, "hooks", Object(held), Object(Del(held, event)));
  }

  /** An empty list is not put back. */
  lemma EmptyListLost(root: Members, event: string, entry: Json)
    requires Owned(entry) && CleanFile(root, event) && EventList(root, event).value == [] && Has(HooksOf(root), event)
    requires DistinctKeys(root) && DistinctKeys(HooksOf(root))
    ensures Remove(Install(root, event, entry).value, event) != Ok(root)
  {
    var hooks := HooksOf(root);
    var held := Set(hooks, event, List([entry]));
    RemoveAlone(root, event, entry);
    GetSet(hooks, event, List([entry]), event);
    DelGone(held, event);
    if Del(held, event) == [] {
      GetSet(root, "hooks", Object(held), "hooks");
      DelGone(Set(root, "hooks", Object(held)), "hooks");
    } else {
      GetSet(root, "hooks", Object(Del(held, event)), "hooks");
    }
  }

  /** Without a list, the file comes back unless its hooks object was empty. */
  lemma NoListComesBack(root: Members, event: string, entry: Json)
    requires Owned(entry) && CleanFile(root, event) && EventList(root, event).value == [] && !Has(HooksOf(root), event)
    requires DistinctKeys(root)
    ensures Remove(Install(root, event, entry).value, event) == Ok(root) <==> !(Has(root, "hooks") && HooksOf(root) == [])
  {
    var hooks := HooksOf(root);
    var held := Set(hooks, event, List([entry]));
    RemoveAlone(root, event, entry);
    DelSet(hooks, event, List([entry]));
    if !Has(root, "hooks") {
      DelSet(root, "hooks", Object(held));
    } else if hooks == [] {
      GetSet(root, "hooks", Object(held), "hooks");
      DelGone(Set(root, "hooks", Object(held)), "hooks");
    } else {
      SetSame(root, "hooks", Object(hooks));
    }
  }

  /**
   Removing after installing restores the file exactly, key order included, if
   and only if it held no empty hooks object and no empty list for the event.
   */
  lemma RemoveUndoesInstallIff(root: Members, event: string, entry: Json)
    requires Owned(entry) && CleanFile(root, event)
    requires DistinctKeys(root) && DistinctKeys(HooksOf(root))
    ensures Remove(Install(root, event, entry).value, event) == Ok(root) <==> !HeldEmpty(root, event)
  {
    if EventList(root, event).value != [] {
      RemoveFromOthers(root, event, entry);
    } else if Has(HooksOf(root), event) {
      EmptyListLost(root, event, entry);
    } else {
      NoListComesBack(root, event, entry);
    }
  }

  // --- What the installer writes ---

  datatype Harness = ClaudeCode | Codex | CopilotCli | GeminiCli

  /** Quoted for the shell; an empty text leaves its flag out. timeout is the number's spelling. */
  datatype Options = Options(bin: string, agent: string, tokenEnv: string, wait: string, matcher: string, timeout: string)

  const FALLBACK := " || { echo 'draftcat gate hook could not run; the call is blocked' >&2; exit 2; }"

  function Format(h: Harness): string {
    match h
    case ClaudeCode => "claude"
    case Codex => "codex"
    case CopilotCli => "copilot"
    case GeminiCli => "gemini"
  }

  function Flag(flag: string, value: string): string { if value == "" then "" else flag + value }

  /** hookCommand. */
  function HookCommand(h: Harness, o: Options): string {
    o.bin + MARKER +
    (Format(h) + Flag(" --agent ", o.agent) + Flag(" --token-env ", o.tokenEnv) + Flag(" --wait ", o.wait)
     + (if h == CopilotCli then "" else FALLBACK))
  }

  function Group(o: Options, hook: Members): Json {
    Object([Member("matcher", Str(o.matcher)), Member("hooks", List([Object(hook)]))])
  }

  /** The entry of each harness: a matcher group with one hook, or for Copilot CLI the hook itself. */
  function Entry(h: Harness, o: Options): Json {
    var kind, command := Member("type", Str("command")), Member("command", Str(HookCommand(h, o)));
    match h
    case ClaudeCode => Group(o, [kind, command, Member("timeout", Number(o.timeout))])
    case Codex =>
      Group(o, [kind, command, Member("timeout", Number(o.timeout)),
                Member("statusMessage", Str("draftcat: waiting for the tool gate"))])
    case CopilotCli => Object([kind, Member("matcher", Str(o.matcher)), command, Member("timeoutSec", Number(o.timeout))])
    case GeminiCli =>
      Group(o, [Member("name", Str("draftcat-gate")), kind, command, Member("timeout", Number(o.timeout)),
                Member("description", Str("asks the draftcat tool gate before the call runs"))])
  }

  predicate OccursAt(s: string, sub: string, i: int) {
    0 <= i <= |s| - |sub| && s[i..i + |sub|] == sub
  }

  lemma {:induction false} ContainsIff(s: string, sub: string)
    ensures Contains(s, sub) <==> exists i :: OccursAt(s, sub, i)
  {
    if sub <= s {
      assert OccursAt(s, sub, 0);
    } else if s != "" {
      ContainsIff(s[1..], sub);
      if Contains(s[1..], sub) {
        var i :| OccursAt(s[1..], sub, i);
        assert s[1..][i..i + |sub|] == s[i + 1..i + 1 + |sub|];
        assert OccursAt(s, sub, i + 1);
      }
      forall i | OccursAt(s, sub, i)
        ensures OccursAt(s[1..], sub, i - 1)
      {
        assert i > 0;
        assert s[1..][i - 1..i - 1 + |sub|] == s[i..i + |sub|];
      }
    }
  }

  /** One of the three commands of a hook has the marker at i. */
  predicate MarkedAt(v: Json, key: string, i: int) {
    && v.Object? && key in ["command", "bash", "powershell"]
    && var c := Get(v.members, key);
       c.Some? && c.value.Str? && OccursAt(c.value.s, MARKER, i)
  }

  /** A hook is draftcat's if and only if one of its commands has the marker in it, wherever that is. */
  lemma IsHookIff(v: Json)
    ensures IsHook(v) <==> exists key, i :: MarkedAt(v, key, i)
  {
    if v.Object? {
      forall key | key in ["command", "bash", "powershell"]
        ensures RunsDraftcat(v.members, key) <==> exists i :: MarkedAt(v, key, i)
      {
        var c := Get(v.members, key);
        if c.Some? && c.value.Str? {
          ContainsIff(c.value.s, MARKER);
          forall i
            ensures MarkedAt(v, key, i) <==> OccursAt(c.value.s, MARKER, i)
          {
          }
        }
      }
    }
  }

  lemma CommandMarked(h: Harness, o: Options)
    ensures OccursAt(HookCommand(h, o), MARKER, |o.bin|)
  {
  }

  lemma HookIsMarked(ms: Members, j: nat, h: Harness, o: Options)
    requires j < |ms| && ms[j] == Member("command", Str(HookCommand(h, o)))
    requires forall k :: 0 <= k < j ==> ms[k].key != "command"
    ensures IsHook(Object(ms))
  {
    IndexIs(ms, "command", j);
    CommandMarked(h, o);
    assert MarkedAt(Object(ms), "command", |o.bin|);
    IsHookIff(Object(ms));
  }

  /** Whatever the harness, the binary, the flags and the matcher, the installer recognises what it wrote. */
  lemma EntryIsOwned(h: Harness, o: Options)
    ensures Owned(Entry(h, o))
  {
    var kind, command := Member("type", Str("command")), Member("command", Str(HookCommand(h, o)));
    assert "command"[0] == 'c' && "type"[0] == 't' && "name"[0] == 'n' && "matcher"[0] == 'm';
    match h
    case ClaudeCode =>
      var hook := [kind, command, Member("timeout", Number(o.timeout))];
      HookIsMarked(hook, 1, h, o);
      GroupIsOwned(o.matcher, Object(hook));
    case Codex =>
      var hook := [kind, command, Member("timeout", Number(o.timeout)),
                   Member("statusMessage", Str("draftcat: waiting for the tool gate"))];
      HookIsMarked(hook, 1, h, o);
      GroupIsOwned(o.matcher, Object(hook));
    case CopilotCli =>
      HookIsMarked([kind, Member("matcher", Str(o.matcher)), command, Member("timeoutSec", Number(o.timeout))], 2, h, o);
    case GeminiCli =>
      var hook := [Member("name", Str("draftcat-gate")), kind, command, Member("timeout", Number(o.timeout)),
                   Member("description", Str("asks the draftcat tool gate before the call runs"))];
      HookIsMarked(hook, 2, h, o);
      GroupIsOwned(o.matcher, Object(hook));
  }

  /** Installing, with any options, and then again: the second install is all there is, and it finds the first. */
  lemma InstallTwice(root: Members, event: string, h: Harness, o: Options, again: Options)
    requires Install(root, event, Entry(h, o)).Ok?
    ensures var once := Install(root, event, Entry(h, o)).value;
            && Install(once, event, Entry(h, again)) == Install(root, event, Entry(h, again))
            && EventList(once, event).Ok? && Found(EventList(once, event).value)
  {
    var list := EventList(root, event).value;
    EntryIsOwned(h, o);
    InstallReplaces(root, event, Entry(h, o), Entry(h, again));
    EventListAfter(root, HooksOf(root), event, Inserted(list, Entry(h, o)));
    StrippedIsClean(Entry(h, o));
    assert HasHook(Inserted(list, Entry(h, o))[Position(list)]);
  }

  /** Exactly one entry of draftcat's is left, where the first was or at the end. */
  lemma InstalledOnce(list: seq<Json>, h: Harness, o: Options)
    ensures var after, p := Inserted(list, Entry(h, o)), Position(list);
            after[p] == Entry(h, o) && HasHook(after[p]) && !Found(after[..p] + after[p + 1..])
    ensures !Found(list) ==> Inserted(list, Entry(h, o)) == list + [Entry(h, o)]
  {
    EntryIsOwned(h, o);
    StrippedIsClean(Entry(h, o));
    OneEntry(list, Entry(h, o));
  }

  /** Every other entry, member and hook survives the install in order. */
  lemma InstalledAmongOthers(list: seq<Json>, h: Harness, o: Options)
    ensures var after, p := Inserted(list, Entry(h, o)), Position(list);
            KeptFrom(list, Survivors(list), after[..p] + after[p + 1..])
    ensures Foreign(Inserted(list, Entry(h, o))) == Foreign(list)
  {
    EntryIsOwned(h, o);
    OthersInOrder(list, Entry(h, o));
  }

  /** Removing what was installed restores the file, but for an empty hooks object and an empty list for the event. */
  lemma RemoveUndoesEntryIff(root: Members, event: string, h: Harness, o: Options)
    requires CleanFile(root, event) && DistinctKeys(root) && DistinctKeys(HooksOf(root))
    ensures Remove(Install(root, event, Entry(h, o)).value, event) == Ok(root) <==> !HeldEmpty(root, event)
  {
    EntryIsOwned(h, o);
    RemoveUndoesInstallIff(root, event, Entry(h, o));
  }

  ghost predicate Unmarked(v: Json) {
    forall key, i :: !MarkedAt(v, key, i)
  }

  lemma {:induction false} WithoutHooksKeeps(items: seq<Json>, j: nat)
    requires j < |items| && !IsHook(items[j])
    ensures items[j] in WithoutHooks(items)
  {
    var front := items[..|items| - 1];
    if j < |front| {
      WithoutHooksKeeps(front, j);
    }
  }

  /** A hook with the marker in none of its commands is kept, by itself or in the group that holds it. */
  lemma UnmarkedKept(list: seq<Json>, i: nat, j: nat)
    requires i < |list|
    ensures Unmarked(list[i]) && Inner(list[i]).None? ==> list[i] in Kept(list)
    ensures Inner(list[i]).Some? && Unmarked(list[i]) && j < |Inner(list[i]).value| && Unmarked(Inner(list[i]).value[j]) ==>
              exists w :: w in Kept(list) && Inner(w).Some? && Inner(list[i]).value[j] in Inner(w).value
  {
    var v := list[i];
    KeptPointwise(list);
    IsHookIff(v);
    if Unmarked(v) && Inner(v).None? {
      assert i in Survivors(list);
      var k :| 0 <= k < |Survivors(list)| && Survivors(list)[k] == i;
      assert Kept(list)[k] == v;
    }
    if Inner(v).Some? && Unmarked(v) && j < |Inner(v).value| && Unmarked(Inner(v).value[j]) {
      IsHookIff(Inner(v).value[j]);
      WithoutHooksKeeps(Inner(v).value, j);
      assert i in Survivors(list);
      var k :| 0 <= k < |Survivors(list)| && Survivors(list)[k] == i;
      assert Kept(list)[k] in Kept(list);
    }
  }
}
