/**
 JSON values that keep their key order and number spelling, and their codec on
 the tokens of sections 2 to 7 of RFC 8259 (gate_install.go).
 */
module OrderedJson {
  import opened Wrappers

  datatype Json =
    | Null
    | Bool(b: bool)
    | Number(spelling: string)
    | Str(s: string)
    | List(items: seq<Json>)
    | Object(members: seq<Member<string, Json>>)

  datatype Member<K, V> = Member(key: K, value: V)

  // --- Ordered members ---

  /** Where the key is, or the length. */
  function Index<K(==), V>(ms: seq<Member<K, V>>, key: K): (i: nat)
    ensures i <= |ms| && (i < |ms| ==> ms[i].key == key) && forall j :: 0 <= j < i ==> ms[j].key != key
  {
    if ms == [] || ms[0].key == key then 0 else 1 + Index(ms[1..], key)
  }

  predicate Has<K(==), V>(ms: seq<Member<K, V>>, key: K) { Index(ms, key) < |ms| }

  function Get<K(==), V>(ms: seq<Member<K, V>>, key: K): Option<V> {
    if Has(ms, key) then Some(ms[Index(ms, key)].value) else None
  }

  function Set<K(==), V>(ms: seq<Member<K, V>>, key: K, value: V): seq<Member<K, V>> {
    if Has(ms, key) then ms[Index(ms, key) := Member(key, value)] else ms + [Member(key, value)]
  }

  function Del<K(==), V>(ms: seq<Member<K, V>>, key: K): seq<Member<K, V>> {
    if Has(ms, key) then ms[..Index(ms, key)] + ms[Index(ms, key) + 1..] else ms
  }

  predicate DistinctKeys<K(==), V>(ms: seq<Member<K, V>>) {
    forall i, j :: 0 <= i < j < |ms| ==> ms[i].key != ms[j].key
  }

  lemma IndexIs<K, V>(ms: seq<Member<K, V>>, key: K, i: nat)
    requires i <= |ms| && (i < |ms| ==> ms[i].key == key) && forall j :: 0 <= j < i ==> ms[j].key != key
    ensures Index(ms, key) == i
  {
  }

  lemma GetSet<K, V>(ms: seq<Member<K, V>>, key: K, value: V, other: K)
    ensures Get(Set(ms, key, value), other) == if other == key then Some(value) else Get(ms, other)
    ensures DistinctKeys(ms) ==> DistinctKeys(Set(ms, key, value))
  {
    var i := Index(ms, key);
    var after := Set(ms, key, value);
    if other == key {
      IndexIs(after, key, i);
    } else {
      var j := Index(ms, other);
      if j < |ms| || i < |ms| {
        IndexIs(after, other, j);
      } else {
        IndexIs(after, other, |after|);
      }
    }
  }

  lemma SetSame<K, V>(ms: seq<Member<K, V>>, key: K, value: V)
    requires Get(ms, key) == Some(value)
    ensures Set(ms, key, value) == ms
  {
  }

  lemma SetSet<K, V>(ms: seq<Member<K, V>>, key: K, v: V, w: V)
    ensures Set(Set(ms, key, v), key, w) == Set(ms, key, w)
  {
    var i := Index(ms, key);
    IndexIs(Set(ms, key, v), key, i);
  }

  /** A key that was added last goes again without a trace. */
  lemma DelSet<K, V>(ms: seq<Member<K, V>>, key: K, value: V)
    requires !Has(ms, key)
    ensures Del(Set(ms, key, value), key) == ms
  {
    IndexIs(Set(ms, key, value), key, |ms|);
  }

  function KeyOrder<K(==), V>(ms: seq<Member<K, V>>): seq<K> { seq(|ms|, i requires 0 <= i < |ms| => ms[i].key) }

  /** The key is where it was, or at the end. */
  function With<K(==)>(keys: seq<K>, key: K): seq<K> { if key in keys then keys else keys + [key] }

  /** Setting a key leaves every other member what it was and where it was. */
  lemma SetOrder<K, V>(ms: seq<Member<K, V>>, key: K, value: V)
    ensures KeyOrder(Set(ms, key, value)) == With(KeyOrder(ms), key)
    ensures Del(Set(ms, key, value), key) == Del(ms, key)
  {
    var i, after := Index(ms, key), Set(ms, key, value);
    IndexIs(after, key, i);
    if i < |ms| {
      assert KeyOrder(ms)[i] == key;
      assert KeyOrder(after) == KeyOrder(ms);
      assert after[..i] == ms[..i] && after[i + 1..] == ms[i + 1..];
    } else {
      assert key !in KeyOrder(ms);
      assert KeyOrder(after) == KeyOrder(ms) + [key];
      assert after[..i] + after[i + 1..] == ms;
    }
  }

  // --- The object itself ---

  ghost predicate InStep<K(!new), V>(keys: seq<K>, vals: map<K, V>) {
    && (forall k :: k in keys <==> k in vals)
    && (forall i, j :: 0 <= i < j < |keys| ==> keys[i] != keys[j])
  }

  function Zip<K(==), V>(keys: seq<K>, vals: map<K, V>): (ms: seq<Member<K, V>>)
    requires forall k :: k in keys ==> k in vals
    ensures |ms| == |keys|
    ensures forall i :: 0 <= i < |ms| ==> ms[i] == Member(keys[i], vals[keys[i]])
  {
    if keys == [] then []
    else Zip(keys[..|keys| - 1], vals) + [Member(keys[|keys| - 1], vals[keys[|keys| - 1]])]
  }

  /** Position of a key, found the way del finds it. */
  lemma ZipIndex<K(!new), V>(keys: seq<K>, vals: map<K, V>, k: K, i: nat)
    requires InStep(keys, vals) && i < |keys| && keys[i] == k
    ensures Index(Zip(keys, vals), k) == i
  {
    IndexIs(Zip(keys, vals), k, i);
  }

  lemma ZipReplace<K(!new), V>(keys: seq<K>, vals: map<K, V>, k: K, v: V)
    requires InStep(keys, vals) && k in vals
    ensures Zip(keys, vals[k := v]) == Set(Zip(keys, vals), k, v)
  {
    var i :| 0 <= i < |keys| && keys[i] == k;
    ZipIndex(keys, vals, k, i);
    var before, after := Zip(keys, vals), Zip(keys, vals[k := v]);
    assert Set(before, k, v) == before[i := Member(k, v)];
    forall j | 0 <= j < |keys|
      ensures after[j] == before[i := Member(k, v)][j]
    {
    }
  }

  lemma ZipAdd<K(!new), V>(keys: seq<K>, vals: map<K, V>, k: K, v: V)
    requires InStep(keys, vals) && k !in vals
    ensures InStep(keys + [k], vals[k := v]) && Zip(keys + [k], vals[k := v]) == Set(Zip(keys, vals), k, v)
  {
    assert Zip(keys + [k], vals[k := v]) == Zip(keys, vals) + [Member(k, v)];
  }

  lemma ZipSet<K(!new), V>(keys: seq<K>, vals: map<K, V>, k: K, v: V)
    requires InStep(keys, vals)
    ensures var keys' := if k in vals then keys else keys + [k];
            InStep(keys', vals[k := v]) && Zip(keys', vals[k := v]) == Set(Zip(keys, vals), k, v)
  {
    if k in vals {
      ZipReplace(keys, vals, k, v);
    } else {
      ZipAdd(keys, vals, k, v);
    }
  }

  lemma RestInStep<K(!new), V>(keys: seq<K>, vals: map<K, V>, k: K, i: nat)
    requires InStep(keys, vals) && i < |keys| && keys[i] == k
    ensures InStep(keys[..i] + keys[i + 1..], vals - {k})
  {
    var rest := keys[..i] + keys[i + 1..];
    assert forall j :: 0 <= j < |rest| ==> rest[j] == keys[if j < i then j else j + 1];
    forall x | x in keys && x != k
      ensures x in rest
    {
      var j :| 0 <= j < |keys| && keys[j] == x;
      assert rest[if j < i then j else j - 1] == x;
    }
  }

  lemma RemoveKey<K(!new), V>(keys: seq<K>, vals: map<K, V>, k: K, i: nat)
    requires InStep(keys, vals) && i < |keys| && keys[i] == k
    ensures var rest := keys[..i] + keys[i + 1..];
            InStep(rest, vals - {k}) && Zip(rest, vals - {k}) == Del(Zip(keys, vals), k)
  {
    RestInStep(keys, vals, k, i);
    ZipIndex(keys, vals, k, i);
    ZipRest(keys, vals, k, i);
  }

  lemma ZipRest<K(!new), V>(keys: seq<K>, vals: map<K, V>, k: K, i: nat)
    requires InStep(keys, vals) && i < |keys| && keys[i] == k
    requires InStep(keys[..i] + keys[i + 1..], vals - {k})
    ensures Zip(keys[..i] + keys[i + 1..], vals - {k}) == Zip(keys, vals)[..i] + Zip(keys, vals)[i + 1..]
  {
    var rest, before := keys[..i] + keys[i + 1..], Zip(keys, vals);
    var after, want := Zip(rest, vals - {k}), before[..i] + before[i + 1..];
    assert |after| == |want|;
    forall j | 0 <= j < |after|
      ensures after[j] == want[j]
    {
      assert rest[j] == keys[if j < i then j else j + 1];
    }
  }

  /** jsonObj: a list of keys and a map, changed in place and kept in step. */
  class JsonObj<K(==, !new), V> {
    var keys: seq<K>
    var vals: map<K, V>

    ghost predicate Valid()
      reads this
    {
      InStep(keys, vals)
    }

    ghost function Members(): seq<Member<K, V>>
      reads this
      requires Valid()
    {
      Zip(keys, vals)
    }

    constructor ()
      ensures Valid() && Members() == []
    {
      keys, vals := [], map[];
    }

    method GetValue(k: K) returns (v: Option<V>)
      requires Valid()
      ensures v == Get(Members(), k)
    {
      v := if k in vals then Some(vals[k]) else None;
      if k in vals {
        var i :| 0 <= i < |keys| && keys[i] == k;
        ZipIndex(keys, vals, k, i);
      } else {
      }
    }

    method SetValue(k: K, v: V)
      requires Valid()
      modifies this
      ensures Valid() && Members() == Set(old(Members()), k, v)
    {
      ZipSet(keys, vals, k, v);
      if k !in vals {
        keys := keys + [k];
      }
      vals := vals[k := v];
    }

    method Delete(k: K)
      requires Valid()
      modifies this
      ensures Valid() && Members() == Del(old(Members()), k)
    {
      if k !in vals {
        return;
      }
      var i := 0;
      while keys[i] != k
        invariant 0 <= i < |keys|
        invariant k in keys[i..]
        decreases |keys| - i
      {
        assert keys[i..] == [keys[i]] + keys[i + 1..];
        i := i + 1;
      }
      RemoveKey(keys, vals, k, i);
      vals := vals - {k};
      keys := keys[..i] + keys[i + 1..];
    }
  }

  // --- Tokens ---

  datatype Token =
    | TNull | TTrue | TFalse | TNumber(spelling: string) | TString(s: string)
    | LeftBrace | RightBrace | LeftBracket | RightBracket | Comma | Colon

  function ScalarToken(v: Json): Token
    requires !v.List? && !v.Object?
  {
    match v
    case Null => TNull
    case Bool(b) => if b then TTrue else TFalse
    case Number(spelling) => TNumber(spelling)
    case Str(s) => TString(s)
  }

  /** What writeOrderedJSON writes, without its white space. */
  function Tokens(v: Json): seq<Token>
    decreases v, 1, 0
  {
    match v
    case List(_) => [LeftBracket] + ItemTokens(v, 0) + [RightBracket]
    case Object(_) => [LeftBrace] + MemberTokens(v, 0) + [RightBrace]
    case _ => [ScalarToken(v)]
  }

  /** The items from i on, each but the very first after a comma. */
  function ItemTokens(v: Json, i: nat): seq<Token>
    requires v.List? && i <= |v.items|
    decreases v, 0, |v.items| - i
  {
    if i == |v.items| then []
    else (if i > 0 then [Comma] else []) + Tokens(v.items[i]) + ItemTokens(v, i + 1)
  }

  function MemberTokens(v: Json, i: nat): seq<Token>
    requires v.Object? && i <= |v.members|
    decreases v, 0, |v.members| - i
  {
    if i == |v.members| then []
    else
      (if i > 0 then [Comma] else []) + [TString(v.members[i].key), Colon] + Tokens(v.members[i].value)
      + MemberTokens(v, i + 1)
  }

  class Buffer {
    var out: seq<Token>

    constructor ()
      ensures out == []
    {
      out := [];
    }

    method Write(v: Json)
      modifies this
      ensures out == old(out) + Tokens(v)
      decreases v, 1
    {
      match v {
      case Object(_) => WriteObject(v);
      case List(_) => WriteList(v);
      case _ => out := out + [ScalarToken(v)];
      }
    }

    method WriteObject(v: Json)
      requires v.Object?
      modifies this
      ensures out == old(out) + Tokens(v)
      decreases v, 0
    {
      out := out + [LeftBrace];
      for i := 0 to |v.members|
        invariant out + MemberTokens(v, i) == old(out) + [LeftBrace] + MemberTokens(v, 0)
      {
        ghost var before := out;
        if i > 0 {
          out := out + [Comma];
        }
        out := out + [TString(v.members[i].key), Colon];
        Write(v.members[i].value);
        Regroup(before, (if i > 0 then [Comma] else []) + [TString(v.members[i].key), Colon], Tokens(v.members[i].value),
                MemberTokens(v, i + 1), out);
      }
      assert MemberTokens(v, |v.members|) == [] && out + [] == out;
      out := out + [RightBrace];
    }

    method WriteList(v: Json)
      requires v.List?
      modifies this
      ensures out == old(out) + Tokens(v)
      decreases v, 0
    {
      out := out + [LeftBracket];
      for i := 0 to |v.items|
        invariant out + ItemTokens(v, i) == old(out) + [LeftBracket] + ItemTokens(v, 0)
      {
        ghost var before := out;
        if i > 0 {
          out := out + [Comma];
        }
        Write(v.items[i]);
        Regroup(before, if i > 0 then [Comma] else [], Tokens(v.items[i]), ItemTokens(v, i + 1), out);
      }
      assert ItemTokens(v, |v.items|) == [] && out + [] == out;
      out := out + [RightBracket];
    }
  }

  lemma Regroup(before: seq<Token>, a: seq<Token>, b: seq<Token>, c: seq<Token>, out: seq<Token>)
    requires out == before + a + b
    ensures out + c == before + (a + b + c)
  {
  }

  // --- Decoding ---

  const MAX_DEPTH := 128

  /** A value and the tokens after it. */
  type Decoded = Option<(Json, seq<Token>)>

  /** decodeOrderedValue. */
  function DecodeValue(ts: seq<Token>, depth: int): (r: Decoded)
    ensures r.Some? ==> |r.value.1| < |ts|
    decreases |ts|, 0
  {
    if depth > MAX_DEPTH || ts == [] then None else
      match ts[0]
      case LeftBrace => DecodeMembers(ts[1..], [], depth)
      case LeftBracket => DecodeItems(ts[1..], [], depth)
      case TNull => Some((Null, ts[1..]))
      case TTrue => Some((Bool(true), ts[1..]))
      case TFalse => Some((Bool(false), ts[1..]))
      case TNumber(spelling) => Some((Number(spelling), ts[1..]))
      case TString(s) => Some((Str(s), ts[1..]))
      case _ => None
  }

  /** The tokens of the next element: after a comma, unless it is the first. */
  function Separated(ts: seq<Token>, first: bool): Option<seq<Token>> {
    if first then Some(ts) else if ts != [] && ts[0] == Comma then Some(ts[1..]) else None
  }

  function DecodeItems(ts: seq<Token>, items: seq<Json>, depth: int): (r: Decoded)
    ensures r.Some? ==> |r.value.1| < |ts|
    decreases |ts|, 1
  {
    if ts == [] then None
    else if ts[0] == RightBracket then Some((List(items), ts[1..]))
    else
      var us := Separated(ts, items == []);
      if us.None? then None else
        var r := DecodeValue(us.value, depth + 1);
        if r.None? then None else DecodeItems(r.value.1, items + [r.value.0], depth)
  }

  function DecodeMembers(ts: seq<Token>, members: seq<Member<string, Json>>, depth: int): (r: Decoded)
    ensures r.Some? ==> |r.value.1| < |ts|
    decreases |ts|, 1
  {
    if ts == [] then None
    else if ts[0] == RightBrace then Some((Object(members), ts[1..]))
    else
      var k := KeyOf(ts, members == []);
      if k.None? then None else
        var r := DecodeValue(k.value.1, depth + 1);
        if r.None? then None else DecodeMembers(r.value.1, Set(members, k.value.0, r.value.0), depth)
  }

  /** The next key of an object, and the tokens after its colon. */
  function KeyOf(ts: seq<Token>, first: bool): (k: Option<(string, seq<Token>)>)
    ensures k.Some? ==> |k.value.1| < |ts|
  {
    var us := Separated(ts, first);
    if us.None? || |us.value| < 2 || !us.value[0].TString? || us.value[1] != Colon then None
    else Some((us.value[0].s, us.value[2..]))
  }

  /** decodeOrderedObject: one object and nothing after it. */
  function DecodeObject(ts: seq<Token>): Option<Json> {
    var r := DecodeValue(ts, 0);
    if r.Some? && r.value.1 == [] && r.value.0.Object? then Some(r.value.0) else None
  }

  // --- Round trip ---

  /** Every object's keys are distinct, as jsonObj keeps them. */
  predicate Proper(v: Json) {
    match v
    case List(items) => forall i :: 0 <= i < |items| ==> Proper(items[i])
    case Object(members) => DistinctKeys(members) && forall i :: 0 <= i < |members| ==> Proper(members[i].value)
    case _ => true
  }

  /** No value nests deeper than the decoder goes. */
  predicate Shallow(v: Json, depth: int) {
    && depth <= MAX_DEPTH
    && match v
       case List(items) => forall i :: 0 <= i < |items| ==> Shallow(items[i], depth + 1)
       case Object(members) => forall i :: 0 <= i < |members| ==> Shallow(members[i].value, depth + 1)
       case _ => true
  }

  /**
   Decoding what was written gives back the value, with its key order and number
   spelling, exactly when it nests no deeper than the decoder goes; a deeper one
   is refused.
   */
  lemma {:induction false} RoundTrip(v: Json, depth: int, rest: seq<Token>)
    requires Proper(v)
    ensures DecodeValue(Tokens(v) + rest, depth) == if Shallow(v, depth) then Some((v, rest)) else None
    decreases v, 1, 0
  {
    Opens(v, rest);
    match v
    case List(items) =>
      ItemsRoundTrip(v, 0, depth, rest);
      assert items[..0] == [];
    case Object(members) =>
      MembersRoundTrip(v, 0, depth, rest);
      assert members[..0] == [];
    case _ =>
  }

  /** The first token of a value and what follows it. */
  lemma Opens(v: Json, rest: seq<Token>)
    ensures var ts := Tokens(v) + rest;
            && ts != []
            && match v
               case List(_) => ts[0] == LeftBracket && ts[1..] == ItemTokens(v, 0) + [RightBracket] + rest
               case Object(_) => ts[0] == LeftBrace && ts[1..] == MemberTokens(v, 0) + [RightBrace] + rest
               case _ => ts[0] == ScalarToken(v) && ts[1..] == rest
  {
  }

  lemma NextTaken<T>(s: seq<T>, i: nat)
    requires i < |s|
    ensures s[..i] + [s[i]] == s[..i + 1]
  {
  }

  predicate ItemsShallow(items: seq<Json>, i: nat, depth: int) {
    forall j :: i <= j < |items| ==> Shallow(items[j], depth + 1)
  }

  lemma AfterSeparator(ts: seq<Token>, us: seq<Token>, first: bool)
    requires us != [] && ts == (if first then [] else [Comma]) + us
    ensures Separated(ts, first) == Some(us) && ts != [] && (ts[0] == if first then us[0] else Comma)
  {
    if first {
      assert ts == us;
    } else {
      assert ts[1..] == us;
    }
  }

  lemma Shifted<T>(a: seq<T>, b: seq<T>, c: seq<T>, d: seq<T>, e: seq<T>)
    ensures a + b + c + d + e == a + (b + (c + d + e))
  {
  }

  lemma ItemsApart(v: Json, i: nat, rest: seq<Token>)
    requires v.List? && i < |v.items|
    ensures ItemTokens(v, i) + [RightBracket] + rest ==
            (if i > 0 then [Comma] else []) + (Tokens(v.items[i]) + (ItemTokens(v, i + 1) + [RightBracket] + rest))
  {
    Shifted(if i > 0 then [Comma] else [], Tokens(v.items[i]), ItemTokens(v, i + 1), [RightBracket], rest);
  }

  lemma MembersApart(v: Json, i: nat, rest: seq<Token>)
    requires v.Object? && i < |v.members|
    ensures MemberTokens(v, i) + [RightBrace] + rest ==
            (if i > 0 then [Comma] else [])
            + ([TString(v.members[i].key), Colon] + (Tokens(v.members[i].value) + (MemberTokens(v, i + 1) + [RightBrace] + rest)))
  {
    var sep, key := if i > 0 then [Comma] else [], [TString(v.members[i].key), Colon];
    Shifted(sep + key, Tokens(v.members[i].value), MemberTokens(v, i + 1), [RightBrace], rest);
    Shifted([], [], sep, key, Tokens(v.members[i].value) + (MemberTokens(v, i + 1) + [RightBrace] + rest));
  }

  /** One element more. */
  lemma ItemsStep(ts: seq<Token>, us: seq<Token>, items: seq<Json>, depth: int)
    requires us != [] && us[0] != RightBracket && ts == (if items == [] then [] else [Comma]) + us
    ensures DecodeItems(ts, items, depth) ==
            var r := DecodeValue(us, depth + 1);
            if r.None? then None else DecodeItems(r.value.1, items + [r.value.0], depth)
  {
    AfterSeparator(ts, us, items == []);
  }

  lemma {:induction false} ItemsRoundTrip(v: Json, i: nat, depth: int, rest: seq<Token>)
    requires v.List? && i <= |v.items| && Proper(v)
    ensures DecodeItems(ItemTokens(v, i) + [RightBracket] + rest, v.items[..i], depth) ==
            if ItemsShallow(v.items, i, depth) then Some((v, rest)) else None
    decreases v, 0, |v.items| - i
  {
    var ts := ItemTokens(v, i) + [RightBracket] + rest;
    if i == |v.items| {
      assert v.items[..i] == v.items && ts[1..] == rest;
    } else {
      var item := v.items[i];
      var after := ItemTokens(v, i + 1) + [RightBracket] + rest;
      RoundTrip(item, depth + 1, after);
      ItemsRoundTrip(v, i + 1, depth, rest);
      ItemsApart(v, i, rest);
      ItemsStep(ts, Tokens(item) + after, v.items[..i], depth);
      NextTaken(v.items, i);
      assert ItemsShallow(v.items, i, depth) <==> Shallow(item, depth + 1) && ItemsShallow(v.items, i + 1, depth);
    }
  }

  predicate MembersShallow(members: seq<Member<string, Json>>, i: nat, depth: int) {
    forall j :: i <= j < |members| ==> Shallow(members[j].value, depth + 1)
  }

  lemma MembersStep(ts: seq<Token>, us: seq<Token>, key: string, members: seq<Member<string, Json>>, depth: int)
    requires ts == (if members == [] then [] else [Comma]) + ([TString(key), Colon] + us)
    ensures DecodeMembers(ts, members, depth) ==
            var r := DecodeValue(us, depth + 1);
            if r.None? then None else DecodeMembers(r.value.1, Set(members, key, r.value.0), depth)
  {
    var ks := [TString(key), Colon] + us;
    AfterSeparator(ts, ks, members == []);
    assert ks[2..] == us;
  }

  lemma SetNew(members: seq<Member<string, Json>>, i: nat)
    requires i < |members| && DistinctKeys(members)
    ensures Set(members[..i], members[i].key, members[i].value) == members[..i + 1]
  {
    IndexIs(members[..i], members[i].key, i);
    assert members[..i] + [members[i]] == members[..i + 1];
  }

  lemma {:induction false} MembersRoundTrip(v: Json, i: nat, depth: int, rest: seq<Token>)
    requires v.Object? && i <= |v.members| && Proper(v)
    ensures DecodeMembers(MemberTokens(v, i) + [RightBrace] + rest, v.members[..i], depth) ==
            if MembersShallow(v.members, i, depth) then Some((v, rest)) else None
    decreases v, 0, |v.members| - i
  {
    var ts := MemberTokens(v, i) + [RightBrace] + rest;
    if i == |v.members| {
      assert v.members[..i] == v.members && ts[1..] == rest;
    } else {
      var m := v.members[i];
      var after := MemberTokens(v, i + 1) + [RightBrace] + rest;
      RoundTrip(m.value, depth + 1, after);
      MembersRoundTrip(v, i + 1, depth, rest);
      MembersApart(v, i, rest);
      MembersStep(ts, Tokens(m.value) + after, m.key, v.members[..i], depth);
      SetNew(v.members, i);
      assert MembersShallow(v.members, i, depth) <==> Shallow(m.value, depth + 1) && MembersShallow(v.members, i + 1, depth);
    }
  }

  /** Whatever is read has distinct keys and is no deeper than the decoder goes, duplicate keys in the text or not. */
  lemma {:induction false} DecodedIsProper(ts: seq<Token>, depth: int)
    ensures var r := DecodeValue(ts, depth);
            r.Some? ==> Proper(r.value.0) && Shallow(r.value.0, depth)
    decreases |ts|, 0
  {
    if depth <= MAX_DEPTH && ts != [] {
      if ts[0] == LeftBrace {
        DecodedMembersProper(ts[1..], [], depth);
      } else if ts[0] == LeftBracket {
        DecodedItemsProper(ts[1..], [], depth);
      }
    }
  }

  lemma {:induction false} DecodedItemsProper(ts: seq<Token>, items: seq<Json>, depth: int)
    requires depth <= MAX_DEPTH && Proper(List(items)) && Shallow(List(items), depth)
    ensures var r := DecodeItems(ts, items, depth);
            r.Some? ==> Proper(r.value.0) && Shallow(r.value.0, depth)
    decreases |ts|, 1
  {
    if ts != [] && ts[0] != RightBracket && Separated(ts, items == []).Some? {
      var us := Separated(ts, items == []).value;
      DecodedIsProper(us, depth + 1);
      var r := DecodeValue(us, depth + 1);
      if r.Some? {
        DecodedItemsProper(r.value.1, items + [r.value.0], depth);
      }
    }
  }

  lemma SetIsProper(members: seq<Member<string, Json>>, key: string, value: Json, depth: int)
    requires Proper(Object(members)) && Shallow(Object(members), depth) && Proper(value) && Shallow(value, depth + 1)
    ensures Proper(Object(Set(members, key, value))) && Shallow(Object(Set(members, key, value)), depth)
  {
    GetSet(members, key, value, key);
  }

  lemma {:induction false} DecodedMembersProper(ts: seq<Token>, members: seq<Member<string, Json>>, depth: int)
    requires depth <= MAX_DEPTH && Proper(Object(members)) && Shallow(Object(members), depth)
    ensures var r := DecodeMembers(ts, members, depth);
            r.Some? ==> Proper(r.value.0) && Shallow(r.value.0, depth)
    decreases |ts|, 1
  {
    var k := KeyOf(ts, members == []);
    if ts != [] && ts[0] != RightBrace && k.Some? {
      DecodedIsProper(k.value.1, depth + 1);
      var r := DecodeValue(k.value.1, depth + 1);
      if r.Some? {
        SetIsProper(members, k.value.0, r.value.0, depth);
        DecodedMembersProper(r.value.1, Set(members, k.value.0, r.value.0), depth);
      }
    }
  }

  /** What the installer reads it can write and read again unchanged. */
  lemma ReadWriteRead(ts: seq<Token>)
    ensures var v := DecodeObject(ts);
            v.Some? ==> DecodeObject(Tokens(v.value)) == v
  {
    var v := DecodeObject(ts);
    if v.Some? {
      DecodedIsProper(ts, 0);
      RoundTrip(v.value, 0, []);
      assert Tokens(v.value) + [] == Tokens(v.value);
    }
  }

  /** The decoder as it runs: a cursor over the tokens. */
  class Decoder {
    const tokens: seq<Token>
    var pos: nat

    constructor (tokens: seq<Token>)
      ensures this.tokens == tokens && pos == 0
    {
      this.tokens := tokens;
      pos := 0;
    }

    predicate Valid()
      reads this
    {
      pos <= |tokens|
    }

    function Rest(): seq<Token>
      reads this
      requires Valid()
    {
      tokens[pos..]
    }

    /** What the function says, with the cursor after the value. */
    predicate Reads(r: Option<Json>, d: Decoded)
      reads this
    {
      Valid() && (r.Some? <==> d.Some?) && (r.Some? ==> d.value == (r.value, Rest()))
    }

    method ReadValue(depth: int) returns (r: Option<Json>)
      requires Valid()
      modifies this
      ensures Reads(r, DecodeValue(old(Rest()), depth)) && pos >= old(pos) && (r.Some? ==> pos > old(pos))
      decreases |tokens| - pos, 0
    {
      if depth > MAX_DEPTH || pos == |tokens| {
        return None;
      }
      var t := tokens[pos];
      assert Rest()[0] == t && Rest()[1..] == tokens[pos + 1..];
      pos := pos + 1;
      match t {
      case LeftBrace => r := ReadMembers(depth);
      case LeftBracket => r := ReadItems(depth);
      case TNull => r := Some(Null);
      case TTrue => r := Some(Bool(true));
      case TFalse => r := Some(Bool(false));
      case TNumber(spelling) => r := Some(Number(spelling));
      case TString(s) => r := Some(Str(s));
      case _ => r := None;
      }
    }

    method ReadItems(depth: int) returns (r: Option<Json>)
      requires Valid()
      modifies this
      ensures Reads(r, DecodeItems(old(Rest()), [], depth)) && pos >= old(pos)
      decreases |tokens| - pos, 1
    {
      var items: seq<Json> := [];
      while pos < |tokens| && tokens[pos] != RightBracket
        invariant Valid() && pos >= old(pos)
        invariant DecodeItems(Rest(), items, depth) == DecodeItems(old(Rest()), [], depth)
        decreases |tokens| - pos
      {
        if |items| > 0 {
          if tokens[pos] != Comma {
            return None;
          }
          assert Rest()[1..] == tokens[pos + 1..];
          pos := pos + 1;
        }
        var v := ReadValue(depth + 1);
        if v.None? {
          return None;
        }
        items := items + [v.value];
      }
      if pos == |tokens| {
        return None;
      }
      assert Rest()[1..] == tokens[pos + 1..];
      pos := pos + 1;
      return Some(List(items));
    }

    /** The next key and its colon. */
    method ReadKey(first: bool) returns (key: Option<string>)
      requires Valid()
      modifies this`pos
      ensures Valid() && pos >= old(pos)
      ensures var k := KeyOf(old(Rest()), first);
              (key.Some? <==> k.Some?) && (key.Some? ==> k.value == (key.value, Rest()) && pos > old(pos))
    {
      ghost var ts := Rest();
      if !first {
        if pos == |tokens| || tokens[pos] != Comma {
          return None;
        }
        assert ts[1..] == tokens[pos + 1..];
        pos := pos + 1;
      }
      if pos + 2 > |tokens| || !tokens[pos].TString? || tokens[pos + 1] != Colon {
        return None;
      }
      assert Rest()[2..] == tokens[pos + 2..];
      key := Some(tokens[pos].s);
      pos := pos + 2;
    }

    method ReadMembers(depth: int) returns (r: Option<Json>)
      requires Valid()
      modifies this
      ensures Reads(r, DecodeMembers(old(Rest()), [], depth)) && pos >= old(pos)
      decreases |tokens| - pos, 1
    {
      var members: seq<Member<string, Json>> := [];
      while pos < |tokens| && tokens[pos] != RightBrace
        invariant Valid() && pos >= old(pos)
        invariant DecodeMembers(Rest(), members, depth) == DecodeMembers(old(Rest()), [], depth)
        decreases |tokens| - pos
      {
        var key := ReadKey(|members| == 0);
        if key.None? {
          return None;
        }
        var v := ReadValue(depth + 1);
        if v.None? {
          return None;
        }
        members := Set(members, key.value, v.value);
      }
      if pos == |tokens| {
        return None;
      }
      assert Rest()[1..] == tokens[pos + 1..];
      pos := pos + 1;
      return Some(Object(members));
    }
  }
}
