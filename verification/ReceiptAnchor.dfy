/**
 The receipt chain, its anchors, and what a check against an anchor reports
 (receipt_anchor.go, receipt_anchor_job.go).

 The hash is ideal: a link is the term that says what was hashed, so it is
 injective in the previous link and the row, and the genesis link is no other
 link. The shortened link kept in a trail entry is an arbitrary function of the
 link, so nothing is assumed about two links sharing their first digits.
 */
module ReceiptAnchor {
  import opened Wrappers
  import opened ReceiptEncoding

  type History = seq<Row>

  datatype Link = Genesis | Next(prev: Link, row: Row)

  /**
   How a receipt is named and how a trail shortens a link. Every result below
   holds for any naming; receipts verify-anchor uses ReceiptId and the first
   sixteen hex digits.
   */
  datatype Naming = Naming(id: Row -> Bytes, shorten: Link -> Bytes)

  datatype TrailEntry = TrailEntry(id: Bytes, link: Bytes)

  /** count is -1 for a bare terminal link. */
  datatype Anchor = Anchor(count: int, first: Bytes, last: Bytes, link: Link, trail: seq<TrailEntry>)

  datatype Kind = Unnamed | Deleted | Inserted | Reordered | Changed

  datatype CheckResult = CheckResult(matches: bool, anchorCount: int, storeCount: int, appended: int,
                                     position: int, kind: Kind, anchorID: Bytes, storeID: Bytes)

  /** receiptID: the receipt's own id, or the row number of a row written before ids existed. */
  function ReceiptId(r: Row): Bytes {
    if r.receiptID != [] then r.receiptID else FormatInt(r.id)
  }

  predicate Stored(rows: History, n: Naming, id: Bytes) {
    exists i :: 0 <= i < |rows| && n.id(rows[i]) == id
  }

  predicate Anchored(a: Anchor, id: Bytes) {
    exists i :: 0 <= i < |a.trail| && a.trail[i].id == id
  }

  predicate DistinctIds(rows: History, n: Naming) {
    forall i, j :: 0 <= i < j < |rows| ==> n.id(rows[i]) != n.id(rows[j])
  }

  /**
   In a store, where no two rows have the same number, receipts are told apart
   by that name unless two of them carry the same id, or one carries as its id
   the number of a row that has none.
   */
  lemma NamesDistinctIff(rows: History, shorten: Link -> Bytes)
    requires forall i, j :: 0 <= i < j < |rows| ==> rows[i].id != rows[j].id
    ensures DistinctIds(rows, Naming(ReceiptId, shorten)) <==>
            forall i, j :: 0 <= i < |rows| && 0 <= j < |rows| && i != j && rows[i].receiptID != [] ==>
              rows[i].receiptID != (if rows[j].receiptID != [] then rows[j].receiptID else FormatInt(rows[j].id))
  {
    var n := Naming(ReceiptId, shorten);
    forall i, j | 0 <= i < j < |rows| && rows[i].receiptID == [] && rows[j].receiptID == []
      ensures n.id(rows[i]) != n.id(rows[j])
    {
      ParseFormatInt(rows[i].id);
      ParseFormatInt(rows[j].id);
    }
    assert forall i :: 0 <= i < |rows| ==> n.id(rows[i]) == ReceiptId(rows[i]);
    if DistinctIds(rows, n) {
      forall i, j | 0 <= i < |rows| && 0 <= j < |rows| && i != j && rows[i].receiptID != []
        ensures ReceiptId(rows[i]) != ReceiptId(rows[j])
      {
        if i < j {
          assert n.id(rows[i]) != n.id(rows[j]);
        } else {
          assert n.id(rows[j]) != n.id(rows[i]);
        }
      }
    }
  }

  // --- The chain ---

  /** The link after every row of the history. */
  function Chain(rows: History): Link {
    if rows == [] then Genesis else Next(Chain(rows[..|rows| - 1]), rows[|rows| - 1])
  }

  lemma {:induction false} ChainInjective(a: History, b: History)
    requires Chain(a) == Chain(b)
    ensures a == b
  {
    if a != [] && b != [] {
      ChainInjective(a[..|a| - 1], b[..|b| - 1]);
      assert a == a[..|a| - 1] + [a[|a| - 1]];
      assert b == b[..|b| - 1] + [b[|b| - 1]];
    }
  }

  method ReceiptChainLinks(rows: History) returns (links: seq<Link>)
    ensures |links| == |rows| + 1
    ensures forall i :: 0 <= i <= |rows| ==> links[i] == Chain(rows[..i])
  {
    links := [Genesis];
    for k := 0 to |rows|
      invariant |links| == k + 1
      invariant forall i :: 0 <= i <= k ==> links[i] == Chain(rows[..i])
    {
      assert rows[..k + 1][..k] == rows[..k];
      links := links + [Next(links[|links| - 1], rows[k])];
    }
  }

  function Trail(rows: History, n: Naming): seq<TrailEntry> {
    seq(|rows|, i requires 0 <= i < |rows| => TrailEntry(n.id(rows[i]), n.shorten(Chain(rows[..i + 1]))))
  }

  /** The anchor of a whole history. */
  function AnchorOf(rows: History, n: Naming): Anchor {
    Anchor(|rows|, if rows == [] then [] else n.id(rows[0]), if rows == [] then [] else n.id(rows[|rows| - 1]),
           Chain(rows), Trail(rows, n))
  }

  method AnchorFromLinks(rows: History, links: seq<Link>, n: Naming) returns (a: Anchor)
    requires |links| == |rows| + 1
    requires forall i :: 0 <= i <= |rows| ==> links[i] == Chain(rows[..i])
    ensures a == AnchorOf(rows, n)
  {
    a := Anchor(|rows|, [], [], links[|rows|], []);
    for i := 0 to |rows|
      invariant a == Anchor(|rows|, [], [], links[|rows|], a.trail)
      invariant a.trail == Trail(rows, n)[..i]
    {
      a := a.(trail := a.trail + [TrailEntry(n.id(rows[i]), n.shorten(links[i + 1]))]);
    }
    if |rows| > 0 {
      a := a.(first := n.id(rows[0]), last := n.id(rows[|rows| - 1]));
    }
    assert rows[..|rows|] == rows;
  }

  // --- The check ---

  /** Position p (counted from 1) of the store holds what the trail has there. */
  predicate Agrees(rows: History, a: Anchor, n: Naming, p: int)
    requires 1 <= p <= |a.trail|
  {
    && p <= |rows|
    && n.id(rows[p - 1]) == a.trail[p - 1].id
    && n.shorten(Chain(rows[..p])) == a.trail[p - 1].link
  }

  /** p is the first position that does not agree with the trail. */
  predicate FirstDivergence(rows: History, a: Anchor, n: Naming, p: int) {
    && 1 <= p <= |a.trail|
    && !Agrees(rows, a, n, p)
    && forall q :: 1 <= q < p ==> Agrees(rows, a, n, q)
  }

  predicate TrailAgrees(rows: History, a: Anchor, n: Naming) {
    forall q :: 1 <= q <= |a.trail| ==> Agrees(rows, a, n, q)
  }

  /** What is said about the first position that differs. */
  function KindAt(rows: History, a: Anchor, n: Naming, p: int): Kind
    requires 1 <= p <= |a.trail|
  {
    if p > |rows| then Deleted
    else if n.id(rows[p - 1]) == a.trail[p - 1].id then Changed
    else if !Stored(rows, n, a.trail[p - 1].id) then Deleted
    else if !Anchored(a, n.id(rows[p - 1])) then Inserted
    else Reordered
  }

  method ClassifyDivergence(res: CheckResult, rows: History, a: Anchor, n: Naming, p: int) returns (out: CheckResult)
    requires 1 <= p <= |a.trail|
    ensures out == res.(position := p, kind := KindAt(rows, a, n, p), anchorID := a.trail[p - 1].id,
                        storeID := if p <= |rows| then n.id(rows[p - 1]) else res.storeID)
  {
    out := res.(position := p, anchorID := a.trail[p - 1].id);
    if p > |rows| {
      out := out.(kind := Deleted);
      return;
    }
    out := out.(storeID := n.id(rows[p - 1]));
    if out.storeID == out.anchorID {
      out := out.(kind := Changed);
      return;
    }
    var stored: set<Bytes> := {};
    for i := 0 to |rows|
      invariant stored == set j | 0 <= j < i :: n.id(rows[j])
    {
      stored := stored + {n.id(rows[i])};
    }
    var anchored: set<Bytes> := {};
    for i := 0 to |a.trail|
      invariant anchored == set j | 0 <= j < i :: a.trail[j].id
    {
      anchored := anchored + {a.trail[i].id};
    }
    if out.anchorID !in stored {
      out := out.(kind := Deleted);
    } else if out.storeID !in anchored {
      out := out.(kind := Inserted);
    } else {
      out := out.(kind := Reordered);
    }
  }

  function Blank(rows: History, a: Anchor): CheckResult {
    CheckResult(false, a.count, |rows|, 0, 0, Unnamed, [], [])
  }

  ghost predicate BareAnswers(rows: History, a: Anchor, res: CheckResult) {
    || (exists i :: 0 <= i <= |rows| && Chain(rows[..i]) == a.link
         && res == Blank(rows, a).(matches := true, anchorCount := i, appended := |rows| - i))
    || ((forall i :: 0 <= i <= |rows| ==> Chain(rows[..i]) != a.link) && res == Blank(rows, a).(anchorCount := 0))
  }

  ghost predicate DivergenceAnswers(rows: History, a: Anchor, n: Naming, res: CheckResult) {
    var p := res.position;
    && FirstDivergence(rows, a, n, p)
    && res == Blank(rows, a).(position := p, kind := KindAt(rows, a, n, p), anchorID := a.trail[p - 1].id,
                              storeID := if p <= |rows| then n.id(rows[p - 1]) else [])
  }

  ghost predicate LinkAnswers(rows: History, a: Anchor, n: Naming, res: CheckResult)
    requires a.count >= 0
  {
    if a.count <= |rows| && Chain(rows[..a.count]) == a.link then
      res == Blank(rows, a).(matches := true, appended := |rows| - a.count)
    else if |a.trail| == a.count && a.count > 0 then
      && a.count <= |rows|
      && res == Blank(rows, a).(position := a.count, kind := Changed, anchorID := a.trail[a.count - 1].id,
                                storeID := n.id(rows[a.count - 1]))
    else res == Blank(rows, a)
  }

  /**
   What a check answers. A bare link (count below 0) has no trail; a trail is
   used only when it has an entry for every anchored receipt.
   */
  ghost predicate Answers(rows: History, a: Anchor, n: Naming, res: CheckResult) {
    if a.count < 0 then BareAnswers(rows, a, res)
    else if |a.trail| == a.count && !TrailAgrees(rows, a, n) then DivergenceAnswers(rows, a, n, res)
    else LinkAnswers(rows, a, n, res)
  }

  method CheckReceiptAnchor(rows: History, a: Anchor, n: Naming) returns (res: CheckResult)
    ensures Answers(rows, a, n, res)
  {
    var links := ReceiptChainLinks(rows);
    res := CheckResult(false, a.count, |rows|, 0, 0, Unnamed, [], []);
    if a.count < 0 {
      for i := 0 to |links|
        invariant forall j :: 0 <= j < i ==> Chain(rows[..j]) != a.link
      {
        if links[i] == a.link {
          res := res.(matches := true, anchorCount := i, appended := |rows| - i);
          return;
        }
      }
      res := res.(anchorCount := 0);
      return;
    }
    if |a.trail| == a.count {
      for p := 1 to a.count + 1
        invariant forall q :: 1 <= q < p ==> Agrees(rows, a, n, q)
      {
        var want := a.trail[p - 1];
        if p <= |rows| && n.id(rows[p - 1]) == want.id && n.shorten(links[p]) == want.link {
          continue;
        }
        assert FirstDivergence(rows, a, n, p);
        res := ClassifyDivergence(res, rows, a, n, p);
        return;
      }
    }
    if a.count <= |rows| && links[a.count] == a.link {
      res := res.(matches := true, appended := |rows| - a.count);
      return;
    }
    if |a.trail| == a.count && a.count > 0 {
      assert Agrees(rows, a, n, a.count);
      res := res.(position := a.count, kind := Changed, anchorID := a.trail[a.count - 1].id,
                  storeID := n.id(rows[a.count - 1]));
    }
  }

  // --- A match means exactly that the anchored history is still a prefix ---

  datatype Form = WithTrail | WithoutTrail | BareLink

  /** The three ways an operator keeps an anchor. */
  function KeptAs(h: History, form: Form, n: Naming): Anchor {
    match form
    case WithTrail => AnchorOf(h, n)
    case WithoutTrail => AnchorOf(h, n).(trail := [])
    case BareLink => Anchor(-1, [], [], Chain(h), [])
  }

  lemma ReachesIffPrefix(rows: History, h: History)
    ensures (exists i :: 0 <= i <= |rows| && Chain(rows[..i]) == Chain(h)) <==> h <= rows
    ensures forall i :: 0 <= i <= |rows| && Chain(rows[..i]) == Chain(h) ==> i == |h|
  {
    forall i | 0 <= i <= |rows| && Chain(rows[..i]) == Chain(h)
      ensures rows[..i] == h
    {
      ChainInjective(rows[..i], h);
    }
    if h <= rows {
      assert rows[..|h|] == h;
    }
  }

  lemma PrefixAgrees(rows: History, h: History, n: Naming, p: int)
    requires 1 <= p <= |h| && p <= |rows| && rows[..p] == h[..p]
    ensures Agrees(rows, AnchorOf(h, n), n, p)
  {
    assert rows[p - 1] == rows[..p][p - 1] == h[..p][p - 1];
  }

  lemma MatchesIffPrefix(rows: History, h: History, form: Form, n: Naming, res: CheckResult)
    requires Answers(rows, KeptAs(h, form, n), n, res)
    ensures res.matches <==> h <= rows
    ensures res.matches ==> res.anchorCount == |h| && res.appended == |rows| - |h|
  {
    ReachesIffPrefix(rows, h);
    if form == WithTrail && h <= rows {
      forall q | 1 <= q <= |h|
        ensures Agrees(rows, AnchorOf(h, n), n, q)
      {
        assert rows[..q] == h[..q];
        PrefixAgrees(rows, h, n, q);
      }
    }
    if h <= rows {
      assert rows[..|h|] == h;
    }
  }

  // --- One edit is named, with its position ---

  /** The store still holds the history up to position k, and holds another receipt (or none) at k. */
  lemma OtherIdAt(rows: History, h: History, n: Naming, k: int, res: CheckResult)
    requires Answers(rows, AnchorOf(h, n), n, res)
    requires 1 <= k <= |h| && k - 1 <= |rows| && rows[..k - 1] == h[..k - 1]
    requires k <= |rows| ==> n.id(rows[k - 1]) != n.id(h[k - 1])
    ensures !res.matches && res.position == k && res.kind == KindAt(rows, AnchorOf(h, n), n, k)
  {
    var a := AnchorOf(h, n);
    assert !Agrees(rows, a, n, k);
    forall q | 1 <= q < k
      ensures Agrees(rows, a, n, q)
    {
      assert rows[..q] == rows[..k - 1][..q] == h[..k - 1][..q] == h[..q];
      PrefixAgrees(rows, h, n, q);
    }
    assert res.position == k;
  }

  /** The store agrees before position k, and the receipt anchored there is nowhere in it. */
  lemma MissingNamed(rows: History, h: History, n: Naming, k: int, res: CheckResult)
    requires Answers(rows, AnchorOf(h, n), n, res)
    requires 1 <= k <= |h| && k - 1 <= |rows| && rows[..k - 1] == h[..k - 1]
    requires !Stored(rows, n, n.id(h[k - 1]))
    ensures !res.matches && res.position == k && res.kind == Deleted
  {
    OtherIdAt(rows, h, n, k, res);
    assert AnchorOf(h, n).trail[k - 1].id == n.id(h[k - 1]);
  }

  function Without(rows: History, k: int): History
    requires 1 <= k <= |rows|
  {
    rows[..k - 1] + rows[k..]
  }

  lemma WithoutNotStored(rows: History, k: int, n: Naming)
    requires 1 <= k <= |rows| && DistinctIds(rows, n)
    ensures !Stored(Without(rows, k), n, n.id(rows[k - 1]))
  {
    var left := Without(rows, k);
    forall i | 0 <= i < |left|
      ensures n.id(left[i]) != n.id(rows[k - 1])
    {
      assert left[i] == rows[if i < k - 1 then i else i + 1];
    }
  }

  /** Receipt k is gone; later receipts may have been appended since. */
  lemma DeletionNamed(h: History, k: int, later: History, n: Naming, res: CheckResult)
    requires 1 <= k <= |h| && DistinctIds(h + later, n)
    requires Answers(Without(h + later, k), AnchorOf(h, n), n, res)
    ensures !res.matches && res.position == k && res.kind == Deleted
  {
    WithoutNotStored(h + later, k, n);
    assert (h + later)[k - 1] == h[k - 1];
    assert Without(h + later, k)[..k - 1] == h[..k - 1];
    MissingNamed(Without(h + later, k), h, n, k, res);
  }

  /** A receipt nobody anchored stands before the old receipt k. */
  lemma InsertionNamed(h: History, k: int, x: Row, later: History, n: Naming, res: CheckResult)
    requires 1 <= k <= |h| && !Stored(h, n, n.id(x))
    requires Answers(h[..k - 1] + [x] + h[k - 1..] + later, AnchorOf(h, n), n, res)
    ensures !res.matches && res.position == k && res.kind == Inserted
  {
    var rows := h[..k - 1] + [x] + h[k - 1..] + later;
    var a := AnchorOf(h, n);
    assert rows[k - 1] == x && rows[k] == h[k - 1];
    assert Stored(rows, n, n.id(h[k - 1]));
    assert rows[..k - 1] == h[..k - 1];
    forall i | 0 <= i < |a.trail|
      ensures a.trail[i].id != n.id(x)
    {
      assert a.trail[i].id == n.id(h[i]);
    }
    OtherIdAt(rows, h, n, k, res);
  }

  function Swapped(h: History, j: int, k: int): History
    requires 1 <= j < k <= |h|
  {
    h[j - 1 := h[k - 1]][k - 1 := h[j - 1]]
  }

  /** After a swap the store agrees up to the first of the two, and both ids are known on either side. */
  lemma SwapFacts(h: History, j: int, k: int, later: History, n: Naming)
    requires 1 <= j < k <= |h|
    ensures var rows, a := Swapped(h, j, k) + later, AnchorOf(h, n);
            && rows[..j - 1] == h[..j - 1] && rows[j - 1] == h[k - 1]
            && Stored(rows, n, n.id(h[j - 1]))
            && exists i :: 0 <= i < |a.trail| && a.trail[i].id == n.id(rows[j - 1])
  {
    var rows, a := Swapped(h, j, k) + later, AnchorOf(h, n);
    assert rows[k - 1] == h[j - 1];
    assert a.trail[k - 1].id == n.id(h[k - 1]);
  }

  /** Receipts j and k changed places. */
  lemma SwapNamed(h: History, j: int, k: int, later: History, n: Naming, res: CheckResult)
    requires 1 <= j < k <= |h| && n.id(h[j - 1]) != n.id(h[k - 1])
    requires Answers(Swapped(h, j, k) + later, AnchorOf(h, n), n, res)
    ensures !res.matches && res.position == j && res.kind == Reordered
  {
    SwapFacts(h, j, k, later, n);
    OtherIdAt(Swapped(h, j, k) + later, h, n, j, res);
  }

  lemma ReplacedNotStored(rows: History, k: int, x: Row, n: Naming)
    requires 1 <= k <= |rows| && DistinctIds(rows, n) && n.id(x) != n.id(rows[k - 1])
    ensures !Stored(rows[k - 1 := x], n, n.id(rows[k - 1]))
  {
  }

  /** Receipt k was replaced by one that carries another id. */
  lemma ReplacementNamed(h: History, k: int, x: Row, later: History, n: Naming, res: CheckResult)
    requires 1 <= k <= |h| && DistinctIds(h + later, n) && n.id(x) != n.id(h[k - 1])
    requires Answers((h + later)[k - 1 := x], AnchorOf(h, n), n, res)
    ensures !res.matches && res.position == k && res.kind == Deleted
  {
    assert (h + later)[k - 1] == h[k - 1];
    ReplacedNotStored(h + later, k, x, n);
    assert (h + later)[k - 1 := x][..k - 1] == h[..k - 1];
    MissingNamed((h + later)[k - 1 := x], h, n, k, res);
  }

  /**
   Receipt k keeps its id and has other content. The check always fails and
   always says changed, never before position k; it says exactly k unless the
   two links at k share their shortened form and k is not the last position.
   */
  lemma AlterationNamed(h: History, k: int, x: Row, later: History, n: Naming, res: CheckResult)
    requires 1 <= k <= |h| && x != h[k - 1] && n.id(x) == n.id(h[k - 1])
    requires Answers(h[k - 1 := x] + later, AnchorOf(h, n), n, res)
    ensures !res.matches && res.kind == Changed && res.position >= k
    ensures res.position == k <==>
            k == |h| || n.shorten(Chain(h[..k - 1] + [x])) != n.shorten(Chain(h[..k]))
  {
    var rows := h[k - 1 := x] + later;
    assert rows[k - 1] == x;
    MatchesIffPrefix(rows, h, WithTrail, n, res);
    AlterationFacts(h, k, x, later, n);
  }

  lemma AlterationFacts(h: History, k: int, x: Row, later: History, n: Naming)
    requires 1 <= k <= |h| && n.id(x) == n.id(h[k - 1])
    ensures var rows, a := h[k - 1 := x] + later, AnchorOf(h, n);
            && (forall q :: 1 <= q < k ==> Agrees(rows, a, n, q))
            && (forall i :: 0 <= i < |h| ==> n.id(rows[i]) == a.trail[i].id)
            && (Agrees(rows, a, n, k) <==> n.shorten(Chain(h[..k - 1] + [x])) == n.shorten(Chain(h[..k])))
  {
    var rows, a := h[k - 1 := x] + later, AnchorOf(h, n);
    assert rows[..k] == h[..k - 1] + [x];
    forall q | 1 <= q < k
      ensures Agrees(rows, a, n, q)
    {
      assert rows[..q] == h[..q];
      PrefixAgrees(rows, h, n, q);
    }
  }

  // --- The log of anchors ---

  /** index is the first anchor of the log the store fails, or the last when it fails none. */
  ghost predicate LogAnswers(rows: History, entries: seq<Anchor>, n: Naming, index: int, res: CheckResult) {
    && 0 <= index < |entries|
    && Answers(rows, entries[index], n, res)
    && (res.matches ==> index == |entries| - 1)
    && forall i :: 0 <= i < index ==> exists r :: Answers(rows, entries[i], n, r) && r.matches
  }

  method CheckAnchorLog(rows: History, entries: seq<Anchor>, n: Naming)
    returns (index: int, res: CheckResult)
    ensures entries == [] ==> index == -1
    ensures entries != [] ==> LogAnswers(rows, entries, n, index, res)
  {
    index := -1;
    res := CheckResult(false, 0, 0, 0, 0, Unnamed, [], []);
    for i := 0 to |entries|
      invariant index == i - 1
      invariant forall j :: 0 <= j < i ==> exists r :: Answers(rows, entries[j], n, r) && r.matches
      invariant i > 0 ==> Answers(rows, entries[i - 1], n, res) && res.matches
    {
      res := CheckReceiptAnchor(rows, entries[i], n);
      index := i;
      if !res.matches {
        break;
      }
    }
  }

  /**
   Every anchor of the log was taken of some past state of one true history. The
   store agrees with that history before position k and not at k. Then the
   anchor the check returns is the oldest that covers position k, however many
   newer ones do; and when no anchor covers it, the check passes.
   */
  lemma OldestCoveringAnchor(truth: History, counts: seq<nat>, rows: History, k: int, n: Naming,
                             index: int, res: CheckResult)
    requires forall i :: 0 <= i < |counts| ==> counts[i] <= |truth|
    requires 1 <= k <= |truth| && k - 1 <= |rows| && rows[..k - 1] == truth[..k - 1]
    requires k <= |rows| ==> rows[k - 1] != truth[k - 1]
    requires LogAnswers(rows, seq(|counts|, i requires 0 <= i < |counts| => AnchorOf(truth[..counts[i]], n)),
                        n, index, res)
    ensures res.matches <==> forall i :: 0 <= i < |counts| ==> counts[i] < k
    ensures !res.matches ==> counts[index] >= k && forall i :: 0 <= i < index ==> counts[i] < k
  {
    var log := seq(|counts|, i requires 0 <= i < |counts| => AnchorOf(truth[..counts[i]], n));
    forall i, r | 0 <= i < |counts| && Answers(rows, log[i], n, r)
      ensures r.matches <==> counts[i] < k
    {
      MatchesIffPrefix(rows, truth[..counts[i]], WithTrail, n, r);
      var c := counts[i];
      if c < k {
        assert rows[..c] == rows[..k - 1][..c] == truth[..k - 1][..c] == truth[..c];
      } else {
        assert truth[..c][k - 1] == truth[k - 1];
      }
    }
  }
}
