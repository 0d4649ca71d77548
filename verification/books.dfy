/** The two price-ordered sides of one symbol's book, as values: sorted, stable under insertion. */
module Books {
  import opened Options
  import opened Orders

  /** Both sides sort by increasing key: the best bid has the highest price, the best ask the lowest. */
  function Key(o: Order): real { if o.side == BUY then -o.price else o.price }

  /** Price-time priority. */
  predicate Ahead(a: Order, b: Order) {
    Key(a) < Key(b) || (Key(a) == Key(b) && a.arrival < b.arrival)
  }

  ghost predicate SideOk(s: seq<Order>, side: Side) {
    && (forall i :: 0 <= i < |s| ==> s[i].side == side && s[i].Resting())
    && (forall i, j :: 0 <= i < j < |s| ==> Key(s[i]) <= Key(s[j]))
  }

  ghost predicate TimeOrdered(s: seq<Order>) {
    forall i, j :: 0 <= i < j < |s| ==> Ahead(s[i], s[j])
  }

  datatype RawBook = RawBook(bids: seq<Order>, asks: seq<Order>) {
    function On(side: Side): seq<Order> { if side == BUY then bids else asks }

    function With(side: Side, s: seq<Order>): (r: RawBook)
      ensures r.On(side) == s
      ensures forall other :: other != side ==> r.On(other) == On(other)
    {
      if side == BUY then this.(bids := s) else this.(asks := s)
    }
  }

  type Book = b: RawBook | SideOk(b.bids, BUY) && SideOk(b.asks, SELL) witness RawBook([], [])

  const EMPTY_BOOK: Book := RawBook([], [])

  // ---------------------------------------------------------------- insertion

  /** Where an ordered multimap puts an equal key: after its whole equal range. */
  function UpperBound(s: seq<Order>, key: real): (p: nat)
    ensures p <= |s|
    ensures forall i :: 0 <= i < p ==> Key(s[i]) <= key
    ensures p < |s| ==> key < Key(s[p])
  {
    if s == [] || key < Key(s[0]) then 0 else 1 + UpperBound(s[1..], key)
  }

  function InsertOn(s: seq<Order>, o: Order): seq<Order> {
    var p := UpperBound(s, Key(o));
    s[..p] + [o] + s[p..]
  }

  function Insert(b: Book, o: Order): (r: Book)
    requires o.Resting()
  {
    InsertKeepsSide(b.On(o.side), o);
    b.With(o.side, InsertOn(b.On(o.side), o))
  }

  lemma InsertKeepsSide(s: seq<Order>, o: Order)
    requires SideOk(s, o.side) && o.Resting()
    ensures SideOk(InsertOn(s, o), o.side)
    ensures multiset(InsertOn(s, o)) == multiset(s) + multiset{o}
  {
    var r := InsertOn(s, o);
    InsertedContents(s, o);
    forall i | 0 <= i < |r| ensures r[i].side == o.side && r[i].Resting() {
      InsertedOne(s, o, i);
    }
    forall i, j | 0 <= i < j < |r| ensures Key(r[i]) <= Key(r[j]) {
      InsertedPair(s, o, i, j);
    }
  }

  lemma InsertedContents(s: seq<Order>, o: Order)
    ensures multiset(InsertOn(s, o)) == multiset(s) + multiset{o}
  {
    var p := UpperBound(s, Key(o));
    assert s == s[..p] + s[p..];
  }

  lemma InsertedOne(s: seq<Order>, o: Order, i: nat)
    requires i <= |s|
    ensures InsertOn(s, o)[i] == o || InsertOn(s, o)[i] in s
  {
    var p := UpperBound(s, Key(o));
    assert InsertOn(s, o)[i] == if i < p then s[i] else if i == p then o else s[i - 1];
  }

  lemma InsertedPair(s: seq<Order>, o: Order, i: nat, j: nat)
    requires SideOk(s, o.side) && i < j <= |s|
    ensures var r := InsertOn(s, o);
            && |r| == |s| + 1
            && Key(r[i]) <= Key(r[j])
            && (TimeOrdered(s) && (forall k :: 0 <= k < |s| ==> s[k].arrival < o.arrival) ==> Ahead(r[i], r[j]))
  {
    var p, r := UpperBound(s, Key(o)), InsertOn(s, o);
    assert r[i] == if i < p then s[i] else if i == p then o else s[i - 1];
    assert r[j] == if j < p then s[j] else if j == p then o else s[j - 1];
    if p <= i && p < j {
      assert Key(o) < Key(s[p]) <= Key(s[j - 1]);
    }
  }

  /** A later arrival never overtakes an equal price: insertion keeps strict price-time order. */
  lemma InsertKeepsTimeOrder(s: seq<Order>, o: Order)
    requires SideOk(s, o.side) && o.Resting() && TimeOrdered(s)
    requires forall i :: 0 <= i < |s| ==> s[i].arrival < o.arrival
    ensures TimeOrdered(InsertOn(s, o))
  {
    var r := InsertOn(s, o);
    forall i, j | 0 <= i < j < |r| ensures Ahead(r[i], r[j]) {
      InsertedPair(s, o, i, j);
    }
  }

  lemma InsertOnMembers(s: seq<Order>, o: Order, x: Order)
    ensures x in InsertOn(s, o) <==> x == o || x in s
  {
    var p := UpperBound(s, Key(o));
    assert s == s[..p] + s[p..];
  }

  // ---------------------------------------------------------------- search and removal

  predicate Names(o: Order, owner: string, clientID: string) { o.clientID == clientID && o.owner == owner }

  /** The first entry carrying the two identifiers, which need not be unique. */
  function FindOn(s: seq<Order>, owner: string, clientID: string): (r: Option<nat>)
    ensures r.Some? ==> r.value < |s| && s[r.value].owner == owner && s[r.value].clientID == clientID
    ensures r.Some? ==> forall i :: 0 <= i < r.value ==> s[i].owner != owner || s[i].clientID != clientID
    ensures r.None? <==> forall i :: 0 <= i < |s| ==> s[i].owner != owner || s[i].clientID != clientID
  {
    if s == [] then None
    else if Names(s[0], owner, clientID) then Some(0)
    else
      var rest := FindOn(s[1..], owner, clientID);
      assert forall i :: 1 <= i < |s| ==> s[i] == s[1..][i - 1];
      if rest.None? then None else Some(rest.value + 1)
  }

  function RemoveAt(s: seq<Order>, i: nat): seq<Order>
    requires i < |s|
  {
    s[..i] + s[i + 1..]
  }

  /** Removal searches again by identifiers on the order's own side, and does nothing when there is no match. */
  function Erase(b: RawBook, o: Order): RawBook {
    match FindOn(b.On(o.side), o.owner, o.clientID)
    case None => b
    case Some(i) => b.With(o.side, RemoveAt(b.On(o.side), i))
  }

  /** The book between flagging entry `i` as cancelled and erasing it. */
  function Flagged(b: RawBook, side: Side, i: nat): RawBook
    requires i < |b.On(side)|
  {
    b.With(side, b.On(side)[i := b.On(side)[i].Cancel()])
  }

  /** Flag-then-erase removes exactly the flagged entry, even when identifiers are shared. */
  lemma EraseRemovesFound(b: Book, owner: string, clientID: string, side: Side, i: nat)
    requires FindOn(b.On(side), owner, clientID) == Some(i)
    ensures Erase(Flagged(b, side, i), b.On(side)[i].Cancel()) == b.With(side, RemoveAt(b.On(side), i))
  {
    var s := b.On(side);
    var flagged := s[i := s[i].Cancel()];
    var found := FindOn(flagged, s[i].owner, s[i].clientID);
    assert Names(flagged[i], s[i].owner, s[i].clientID);
    assert found == Some(i);
    assert RemoveAt(flagged, i) == RemoveAt(s, i);
  }

  lemma RemoveKeepsSide(s: seq<Order>, side: Side, i: nat)
    requires SideOk(s, side) && i < |s|
    ensures SideOk(RemoveAt(s, i), side)
  {
    assert forall k :: 0 <= k < |s| - 1 ==> RemoveAt(s, i)[k] == s[if k < i then k else k + 1];
  }

  /** The book after a cancel found entry `i`: flagged, then erased. */
  function CancelEntry(b: Book, owner: string, clientID: string, side: Side, i: nat): Book
    requires FindOn(b.On(side), owner, clientID) == Some(i)
  {
    RemoveKeepsSide(b.On(side), side, i);
    EraseRemovesFound(b, owner, clientID, side, i);
    Erase(Flagged(b, side, i), b.On(side)[i].Cancel())
  }
}
