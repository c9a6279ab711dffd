/**
  * One side's price levels: a map from price to the aggregate quantity
  * outstanding at that price, how registration and cancellation update one
  * level, and how the levels are listed in price order for a summary.
  */
module PriceLevels {
  import opened Values

  type Levels = map<real, real>

  /** No level holds a zero or negative aggregate. */
  ghost predicate Positive(levels: Levels)
  {
    forall p :: p in levels ==> levels[p] > 0.0
  }

  /**
    * The update applied to the level at `price` when an order is registered:
    * a missing level starts at `qty`, an existing one grows by `qty`.
    */
  function Increase(levels: Levels, price: real, qty: real): (r: Levels)
    ensures price in r && r[price] == (if price in levels then levels[price] else 0.0) + qty
    ensures forall p :: p != price ==> (p in r <==> p in levels) && (p in levels ==> r[p] == levels[p])
    ensures Positive(levels) && qty > 0.0 ==> Positive(r)
  {
    levels[price := if price in levels then levels[price] + qty else qty]
  }

  /**
    * The update applied to the level at `price` when an order is cancelled:
    * a level equal to `qty` is removed rather than kept at zero, any other
    * level shrinks by `qty`, and a missing level stays missing.
    */
  function Decrease(levels: Levels, price: real, qty: real): (r: Levels)
    ensures price in levels && levels[price] == qty ==> price !in r
    ensures price in levels && levels[price] != qty ==> price in r && r[price] == levels[price] - qty
    ensures price !in levels ==> r == levels
    ensures forall p :: p != price ==> (p in r <==> p in levels) && (p in levels ==> r[p] == levels[p])
  {
    if price !in levels then levels
    else if levels[price] == qty then levels - {price}
    else levels[price := levels[price] - qty]
  }

  /** Taking back a quantity just added restores the levels exactly, with no zero level left behind. */
  lemma IncreaseThenDecrease(levels: Levels, price: real, qty: real)
    requires Positive(levels) && qty > 0.0
    ensures Decrease(Increase(levels, price, qty), price, qty) == levels
  {
    var r := Decrease(Increase(levels, price, qty), price, qty);
    assert r.Keys == levels.Keys;
  }

  /** `a` is met strictly before `b` when a price map is walked in the given direction. */
  predicate Before(a: real, b: real, descending: bool)
  {
    if descending then a > b else a < b
  }

  /** The entries' prices strictly follow the walking direction. */
  predicate Ordered(entries: seq<SummaryEntry>, descending: bool)
  {
    forall i, j :: 0 <= i < j < |entries| ==> Before(entries[i].price, entries[j].price, descending)
  }

  /** The entries are exactly the levels, each as a (quantity, price) pair. */
  predicate Lists(entries: seq<SummaryEntry>, levels: Levels)
  {
    && (forall i :: 0 <= i < |entries| ==> entries[i].price in levels && levels[entries[i].price] == entries[i].quantity)
    && (forall p :: p in levels ==> SummaryEntry(levels[p], p) in entries)
  }

  /** Every non-empty finite set of prices has a price met before all the others. */
  lemma {:induction false} FirstExists(keys: set<real>, descending: bool)
    requires keys != {}
    ensures exists p :: p in keys && forall q :: q in keys && q != p ==> Before(p, q, descending)
    decreases keys
  {
    var x := ArbitraryPrice(keys);
    if keys != {x} {
      var rest := keys - {x};
      FirstExists(rest, descending);
      var m :| m in rest && forall q :: q in rest && q != m ==> Before(m, q, descending);
      if Before(x, m, descending) {
        forall q | q in keys && q != x ensures Before(x, q, descending) {
          if q != m { assert q in rest; }
        }
      } else {
        forall q | q in keys && q != m ensures Before(m, q, descending) {
          if q != x { assert q in rest; }
        }
      }
    }
  }

  /** Some price of a non-empty set. */
  ghost function ArbitraryPrice(keys: set<real>): (x: real)
    requires keys != {}
    ensures x in keys
  {
    assert (forall x :: x !in keys) ==> keys == {};
    var x :| x in keys; x
  }

  /** The first price met when walking `keys` in the given direction. */
  function First(keys: set<real>, descending: bool): (p: real)
    requires keys != {}
    ensures p in keys && forall q :: q in keys && q != p ==> Before(p, q, descending)
  {
    FirstExists(keys, descending);
    var p :| p in keys && forall q :: q in keys && q != p ==> Before(p, q, descending);
    p
  }

  /** Putting the first level in front of an ordered listing of the others lists all the levels in order. */
  lemma ConsListing(levels: Levels, p: real, tail: seq<SummaryEntry>, descending: bool)
    requires p in levels && forall q :: q in levels && q != p ==> Before(p, q, descending)
    requires Lists(tail, levels - {p}) && Ordered(tail, descending)
    ensures Lists([SummaryEntry(levels[p], p)] + tail, levels)
    ensures Ordered([SummaryEntry(levels[p], p)] + tail, descending)
  {
    var r := [SummaryEntry(levels[p], p)] + tail;
    forall i | 0 <= i < |r| ensures r[i].price in levels && levels[r[i].price] == r[i].quantity {
      if i > 0 { assert r[i] == tail[i - 1]; }
    }
    forall q | q in levels ensures SummaryEntry(levels[q], q) in r {
      if q != p {
        assert q in levels - {p};
        assert SummaryEntry(levels[q], q) in tail;
      }
    }
    forall i, j | 0 <= i < j < |r| ensures Before(r[i].price, r[j].price, descending) {
      assert r[j] == tail[j - 1];
      if i > 0 { assert r[i] == tail[i - 1]; }
    }
  }

  /**
    * The levels as (quantity, price) entries, in ascending price order or,
    * for a descending view of the map, in descending price order.
    */
  function PricesInOrder(levels: Levels, descending: bool): (r: seq<SummaryEntry>)
    ensures Lists(r, levels) && Ordered(r, descending)
    ensures |r| == |levels|
    decreases |levels|
  {
    if levels.Keys == {} then
      assert levels == map[];
      []
    else
      var p := First(levels.Keys, descending);
      var rest := levels - {p};
      assert rest.Keys == levels.Keys - {p};
      var tail := PricesInOrder(rest, descending);
      ConsListing(levels, p, tail, descending);
      [SummaryEntry(levels[p], p)] + tail
  }

  /** The head of an ordered listing is the first of the listed prices. */
  lemma HeadIsFirst(a: seq<SummaryEntry>, levels: Levels, descending: bool)
    requires Lists(a, levels) && Ordered(a, descending) && a != []
    ensures a[0].price in levels && a[0].quantity == levels[a[0].price]
    ensures forall q :: q in levels && q != a[0].price ==> Before(a[0].price, q, descending)
  {
    forall q | q in levels && q != a[0].price ensures Before(a[0].price, q, descending) {
      var i :| 0 <= i < |a| && a[i] == SummaryEntry(levels[q], q);
      assert i != 0;
    }
  }

  /** Dropping the head of an ordered listing lists the levels without the head's price. */
  lemma TailLists(a: seq<SummaryEntry>, levels: Levels, descending: bool)
    requires Lists(a, levels) && Ordered(a, descending) && a != []
    ensures Lists(a[1..], levels - {a[0].price}) && Ordered(a[1..], descending)
  {
    var p := a[0].price;
    var rest := levels - {p};
    forall i | 0 <= i < |a[1..]| ensures a[1..][i].price in rest && rest[a[1..][i].price] == a[1..][i].quantity {
      assert a[1..][i] == a[i + 1];
      assert Before(p, a[i + 1].price, descending);
    }
    forall q | q in rest ensures SummaryEntry(rest[q], q) in a[1..] {
      var i :| 0 <= i < |a| && a[i] == SummaryEntry(levels[q], q);
      assert i != 0;
      assert a[1..][i - 1] == a[i];
    }
  }

  /** Two listings of the same levels are both empty or both non-empty. */
  lemma SameEmptiness(a: seq<SummaryEntry>, b: seq<SummaryEntry>, levels: Levels)
    requires Lists(a, levels) && Lists(b, levels)
    ensures a == [] <==> b == []
  {
    if a != [] { assert SummaryEntry(levels[a[0].price], a[0].price) in b; }
    if b != [] { assert SummaryEntry(levels[b[0].price], b[0].price) in a; }
  }

  /**
    * The listing is unique: two ordered listings of the same levels in the
    * same direction are the same sequence.
    */
  lemma {:induction false} ListingUnique(a: seq<SummaryEntry>, b: seq<SummaryEntry>, levels: Levels, descending: bool)
    requires Lists(a, levels) && Ordered(a, descending)
    requires Lists(b, levels) && Ordered(b, descending)
    ensures a == b
    decreases |a|
  {
    SameEmptiness(a, b, levels);
    if a != [] {
      assert SummaryEntry(levels[a[0].price], a[0].price) in b;
      HeadIsFirst(a, levels, descending);
      HeadIsFirst(b, levels, descending);
      assert a[0] == b[0];
      TailLists(a, levels, descending);
      TailLists(b, levels, descending);
      ListingUnique(a[1..], b[1..], levels - {a[0].price}, descending);
      assert a == [a[0]] + a[1..] && b == [b[0]] + b[1..];
    }
  }
}
