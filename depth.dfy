/** The order-book depth panel: which levels it shows and how wide their bars are. */
module DepthView {
  import opened Common

  /** One price level of the book (the optional cumulative `total` is never displayed). */
  datatype Entry = Entry(price: real, size: real)

  datatype Side = Bid | Ask

  /** `maxDepthToShow` when the caller passes none. */
  const DefaultDepth: int := 10

  /** The sizes of a list of levels, in order. */
  function Sizes(orders: seq<Entry>): seq<real>
  {
    seq(|orders|, i requires 0 <= i < |orders| => orders[i].size)
  }

  function Max(a: real, b: real): real
  {
    if a < b then b else a
  }

  /** `Math.max(...xs, floor)`. */
  function MaxWith(xs: seq<real>, floor: real): (m: real)
    ensures m >= floor
    ensures forall i :: 0 <= i < |xs| ==> xs[i] <= m
    ensures m == floor || m in xs
  {
    if xs == [] then floor else Max(xs[0], MaxWith(xs[1..], floor))
  }

  /** The normaliser of the bar widths: the largest size on either side, and at least 1. */
  function MaxSize(bids: seq<Entry>, asks: seq<Entry>): (m: real)
    ensures m >= 1.0
    ensures forall i :: 0 <= i < |bids| ==> bids[i].size <= m
    ensures forall i :: 0 <= i < |asks| ==> asks[i].size <= m
    ensures m == 1.0 || (exists i :: 0 <= i < |bids| && bids[i].size == m)
                     || (exists i :: 0 <= i < |asks| && asks[i].size == m)
  {
    var all := Sizes(bids) + Sizes(asks);
    var m := MaxWith(all, 1.0);
    assert forall i :: 0 <= i < |bids| ==> all[i] == bids[i].size;
    assert forall i :: 0 <= i < |asks| ==> all[|bids| + i] == asks[i].size;
    if m != 1.0 then
      var k :| 0 <= k < |all| && all[k] == m;
      assert k < |bids| ==> bids[k].size == m;
      assert k >= |bids| ==> asks[k - |bids|].size == m;
      m
    else m
  }

  /** The end index that `Array.prototype.slice(0, end)` uses on a list of
      length `len`: a negative `end` counts back from the end of the list. */
  function SliceEnd(len: nat, end: int): (k: nat)
    ensures k <= len
  {
    if end < 0 then (if len + end > 0 then len + end else 0)
    else if end < len then end else len
  }

  /** `orders.slice(0, depth)`: the levels a side displays, best first. */
  function Shown(orders: seq<Entry>, depth: int): (r: seq<Entry>)
    ensures r <= orders
    ensures depth >= 0 ==> |r| == if depth < |orders| then depth else |orders|
    ensures depth < 0 ==> |r| == if |orders| + depth > 0 then |orders| + depth else 0
  {
    orders[..SliceEnd(|orders|, depth)]
  }

  /** With the default depth a side shows its first ten levels, or all of them when it has fewer. */
  lemma DefaultDepthShowsTen(orders: seq<Entry>)
    ensures Shown(orders, DefaultDepth) == if |orders| <= 10 then orders else orders[..10]
  {
  }

  /** The width of a level's bar, in percent of the panel. */
  function BarWidth(size: real, maxSize: real): real
    requires maxSize > 0.0
  {
    size / maxSize * 100.0
  }

  /** A bar is never wider than the panel nor of negative width. */
  lemma BarWidthBounds(size: real, maxSize: real)
    requires 0.0 <= size <= maxSize && maxSize > 0.0
    ensures 0.0 <= BarWidth(size, maxSize) <= 100.0
  {
    assert size / maxSize <= 1.0 by {
      assert size / maxSize * maxSize == size;
    }
  }

  /** Asks are drawn red and bids green. */
  function SideTone(side: Side): Tone
  {
    match side
    case Ask => Red
    case Bid => Green
  }

  /** What one displayed level shows. */
  datatype Row = Row(price: real, size: real, widthPercent: real, tone: Tone)

  /** A side of the panel: its placeholder text, or its rows. */
  datatype SideView = Placeholder(text: string) | Rows(rows: seq<Row>)

  /** A side renders its placeholder exactly when it has no levels, and otherwise
      one row per displayed level, in the order of the input. */
  function RenderSide(orders: seq<Entry>, side: Side, depth: int, maxSize: real): (v: SideView)
    requires maxSize > 0.0
    ensures v.Placeholder? <==> orders == []
    ensures v.Placeholder? ==> v.text == if side == Ask then "No asks" else "No bids"
    ensures v.Rows? ==> |v.rows| == |Shown(orders, depth)|
    ensures v.Rows? ==> forall i :: 0 <= i < |v.rows| ==>
              v.rows[i] == Row(orders[i].price, orders[i].size, BarWidth(orders[i].size, maxSize), SideTone(side))
  {
    if orders == [] then Placeholder(if side == Ask then "No asks" else "No bids")
    else
      var shown := Shown(orders, depth);
      Rows(seq(|shown|, i requires 0 <= i < |shown| =>
        Row(shown[i].price, shown[i].size, BarWidth(shown[i].size, maxSize), SideTone(side))))
  }

  /** The whole panel: the asks side and the bids side, normalised by one shared maximum. */
  datatype BookView = BookView(asks: SideView, bids: SideView)

  function Render(bids: seq<Entry>, asks: seq<Entry>, depth: int): BookView
  {
    var m := MaxSize(bids, asks);
    BookView(RenderSide(asks, Ask, depth, m), RenderSide(bids, Bid, depth, m))
  }

  predicate SizesNonNegative(orders: seq<Entry>)
  {
    forall i :: 0 <= i < |orders| ==> orders[i].size >= 0.0
  }

  predicate WidthsInRange(v: SideView)
  {
    v.Rows? ==> forall i :: 0 <= i < |v.rows| ==> 0.0 <= v.rows[i].widthPercent <= 100.0
  }

  /** When no size is negative, every bar of both sides lies between 0% and 100%. */
  lemma RenderedWidthsInRange(bids: seq<Entry>, asks: seq<Entry>, depth: int)
    requires SizesNonNegative(bids) && SizesNonNegative(asks)
    ensures WidthsInRange(Render(bids, asks, depth).asks)
    ensures WidthsInRange(Render(bids, asks, depth).bids)
  {
    var m := MaxSize(bids, asks);
    forall i | 0 <= i < |asks| ensures 0.0 <= BarWidth(asks[i].size, m) <= 100.0 {
      BarWidthBounds(asks[i].size, m);
    }
    forall i | 0 <= i < |bids| ensures 0.0 <= BarWidth(bids[i].size, m) <= 100.0 {
      BarWidthBounds(bids[i].size, m);
    }
  }
}
