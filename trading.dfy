/** The trading screen: the pair it trades, its mock order book, and the
    order form with its confirmation dialog. */
module Trading {
  import opened Common
  import opened Strings
  import DepthView

  datatype OrderType = Market | Limit
  datatype TradeType = Buy | Sell

  function OrderTypeName(t: OrderType): string
  {
    match t
    case Market => "market"
    case Limit => "limit"
  }

  /** The values the order form submits, once the inputs are read as numbers.
      `price` is `undefined` until the price field is filled in. */
  datatype OrderValues = OrderValues(amount: real, price: Option<real>, orderType: OrderType, tradeType: TradeType)

  /** The form's default values; `price` has none. */
  const DefaultValues: OrderValues := OrderValues(0.0, None, Market, Buy)

  /** The message shown under the amount field when it is rejected. */
  const AmountMessage: string := "Amount must be positive"

  /** The form schema. Only the amount is constrained; the price is optional
      and unconstrained for both order types. */
  function Validate(v: OrderValues): (r: Result<OrderValues, string>)
    ensures r.Ok? <==> v.amount > 0.0
    ensures r.Ok? ==> r.value == v
    ensures r.Err? ==> r.error == AmountMessage
  {
    if v.amount > 0.0 then Ok(v) else Err(AmountMessage)
  }

  /** A limit order with no price at all passes the schema when its amount is positive. */
  lemma LimitWithoutPriceAccepted(amount: real, t: TradeType)
    requires amount > 0.0
    ensures Validate(OrderValues(amount, None, Limit, t)).Ok?
  {
  }

  /** The title of the confirmation dialog. */
  function Title(t: TradeType): string
  {
    "Confirm " + (if t == Buy then "Buy" else "Sell") + " Order"
  }

  /** The title names the side of the order, so the two sides get different titles. */
  lemma TitleNamesSide(t: TradeType)
    ensures Title(t) == if t == Buy then "Confirm Buy Order" else "Confirm Sell Order"
    ensures Title(Buy) != Title(Sell)
  {
    assert Title(Buy)[8] == 'B' && Title(Sell)[8] == 'S';
  }

  /** JavaScript's text for an optional number: `undefined` when it is missing. */
  function PriceText(p: Option<real>, show: real -> string): string
  {
    match p
    case None => "undefined"
    case Some(x) => show(x)
  }

  /** The price clause of the description: only a limit order names its price. */
  function PriceClause(v: OrderValues, show: real -> string): string
  {
    if v.orderType == Limit then " at $" + PriceText(v.price, show) else ""
  }

  /** The lower-case side word of the description. */
  function SideWord(t: TradeType): string
  {
    if t == Buy then "buy" else "sell"
  }

  /** The description up to the side word. */
  function DescriptionHead(t: OrderType): string
  {
    "Are you sure you want to place a " + OrderTypeName(t) + " "
  }

  /** The description after the side word. */
  function DescriptionTail(v: OrderValues, pair: string, show: real -> string): string
  {
    " order for " + show(v.amount) + " of " + pair + PriceClause(v, show) + "?"
  }

  /** The body of the confirmation dialog. `show` is JavaScript's conversion of a
      number to text. */
  function Description(v: OrderValues, pair: string, show: real -> string): string
  {
    DescriptionHead(v.orderType) + SideWord(v.tradeType) + DescriptionTail(v, pair, show)
  }

  /** A market order's description does not depend on the price field. */
  lemma MarketDescriptionIgnoresPrice(v: OrderValues, p: Option<real>, pair: string, show: real -> string)
    requires v.orderType == Market
    ensures Description(v.(price := p), pair, show) == Description(v, pair, show)
  {
  }

  /** A limit order's description ends with its price, `undefined` when it has none. */
  lemma LimitDescriptionEndsWithPrice(v: OrderValues, pair: string, show: real -> string)
    requires v.orderType == Limit
    ensures var d := Description(v, pair, show);
            var tail := " at $" + PriceText(v.price, show) + "?";
            |tail| <= |d| && d[|d| - |tail|..] == tail
  {
    EndsWithLast(DescriptionHead(v.orderType), SideWord(v.tradeType),
                 " order for " + show(v.amount) + " of " + pair, PriceClause(v, show), "?");
  }

  /** `h + s + (x + c + q)` ends with `c + q`. */
  lemma EndsWithLast(h: string, s: string, x: string, c: string, q: string)
    ensures var d := h + s + (x + c + q);
            |c + q| <= |d| && d[|d| - |c + q|..] == c + q
  {
    var d := h + s + (x + c + q);
    assert d == (h + s + x) + (c + q);
  }

  /** The description states the side of the order right after the order type:
      two orders that differ only in side get different descriptions. */
  lemma DescriptionNamesSide(v: OrderValues, pair: string, show: real -> string)
    ensures var k := |DescriptionHead(v.orderType)|;
            k < |Description(v, pair, show)|
            && Description(v, pair, show)[k] == (if v.tradeType == Buy then 'b' else 's')
    ensures Description(v.(tradeType := Buy), pair, show) != Description(v.(tradeType := Sell), pair, show)
  {
    SideWordAt(v, pair, show);
    SideWordAt(v.(tradeType := Buy), pair, show);
    SideWordAt(v.(tradeType := Sell), pair, show);
  }

  lemma SideWordAt(v: OrderValues, pair: string, show: real -> string)
    ensures |DescriptionHead(v.orderType)| < |Description(v, pair, show)|
    ensures Description(v, pair, show)[|DescriptionHead(v.orderType)|] == SideWord(v.tradeType)[0]
  {
    var a, b, c := DescriptionHead(v.orderType), SideWord(v.tradeType), DescriptionTail(v, pair, show);
    assert (a + b + c)[|a|] == b[0];
  }

  /** The toast shown when a confirmed order is "executed": the side, the amount
      and the base asset, the part of the pair before its first `/`. */
  function ExecutedMessage(v: OrderValues, pair: string, show: real -> string): string
  {
    "Trade Executed! " + (if v.tradeType == Buy then "Bought" else "Sold") + " " + show(v.amount)
      + " " + BeforeFirst(pair, '/') + "."
  }

  /** The pair parameter used when the query string has none. */
  const DefaultPairParam: string := "BTC_USDT"

  /** The pair shown by the screen, from the `pair` query parameter: a missing or
      empty parameter means `BTC_USDT`, and the first `_` becomes `/`. */
  function DecodePair(param: Option<string>): (pair: string)
    ensures param == None || param == Some("") ==> pair == "BTC/USDT"
    ensures param.Some? && param.value != "" ==>
              var p := param.value;
              var k := FirstIndex(p, '_');
              pair == if k < |p| then p[..k] + "/" + p[k + 1..] else p
  {
    if param.Some? && param.value != "" then
      ReplaceFirstSpec(param.value, '_', "/");
      ReplaceFirst(param.value, '_', "/")
    else
      DefaultParamDecodes();
      ReplaceFirst(DefaultPairParam, '_', "/")
  }

  /** The default parameter `BTC_USDT` reads as BTC/USDT. */
  lemma DefaultParamDecodes()
    ensures ReplaceFirst(DefaultPairParam, '_', "/") == "BTC/USDT"
  {
    var base, quote := "BTC", "USDT";
    assert DefaultPairParam == base + ['_'] + quote;
    ReplaceFirstAfter(base, '_', quote, "/");
  }

  /** A link's `pair` parameter `BASE_QUOTE`, whose base has neither `_` nor `/`,
      opens the pair `BASE/QUOTE`, and a confirmed order's toast names that base. */
  lemma ExecutedMessageNamesBase(v: OrderValues, base: string, quote: string, show: real -> string)
    requires '_' !in base && '/' !in base
    ensures DecodePair(Some(base + "_" + quote)) == base + "/" + quote
    ensures ExecutedMessage(v, DecodePair(Some(base + "_" + quote)), show)
            == "Trade Executed! " + (if v.tradeType == Buy then "Bought" else "Sold") + " "
               + show(v.amount) + " " + base + "."
  {
    var param := base + "_" + quote;
    assert param == base + ['_'] + quote;
    ReplaceFirstAfter(base, '_', quote, "/");
    ReplaceFirstSpec(param, '_', "/");
    assert DecodePair(Some(param)) == base + ['/'] + quote;
    BeforeFirstAfter(base, '/', quote);
  }

  /** Without a `pair` parameter, or with an empty one, the screen trades BTC/USDT,
      and the asset a confirmed order names is BTC. */
  lemma DefaultPairBase(param: Option<string>)
    requires param == None || param == Some("")
    ensures DecodePair(param) == "BTC/USDT"
    ensures BeforeFirst(DecodePair(param), '/') == "BTC"
  {
    var base, quote := "BTC", "USDT";
    assert DecodePair(param) == base + ['/'] + quote;
    BeforeFirstAfter(base, '/', quote);
  }

  /** Bid prices of the mock book: 60500 down to 60310 in steps of 10. */
  function MockBidPrice(i: nat): real
  {
    60500.0 - (i as real) * 10.0
  }

  /** Ask prices of the mock book: 60510 up to 60700 in steps of 10. */
  function MockAskPrice(i: nat): real
  {
    60510.0 + (i as real) * 10.0
  }

  /** Twenty bid levels with the given (randomly drawn) sizes. */
  function MockBids(sizes: seq<real>): seq<DepthView.Entry>
    requires |sizes| == 20
  {
    seq(20, i requires 0 <= i < 20 => DepthView.Entry(MockBidPrice(i), sizes[i]))
  }

  /** Twenty ask levels with the given (randomly drawn) sizes. */
  function MockAsks(sizes: seq<real>): seq<DepthView.Entry>
    requires |sizes| == 20
  {
    seq(20, i requires 0 <= i < 20 => DepthView.Entry(MockAskPrice(i), sizes[i]))
  }

  /** The mock bids are strictly descending and the asks strictly ascending, so the
      sorts applied to them keep them as built; no bid reaches any ask, so the book
      is not crossed. */
  lemma MockBookOrdered(bidSizes: seq<real>, askSizes: seq<real>)
    requires |bidSizes| == 20 && |askSizes| == 20
    ensures var bids := MockBids(bidSizes);
            forall i, j :: 0 <= i < j < |bids| ==> bids[i].price > bids[j].price
    ensures var asks := MockAsks(askSizes);
            forall i, j :: 0 <= i < j < |asks| ==> asks[i].price < asks[j].price
    ensures var bids := MockBids(bidSizes);
            var asks := MockAsks(askSizes);
            forall i, j :: 0 <= i < |bids| && 0 <= j < |asks| ==> bids[i].price < asks[j].price
  {
  }

  /** The order form and its confirmation dialog. `onConfirm` stands for the
      closure the dialog's Confirm button runs: `None` is the initial no-op, and
      `Some(v)` is the closure built by a submit of the values `v`. */
  class TradingPage {
    const pair: string
    const show: real -> string
    var values: OrderValues
    var dialogOpen: bool
    var title: string
    var description: string
    var onConfirm: Option<OrderValues>

    /** The dialog is open only after a submit, and its texts always describe the
        values that submit captured. */
    ghost predicate Valid()
      reads this
    {
      && (dialogOpen ==> onConfirm.Some?)
      && (onConfirm.Some? ==>
            && onConfirm.value.amount > 0.0
            && title == Title(onConfirm.value.tradeType)
            && description == Description(onConfirm.value, pair, show))
    }

    /** The screen as it opens, for the given `pair` query parameter. */
    constructor (pairParam: Option<string>, show: real -> string)
      ensures Valid()
      ensures pair == DecodePair(pairParam) && this.show == show
      ensures values == DefaultValues
      ensures !dialogOpen && title == "" && description == "" && onConfirm == None
    {
      pair := DecodePair(pairParam);
      this.show := show;
      values := DefaultValues;
      dialogOpen := false;
      title := "";
      description := "";
      onConfirm := None;
    }

    /** Typing in the amount field. */
    method SetAmount(a: real)
      requires Valid()
      modifies this
      ensures Valid()
      ensures values == old(values).(amount := a)
      ensures dialogOpen == old(dialogOpen) && onConfirm == old(onConfirm)
      ensures title == old(title) && description == old(description)
    {
      values := values.(amount := a);
    }

    /** Typing in the price field. `None` is the untouched field (and the field
        after a reset); a field typed in and then cleared holds the empty text,
        which the schema's number coercion turns into `Some(0.0)`. */
    method SetPrice(p: Option<real>)
      requires Valid()
      modifies this
      ensures Valid()
      ensures values == old(values).(price := p)
      ensures dialogOpen == old(dialogOpen) && onConfirm == old(onConfirm)
      ensures title == old(title) && description == old(description)
    {
      values := values.(price := p);
    }

    /** Switching between the Market and Limit tabs. */
    method SetOrderType(t: OrderType)
      requires Valid()
      modifies this
      ensures Valid()
      ensures values == old(values).(orderType := t)
      ensures dialogOpen == old(dialogOpen) && onConfirm == old(onConfirm)
      ensures title == old(title) && description == old(description)
    {
      values := values.(orderType := t);
    }

    /** `form.setValue("tradeType", t)`: changes the side and nothing else. */
    method SetTradeType(t: TradeType)
      requires Valid()
      modifies this
      ensures Valid()
      ensures values == old(values).(tradeType := t)
      ensures dialogOpen == old(dialogOpen) && onConfirm == old(onConfirm)
      ensures title == old(title) && description == old(description)
    {
      values := values.(tradeType := t);
    }

    /** The buy gesture selects the buy side and returns the info toast it shows. */
    method GestureBuy() returns (info: string)
      requires Valid()
      modifies this
      ensures Valid()
      ensures values == old(values).(tradeType := Buy)
      ensures dialogOpen == old(dialogOpen) && onConfirm == old(onConfirm)
      ensures title == old(title) && description == old(description)
      ensures info == "Gesture Buy: Ready to confirm or fill order form."
    {
      SetTradeType(Buy);
      info := "Gesture Buy: Ready to confirm or fill order form.";
    }

    /** The sell gesture selects the sell side and returns the info toast it shows. */
    method GestureSell() returns (info: string)
      requires Valid()
      modifies this
      ensures Valid()
      ensures values == old(values).(tradeType := Sell)
      ensures dialogOpen == old(dialogOpen) && onConfirm == old(onConfirm)
      ensures title == old(title) && description == old(description)
      ensures info == "Gesture Sell: Ready to confirm or fill order form."
    {
      SetTradeType(Sell);
      info := "Gesture Sell: Ready to confirm or fill order form.";
    }

    /** Submitting the form: the schema decides; an accepted submit fills and opens
        the dialog and captures the values, and neither outcome changes the form. */
    method Submit() returns (r: Result<OrderValues, string>)
      requires Valid()
      modifies this
      ensures Valid()
      ensures r == Validate(values)
      ensures values == old(values)
      ensures r.Ok? ==> dialogOpen && onConfirm == Some(values)
                        && title == Title(values.tradeType) && description == Description(values, pair, show)
      ensures r.Err? ==> dialogOpen == old(dialogOpen) && onConfirm == old(onConfirm)
                         && title == old(title) && description == old(description)
    {
      r := Validate(values);
      if r.Ok? {
        title := Title(values.tradeType);
        description := Description(values, pair, show);
        onConfirm := Some(values);
        dialogOpen := true;
      }
    }

    /** The Buy button: selects the buy side, then submits. */
    method PressBuy() returns (r: Result<OrderValues, string>)
      requires Valid()
      modifies this
      ensures Valid()
      ensures values == old(values).(tradeType := Buy)
      ensures r == Validate(values)
      ensures r.Ok? ==> dialogOpen && onConfirm == Some(values) && title == "Confirm Buy Order"
                        && description == Description(values, pair, show)
      ensures r.Err? ==> dialogOpen == old(dialogOpen) && onConfirm == old(onConfirm)
                         && title == old(title) && description == old(description)
    {
      SetTradeType(Buy);
      r := Submit();
      TitleNamesSide(Buy);
    }

    /** The Sell button: selects the sell side, then submits. */
    method PressSell() returns (r: Result<OrderValues, string>)
      requires Valid()
      modifies this
      ensures Valid()
      ensures values == old(values).(tradeType := Sell)
      ensures r == Validate(values)
      ensures r.Ok? ==> dialogOpen && onConfirm == Some(values) && title == "Confirm Sell Order"
                        && description == Description(values, pair, show)
      ensures r.Err? ==> dialogOpen == old(dialogOpen) && onConfirm == old(onConfirm)
                         && title == old(title) && description == old(description)
    {
      SetTradeType(Sell);
      r := Submit();
      TitleNamesSide(Sell);
    }

    /** The dialog's Confirm button: runs the captured closure, which reports the
        captured order, closes the dialog and resets the form to its defaults,
        whatever the form held. */
    method Confirm() returns (message: string)
      requires Valid() && dialogOpen
      modifies this
      ensures Valid()
      ensures message == ExecutedMessage(old(onConfirm).value, pair, show)
      ensures !dialogOpen && values == DefaultValues
      ensures onConfirm == old(onConfirm) && title == old(title) && description == old(description)
    {
      message := ExecutedMessage(onConfirm.value, pair, show);
      dialogOpen := false;
      values := DefaultValues;
    }

    /** The dialog's Cancel button (and dismissing the dialog): closes it and
        leaves the form as it was. */
    method Cancel()
      requires Valid()
      modifies this
      ensures Valid()
      ensures !dialogOpen && values == old(values)
      ensures onConfirm == old(onConfirm) && title == old(title) && description == old(description)
    {
      dialogOpen := false;
    }
  }
}
