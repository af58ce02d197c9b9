/** Presentation rules that more than one page applies. */
module Display {
  import opened Common

  /** The sign shown before a percentage change: `'+'` for a non-negative
      change, nothing otherwise (a negative number prints its own `-`). */
  function ChangePrefix(change: real): string
  {
    if change >= 0.0 then "+" else ""
  }

  /** The colour of a percentage change. */
  function ChangeTone(change: real): Tone
  {
    if change >= 0.0 then Green else Red
  }

  /** The prefix and the colour agree, and both are decided by the sign of the change:
      the rule of the markets table and of the dashboard's trending list. */
  lemma ChangeStyleBySign(change: real)
    ensures ChangePrefix(change) == "+" <==> change >= 0.0
    ensures ChangeTone(change) == Green <==> change >= 0.0
    ensures ChangeTone(change) == Red <==> ChangePrefix(change) == ""
  {
  }
}

/** The links into the trading screen that the other pages build. */
module Links {
  import opened Common
  import opened Strings
  import Trading

  /** The route of the trading screen with the start of its `pair` query parameter. */
  const TradingPath: string := "/trading?pair="

  /** The `pair` parameter for a coin quoted in USDT. */
  function SymbolParam(symbol: string): string
  {
    symbol + "_USDT"
  }

  /** The link a market row or a trending coin navigates to. */
  function SymbolLink(symbol: string): string
  {
    TradingPath + SymbolParam(symbol)
  }

  /** A symbol link carries the `pair` parameter `SYMBOL_USDT`, which the trading
      screen reads back as the pair `SYMBOL/USDT` when the symbol has no `_`. The
      parameter is taken as the query string delivers it; parsing the query is not
      modelled, so this holds of the browser only for symbols without `&`, `#`, `+`
      or `%`. */
  lemma SymbolLinkOpensPair(symbol: string)
    requires '_' !in symbol
    ensures Trading.DecodePair(Some(SymbolParam(symbol))) == symbol + "/USDT"
  {
    assert symbol + "_USDT" == symbol + ['_'] + "USDT";
    ReplaceFirstAfter(symbol, '_', "USDT", "/");
    assert symbol + "/" + "USDT" == symbol + "/USDT";
  }
}
