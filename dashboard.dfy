/** The home dashboard's links into the trading screen and its colour rules. */
module Dashboard {
  import opened Common
  import opened Strings
  import Links
  import Trading

  /** The `pair` parameter of a market-mover card: the first `/` becomes `_`. */
  function MoverParam(pair: string): string
  {
    ReplaceFirst(pair, '/', "_")
  }

  /** The link a market-mover card navigates to. */
  function MoverLink(pair: string): string
  {
    Links.TradingPath + MoverParam(pair)
  }

  /** The trading screen reads a market-mover link back as the card's pair, for
      any non-empty pair without `_`. The parameter is taken as the query string
      delivers it; parsing the query is not modelled, so this holds of the
      browser only for pairs without `&`, `#`, `+` or `%`. */
  lemma MoverLinkRoundTrip(pair: string)
    requires pair != [] && '_' !in pair
    ensures Trading.DecodePair(Some(MoverParam(pair))) == pair
  {
    ReplaceFirstSpec(pair, '/', "_");
    ReplaceFirstRoundTrip(pair, '/', '_');
  }

  /** With a `_` before the `/`, the round trip breaks: the link of `a_b/c` opens
      `a/b_c`, because the link turns the `/` into a second `_` and the trading
      screen turns the first `_` back into `/`. */
  lemma UnderscoreBeforeSlashMoves(a: string, b: string, c: string)
    requires '_' !in a && '/' !in a && '/' !in b
    ensures Trading.DecodePair(Some(MoverParam(a + "_" + b + "/" + c))) == a + "/" + b + "_" + c
  {
    var front := a + ['_'] + b;
    assert a + "_" + b + "/" + c == front + ['/'] + c;
    ReplaceFirstAfter(front, '/', c, "_");
    assert front + "_" + c == a + ['_'] + (b + "_" + c);
    ReplaceFirstAfter(a, '_', b + "_" + c, "/");
    assert a + "/" + (b + "_" + c) == a + "/" + b + "_" + c;
  }

  /** The smallest such pair: `A_B/C` comes back as `A/B_C`. */
  lemma MoverLinkRoundTripNeedsNoUnderscore()
    ensures Trading.DecodePair(Some(MoverParam("A_B/C"))) == "A/B_C"
  {
    var a, b, c := "A", "B", "C";
    assert "A_B/C" == a + "_" + b + "/" + c;
    UnderscoreBeforeSlashMoves(a, b, c);
  }

  /** The colour of a news item's sentiment. */
  function SentimentTone(sentiment: string): Tone
  {
    if sentiment == "Positive" then Green
    else if sentiment == "Negative" then Red
    else Yellow
  }

  /** Positive is green, Negative red, and every other sentiment yellow. */
  lemma SentimentTones(sentiment: string)
    ensures SentimentTone(sentiment) == Green <==> sentiment == "Positive"
    ensures SentimentTone(sentiment) == Red <==> sentiment == "Negative"
    ensures SentimentTone(sentiment) == Yellow <==> sentiment != "Positive" && sentiment != "Negative"
    ensures SentimentTone(sentiment) != Orange
  {
  }
}
