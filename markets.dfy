/** The markets list: favourites, search and tab filtering, row links. */
module Markets {
  import opened Strings
  import opened Seqs
  import Links
  import Trading
  import opened Common

  /** One row of the markets table. */
  datatype Coin = Coin(
    id: string, name: string, symbol: string, price: real, change24h: real,
    marketCap: string, volume24h: string, icon: string, isFavorite: bool)

  /** The coin with its favourite flag flipped when its id is `id`. */
  function FlipIfId(c: Coin, id: string): Coin
  {
    if c.id == id then c.(isFavorite := !c.isFavorite) else c
  }

  /** `coins.map(coin => coin.id === id ? { ...coin, isFavorite: !coin.isFavorite } : coin)`:
      the same coins in the same order, with the favourite flag flipped on exactly
      the coins whose id is `id` and every other field kept. */
  function WithFavoriteToggled(coins: seq<Coin>, id: string): (r: seq<Coin>)
    ensures |r| == |coins|
    ensures forall i :: 0 <= i < |coins| ==>
              r[i].(isFavorite := coins[i].isFavorite) == coins[i]
              && (r[i].isFavorite <==> (coins[i].isFavorite != (coins[i].id == id)))
  {
    if coins == [] then [] else [FlipIfId(coins[0], id)] + WithFavoriteToggled(coins[1..], id)
  }

  /** Toggling the same id twice restores the list. */
  lemma {:induction false} ToggleTwiceRestores(coins: seq<Coin>, id: string)
    ensures WithFavoriteToggled(WithFavoriteToggled(coins, id), id) == coins
  {
    if coins != [] {
      var once := WithFavoriteToggled(coins, id);
      assert once[1..] == WithFavoriteToggled(coins[1..], id);
      ToggleTwiceRestores(coins[1..], id);
    }
  }

  /** Toggling an id that no coin has changes nothing. */
  lemma {:induction false} ToggleAbsentIsNoOp(coins: seq<Coin>, id: string)
    requires forall i :: 0 <= i < |coins| ==> coins[i].id != id
    ensures WithFavoriteToggled(coins, id) == coins
  {
    if coins != [] {
      ToggleAbsentIsNoOp(coins[1..], id);
    }
  }

  /** The search box matches a coin whose lower-cased name or symbol contains the
      lower-cased search term. */
  predicate MatchesSearch(c: Coin, term: string)
  {
    Includes(ToLower(c.name), ToLower(term)) || Includes(ToLower(c.symbol), ToLower(term))
  }

  /** The row filter: the search match, and on the favourites tab also the
      favourite flag; the other tabs ignore it. */
  predicate Keeps(c: Coin, term: string, tab: string)
  {
    if tab == "favorites" then MatchesSearch(c, term) && c.isFavorite else MatchesSearch(c, term)
  }

  /** `filteredCoins`: the coins the table shows, in list order. */
  function FilteredCoins(coins: seq<Coin>, term: string, tab: string): (r: seq<Coin>)
    ensures IsSubsequence(r, coins)
    ensures forall c :: c in r ==> c in coins && MatchesSearch(c, term)
    ensures tab == "favorites" ==> forall c :: c in r ==> c.isFavorite
    ensures forall i :: 0 <= i < |coins| && Keeps(coins[i], term, tab) ==> coins[i] in r
    ensures forall c :: multiset(r)[c] == if Keeps(c, term, tab) then multiset(coins)[c] else 0
  {
    Filter(coins, c => Keeps(c, term, tab))
  }

  /** A coin is matched by the search term exactly when its name or symbol, lower-cased,
      has the lower-cased term at some position. */
  lemma MatchesSearchIffOccurs(c: Coin, term: string)
    ensures MatchesSearch(c, term) <==>
              Occurs(ToLower(c.name), ToLower(term)) || Occurs(ToLower(c.symbol), ToLower(term))
  {
    IncludesIffOccurs(ToLower(c.name), ToLower(term));
    IncludesIffOccurs(ToLower(c.symbol), ToLower(term));
  }

  /** With an empty search term every tab but favourites shows every coin. */
  lemma EmptySearchShowsAll(coins: seq<Coin>, tab: string)
    requires tab != "favorites"
    ensures FilteredCoins(coins, "", tab) == coins
  {
    forall c | c in coins ensures Keeps(c, "", tab) {
      assert ToLower("") == "";
    }
    FilterKeepsAll(coins, c => Keeps(c, "", tab));
  }

  /** The link a row navigates to. */
  function RowLink(c: Coin): string
  {
    Links.SymbolLink(c.symbol)
  }

  /** The markets screen's state. */
  class MarketsPage {
    var coins: seq<Coin>
    var searchTerm: string
    var activeTab: string

    constructor (initial: seq<Coin>)
      ensures coins == initial && searchTerm == "" && activeTab == "all"
    {
      coins := initial;
      searchTerm := "";
      activeTab := "all";
    }

    /** The star button of a row. */
    method ToggleFavorite(id: string)
      modifies this
      ensures coins == WithFavoriteToggled(old(coins), id)
      ensures searchTerm == old(searchTerm) && activeTab == old(activeTab)
    {
      coins := WithFavoriteToggled(coins, id);
    }

    method SetSearchTerm(term: string)
      modifies this
      ensures searchTerm == term && coins == old(coins) && activeTab == old(activeTab)
    {
      searchTerm := term;
    }

    method SetActiveTab(tab: string)
      modifies this
      ensures activeTab == tab && coins == old(coins) && searchTerm == old(searchTerm)
    {
      activeTab := tab;
    }

    /** The rows the table shows now. */
    function Shown(): seq<Coin>
      reads this
    {
      FilteredCoins(coins, searchTerm, activeTab)
    }
  }
}
