# Crypto exchange front end — behavioural model

This project models the logic behind the pages of a React crypto exchange front end. It covers:

- the spot order form and its confirmation dialog (trading page);
- the coin list with search, tabs and favourites (markets page);
- the staking and savings products with their invest dialog (earn page);
- the leverage slider and its risk badge;
- the order-book depth view;
- the links and colour rules of the home dashboard;
- the wallet's portfolio total and its deposit and withdrawal dialogs.

Each page's React state (`useState`, and the order form's field values) is a Dafny `class`. Its fields are the state variables and its methods are the event handlers, with `modifies` clauses. What a page derives from its state is a function: the filtered lists, the dialog texts, the risk level and the bar widths. Those functions are defined on values, in one module per source file; the shared modules follow them in the table:

| module | file |
|---|---|
| `Trading` | `trading.dfy` |
| `Markets` | `markets.dfy` |
| `Earn` | `earn.dfy` |
| `Leverage` | `leverage.dfy` |
| `DepthView` | `depth.dfy` |
| `Dashboard` | `dashboard.dfy` |
| `Wallet` | `wallet.dfy` |
| `Common` | `common.dfy` |
| `Strings` | `strings.dfy` |
| `Seqs` | `seqs.dfy` |
| `Display`, `Links` | `display.dfy` |

The last four rows are shared modules. `Common` holds `Option`, `Result` and the colour type `Tone`; the others hold the JavaScript pieces the pages use:

- `Strings`: `toLowerCase`, `includes`, `replace` with a one-character pattern, and `split(c)[0]`.
- `Seqs`: an order-preserving `filter`.
- `Display`: the sign-dependent prefix and colour of a change figure.
- `Links`: the `/trading?pair=` links.

These JavaScript behaviours are modelled as written:

- `replace('_', '/')` replaces only the FIRST underscore.
- `get('pair') || 'BTC_USDT'` also falls back when the parameter is present but empty.
- `slice(0, n)` counts a negative `n` from the end.
- `Math.max(...sizes, 1)` never goes below 1.
- `reduce` is a left fold starting from 0.
- A missing price or asset is shown as the text `undefined`.

JavaScript numbers are modelled as exact reals, so rounding in IEEE doubles is not captured (see "## Left out").

Turning a number into text (`String(n)`, template interpolation, `toFixed`) is a parameter of the model (`show`, `fixed1`). `parseFloat` is also a parameter (`parse`). The theorems hold for every choice of these parameters.

The order-form schema at `src/pages/TradingPage.tsx:24-29` marks `price` as optional (the comment at line 26 says it is optional for market orders), but no rule ties it to the order type: `price` is optional for limit orders as well. The model follows the code, and `Trading.LimitWithoutPriceAccepted` states that a limit order without a price passes validation.

## Model

| member | source | states |
|---|---|---|
| `Strings.ToLower` | src/pages/MarketsPage.tsx:35 | `toLowerCase` on ASCII; `ToLowerSpec` shows it maps each character on its own and leaves no upper-case letter |
| `Strings.ToLowerSpec` | src/pages/MarketsPage.tsx:35 | lower-casing keeps the length, maps each character independently and leaves no upper-case ASCII letter |
| `Strings.ToLowerIdempotent` | src/pages/MarketsPage.tsx:35 | lower-casing an already lower-cased text changes nothing |
| `Strings.LowerParts` | src/pages/EarnPage.tsx:71 | lower-casing a concatenation lower-cases each part |
| `Strings.LowerCons` | src/pages/EarnPage.tsx:71 | lower-casing a text that starts with `c` gives the lower-cased `c` followed by the lower-cased rest |
| `Strings.LowerAroundSpace` | src/pages/EarnPage.tsx:71 | lower-casing two words joined by a space lower-cases each word and keeps the space |
| `Strings.Includes` | src/pages/MarketsPage.tsx:35 | `includes`; `IncludesIffOccurs` shows it holds exactly when the needle occurs at some index |
| `Strings.IncludesIffOccurs` | src/pages/MarketsPage.tsx:35 | `includes` holds exactly when the needle occurs at some index of the text (both directions) |
| `Strings.IncludesEmpty` | src/pages/MarketsPage.tsx:35 | the empty search term is included in every text |
| `Strings.FirstIndex` | src/pages/TradingPage.tsx:37 | the index found holds `c`, no earlier index does, and it equals the length exactly when `c` is absent |
| `Strings.ReplaceFirst` | src/pages/TradingPage.tsx:37 | `replace` with a one-character pattern; `ReplaceFirstSpec` shows only the first occurrence is replaced and the rest is kept |
| `Strings.ReplaceFirstSpec` | src/pages/TradingPage.tsx:37 | `replace` leaves a text without `c` unchanged, and otherwise substitutes only the first `c`, keeping both sides |
| `Strings.ReplaceFirstAbsent` | src/pages/TradingPage.tsx:37 | a text without `c` is left unchanged by `replace` |
| `Strings.ReplaceFirstRoundTrip` | src/pages/HomeDashboardPage.tsx:93 | replacing the first `a` by `b` and then the first `b` by `a` restores any text without `b` |
| `Strings.ReplaceFirstAfter` | src/pages/TradingPage.tsx:37 | in `a + c + b` with no `c` in `a`, replacing the first `c` yields `a + rep + b` |
| `Strings.BeforeFirst` | src/pages/TradingPage.tsx:57 | `split(c)[0]` is a prefix without `c`, and it is the whole text or stops just before a `c` |
| `Strings.BeforeFirstAfter` | src/pages/TradingPage.tsx:57 | in `a + c + b` with no `c` in `a`, `split(c)[0]` is `a` |
| `Seqs.Filter` | src/pages/MarketsPage.tsx:34-39 | `filter` keeps order (a subsequence), keeps only accepted elements, and keeps every accepted element as many times as it occurs (equal multisets on the accepted elements) |
| `Seqs.FilterKeepsAll` | src/pages/EarnPage.tsx:70 | a filter that accepts everything returns its input unchanged |
| `Display.ChangePrefix` | src/pages/MarketsPage.tsx:130 | the `+` before a change figure in the markets table and in the dashboard's trending list (src/pages/HomeDashboardPage.tsx:122); `ChangeStyleBySign` shows it appears exactly for non-negative figures |
| `Display.ChangeTone` | src/pages/MarketsPage.tsx:129 | the colour of a change figure in the markets table and in the dashboard's trending list (src/pages/HomeDashboardPage.tsx:121); `ChangeStyleBySign` shows it is green exactly for non-negative figures and red otherwise |
| `Display.ChangeStyleBySign` | src/pages/MarketsPage.tsx:129-130 | a change figure gets `+` and green exactly when it is non-negative, and red exactly when it has no prefix; the same rule serves the dashboard's trending list at src/pages/HomeDashboardPage.tsx:121-122 |
| `Links.SymbolLinkOpensPair` | src/pages/MarketsPage.tsx:109 | the pair parameter `SYM_USDT` of a symbol without `_` is decoded by the trading page as `SYM/USDT`; the browser opens that pair only when the symbol also has no `&`, `#`, `+` or `%` (see "## Left out") |
| `Links.SymbolLink` | src/pages/HomeDashboardPage.tsx:112 | the `/trading?pair=SYM_USDT` link of a trending coin or market row; `SymbolLinkOpensPair` shows it opens `SYM/USDT` (for a symbol without `&`, `#`, `+` or `%`; see "## Left out") |
| `Trading.Validate` | src/pages/TradingPage.tsx:24-29 | the form is accepted exactly when the amount is positive, unchanged when accepted, and with "Amount must be positive" when rejected |
| `Trading.LimitWithoutPriceAccepted` | src/pages/TradingPage.tsx:26 | a limit order with a positive amount and no price is accepted |
| `Trading.Title` | src/pages/TradingPage.tsx:53 | the dialog title; `TitleNamesSide` shows it names the side |
| `Trading.TitleNamesSide` | src/pages/TradingPage.tsx:53 | the dialog title is "Confirm Buy Order" or "Confirm Sell Order" by side, and the two differ |
| `Trading.Description` | src/pages/TradingPage.tsx:54 | the dialog description; characterised by `MarketDescriptionIgnoresPrice`, `LimitDescriptionEndsWithPrice` and `DescriptionNamesSide` |
| `Trading.MarketDescriptionIgnoresPrice` | src/pages/TradingPage.tsx:54 | a market order's description does not depend on the price field |
| `Trading.LimitDescriptionEndsWithPrice` | src/pages/TradingPage.tsx:54 | a limit order's description ends with " at $" and the price text (or `undefined`) followed by "?" |
| `Trading.DescriptionNamesSide` | src/pages/TradingPage.tsx:54 | the description carries the side word right after the order type, so buy and sell descriptions always differ |
| `Trading.SideWordAt` | src/pages/TradingPage.tsx:54 | the first letter of the side word sits right after the description's opening words |
| `Trading.DecodePair` | src/pages/TradingPage.tsx:35-37 | a missing or empty `pair` parameter gives BTC/USDT; otherwise only the first `_` becomes `/` and the rest is kept |
| `Trading.DefaultPairBase` | src/pages/TradingPage.tsx:36-37 | with a missing or empty parameter the pair is BTC/USDT, and its base asset, as the confirmation names it, is BTC |
| `Trading.DefaultParamDecodes` | src/pages/TradingPage.tsx:36-37 | the default parameter BTC_USDT decodes to BTC/USDT |
| `Trading.ExecutedMessage` | src/pages/TradingPage.tsx:57 | the execution notice; `ExecutedMessageNamesBase` shows it names the side, the amount and the base asset |
| `Trading.ExecutedMessageNamesBase` | src/pages/TradingPage.tsx:57 | for a parameter `base_quote` with no `_` or `/` in the base, the pair is `base/quote` and the notice reads "Trade Executed! Bought/Sold <amount> <base>." |
| `Trading.MockBids` | src/pages/TradingPage.tsx:21 | twenty bid levels priced 60500 down in steps of 10, with the given sizes; `MockBookOrdered` shows they fall strictly in price |
| `Trading.MockAsks` | src/pages/TradingPage.tsx:22 | twenty ask levels priced 60510 up in steps of 10, with the given sizes; `MockBookOrdered` shows they rise strictly and sit above every bid |
| `Trading.MockBookOrdered` | src/pages/TradingPage.tsx:21-22 | the mock bids fall strictly in price and the mock asks rise strictly, every ask above every bid, so the sorts leave both in generation order |
| `Trading.TradingPage.constructor` | src/pages/TradingPage.tsx:35-48 | the page opens on the decoded pair, with the default form values and a closed, empty dialog |
| `Trading.TradingPage.SetAmount` | src/pages/TradingPage.tsx:132-144 | only the amount field changes |
| `Trading.TradingPage.SetPrice` | src/pages/TradingPage.tsx:116-130 | only the price field changes |
| `Trading.TradingPage.SetOrderType` | src/pages/TradingPage.tsx:109 | only the order type changes |
| `Trading.TradingPage.SetTradeType` | src/pages/TradingPage.tsx:147-148 | only the trade side changes |
| `Trading.TradingPage.GestureBuy` | src/pages/TradingPage.tsx:65-70 | the side becomes buy, nothing else changes, and the buy notice is returned |
| `Trading.TradingPage.GestureSell` | src/pages/TradingPage.tsx:72-75 | the side becomes sell, nothing else changes, and the sell notice is returned |
| `Trading.TradingPage.Submit` | src/pages/TradingPage.tsx:51-63 | the outcome is `Validate` of the form; on success the dialog opens with the title and description of exactly these values, and on failure nothing changes |
| `Trading.TradingPage.PressBuy` | src/pages/TradingPage.tsx:147 | sets the side to buy and submits; on success the dialog opens with the title "Confirm Buy Order" and the description of the buy order; on failure the dialog, its handler, title and description are unchanged |
| `Trading.TradingPage.PressSell` | src/pages/TradingPage.tsx:148 | sets the side to sell and submits; on success the dialog opens with the title "Confirm Sell Order" and the description of the sell order; on failure the dialog, its handler, title and description are unchanged |
| `Trading.TradingPage.Confirm` | src/pages/TradingPage.tsx:55-60 | reports the execution of the values captured at submission, closes the dialog and resets the form to its defaults |
| `Trading.TradingPage.Cancel` | src/pages/TradingPage.tsx:174 | closes the dialog and keeps the form |
| `Markets.WithFavoriteToggled` | src/pages/MarketsPage.tsx:30-32 | the list keeps its length, flips `isFavorite` on the coins with that id and leaves every other coin as it was |
| `Markets.ToggleTwiceRestores` | src/pages/MarketsPage.tsx:30-32 | toggling the same id twice restores the list |
| `Markets.ToggleAbsentIsNoOp` | src/pages/MarketsPage.tsx:31 | toggling an id no coin has leaves the list unchanged |
| `Markets.MatchesSearch` | src/pages/MarketsPage.tsx:35 | the lower-cased term is included in the lower-cased name or symbol; `MatchesSearchIffOccurs` states it as an occurrence at some index |
| `Markets.Keeps` | src/pages/MarketsPage.tsx:34-39 | the row filter: the search match, and on the favourites tab also the favourite flag; `FilteredCoins` keeps exactly the coins it accepts |
| `Markets.FilteredCoins` | src/pages/MarketsPage.tsx:34-39 | the shown coins keep their order and all match the search; on the favourites tab all are favourites; every coin that qualifies is shown, as many times as it occurs |
| `Markets.MatchesSearchIffOccurs` | src/pages/MarketsPage.tsx:35 | a coin matches exactly when the lower-cased term occurs in its lower-cased name or symbol |
| `Markets.EmptySearchShowsAll` | src/pages/MarketsPage.tsx:34-39 | with an empty search on any tab but favourites, every coin is shown in order |
| `Markets.RowLink` | src/pages/MarketsPage.tsx:109 | a row's link is the symbol link of its coin; `Links.SymbolLinkOpensPair` shows it opens `SYM/USDT` (for a symbol without `&`, `#`, `+` or `%`; see "## Left out") |
| `Markets.MarketsPage.constructor` | src/pages/MarketsPage.tsx:26-28 | starts with the initial coins, an empty search and the "all" tab |
| `Markets.MarketsPage.ToggleFavorite` | src/pages/MarketsPage.tsx:30-32 | the coin list becomes its toggled version and nothing else changes |
| `Markets.MarketsPage.SetSearchTerm` | src/pages/MarketsPage.tsx:54 | only the search term changes |
| `Markets.MarketsPage.SetActiveTab` | src/pages/MarketsPage.tsx:81 | only the tab changes |
| `Earn.TypeTag` | src/pages/EarnPage.tsx:71 | the product type lower-cased with its first space removed; `TypeTags` shows it equals the tab value of that type |
| `Earn.TabValue` | src/pages/EarnPage.tsx:99-103 | the tab value of each product type; `TabValuesDistinct` shows they differ from each other and from `all` |
| `Earn.TabValuesDistinct` | src/pages/EarnPage.tsx:99-103 | different types have different tab values, and none is `all` |
| `Earn.TypeTags` | src/pages/EarnPage.tsx:71 | the tag computed from each product type equals that type's tab value: `staking`, `savings`, `launchpad` or `yieldfarming` (for Yield Farming: lower-cased word by word, then the first space removed) |
| `Earn.TypeTagInjective` | src/pages/EarnPage.tsx:71 | different product types have different tab values, and no type's tab value is `all` |
| `Earn.OnTab` | src/pages/EarnPage.tsx:69-72 | the product filter: every product on `all`, otherwise the products whose type tag equals the tab; `TypeTabSelectsType` and `AllTabShowsAll` characterise it |
| `Earn.FilteredProducts` | src/pages/EarnPage.tsx:69-72 | the shown products keep their order, are on the tab, and include every product on the tab as many times as it occurs |
| `Earn.AllTabShowsAll` | src/pages/EarnPage.tsx:70 | the "all" tab shows every product in order |
| `Earn.TypeTabSelectsType` | src/pages/EarnPage.tsx:69-72 | a type's tab shows exactly the products of that type |
| `Earn.ApyBadge` | src/pages/EarnPage.tsx:124 | the APY on a product card; `ApyShownIffPositive` shows when the figure appears |
| `Earn.ApyDetail` | src/pages/EarnPage.tsx:167 | the APY in the invest dialog; `ApyShownIffPositive` shows when the figure appears |
| `Earn.ApyShownIffPositive` | src/pages/EarnPage.tsx:124 | a positive APY is shown as its one-decimal figure with "% APY" or "%", and any other APY as "Variable" or "Variable Yield" |
| `Earn.ActionLabel` | src/pages/EarnPage.tsx:140 | the card's button text; `ActionLabels` shows which types get which |
| `Earn.ActionLabels` | src/pages/EarnPage.tsx:140 | the action reads "Subscribe" exactly for launchpad products and "Invest Now" exactly for the others |
| `Earn.HasMinimum` | src/pages/EarnPage.tsx:60 | a minimum that is present and non-zero, the only kind the truthiness test lets through; `CheckInvestment` and `BelowMinimumThird` use it |
| `Earn.CheckInvestment` | src/pages/EarnPage.tsx:50-67 | the investment succeeds exactly when a product is selected, the amount text is non-empty, the amount is positive and no non-zero minimum exceeds it; on success the notice reads "Successfully invested <amount> <asset> in <name>!" |
| `Earn.MissingInputFirst` | src/pages/EarnPage.tsx:51-54 | with no product or no amount text the notice is "Please enter an amount.", whatever the amount |
| `Earn.NonPositiveSecond` | src/pages/EarnPage.tsx:55-59 | with input present, a non-positive amount gives "Amount must be positive." |
| `Earn.BelowMinimumThird` | src/pages/EarnPage.tsx:60-63 | with a positive amount below a non-zero minimum, the notice names the minimum and the asset |
| `Earn.NoMinimumAcceptsPositive` | src/pages/EarnPage.tsx:60-66 | a product whose minimum is absent or zero accepts any positive amount |
| `Earn.MinimumMetAccepts` | src/pages/EarnPage.tsx:60-66 | a positive amount that meets a non-zero minimum is accepted with the success notice |
| `Earn.EarnPage.constructor` | src/pages/EarnPage.tsx:39-42 | the dialog is closed, nothing is selected, the amount is empty and the tab is "all" |
| `Earn.EarnPage.SelectProduct` | src/pages/EarnPage.tsx:44-48 | selects the product, opens the dialog and clears the amount |
| `Earn.EarnPage.SetAmountText` | src/pages/EarnPage.tsx:186 | only the amount text changes |
| `Earn.EarnPage.SetActiveTab` | src/pages/EarnPage.tsx:97 | only the tab changes |
| `Earn.EarnPage.CloseDialog` | src/pages/EarnPage.tsx:192 | only the dialog closes |
| `Earn.EarnPage.HandleInvest` | src/pages/EarnPage.tsx:50-67 | the notice is `CheckInvestment` of the current state, and the dialog closes only on success |
| `Leverage.RiskOf` | src/components/LeverageSliderWithRisk.tsx:44-49 | the risk level of a leverage; `RiskBands` and `RiskMonotone` characterise it |
| `Leverage.RiskBands` | src/components/LeverageSliderWithRisk.tsx:44-49 | the risk is Low up to 10, Medium up to 25, High up to 50 and Very High above, each band in both directions |
| `Leverage.RiskMonotone` | src/components/LeverageSliderWithRisk.tsx:44-49 | a higher leverage never has a lower risk |
| `Leverage.ShowsWarning` | src/components/LeverageSliderWithRisk.tsx:77 | the warning shows above 50x; `WarningIffVeryHigh` shows this is exactly the Very High band |
| `Leverage.WarningIffVeryHigh` | src/components/LeverageSliderWithRisk.tsx:77 | the warning is shown exactly when the risk is Very High |
| `Leverage.LevelText` | src/components/LeverageSliderWithRisk.tsx:45-48 | the badge text of a risk level; `BadgeDistinguishesLevels` shows each level has its own |
| `Leverage.LevelColor` | src/components/LeverageSliderWithRisk.tsx:45-48 | the badge colour of a risk level; `BadgeDistinguishesLevels` shows each level has its own |
| `Leverage.BadgeDistinguishesLevels` | src/components/LeverageSliderWithRisk.tsx:59-61 | the badge text and the badge colour each tell the levels apart, and the badge is red exactly when the warning shows |
| `Leverage.LeverageSlider.constructor` | src/components/LeverageSliderWithRisk.tsx:17-26 | missing properties default to 1, 100, 1 and 10, and the slider starts at the default value |
| `Leverage.LeverageSlider.HandleValueChange` | src/components/LeverageSliderWithRisk.tsx:30-35 | the leverage becomes the slider's first value, which is forwarded when a change handler is present |
| `Leverage.LeverageSlider.HandleValueCommit` | src/components/LeverageSliderWithRisk.tsx:37-42 | the slider's first value is forwarded when a commit handler is present, and the state is unchanged |
| `DepthView.MaxWith` | src/components/OrderBookDepthVisualizer.tsx:27 | the maximum is at least the floor, bounds every value and is either the floor or one of the values |
| `DepthView.MaxSize` | src/components/OrderBookDepthVisualizer.tsx:26-27 | the normaliser is at least 1, bounds every bid and ask size, and is 1 or some order's size |
| `DepthView.SliceEnd` | src/components/OrderBookDepthVisualizer.tsx:30 | the slice end never exceeds the length |
| `DepthView.Shown` | src/components/OrderBookDepthVisualizer.tsx:30 | the rows shown are a prefix: the first `depth` orders, or all but the last `-depth` when the depth is negative |
| `DepthView.DefaultDepthShowsTen` | src/components/OrderBookDepthVisualizer.tsx:20 | by default at most the first ten orders are shown |
| `DepthView.BarWidth` | src/components/OrderBookDepthVisualizer.tsx:41 | the bar width in percent; `BarWidthBounds` bounds it |
| `DepthView.BarWidthBounds` | src/components/OrderBookDepthVisualizer.tsx:41 | a size between 0 and the normaliser draws a bar between 0% and 100% |
| `DepthView.SideTone` | src/components/OrderBookDepthVisualizer.tsx:39-43 | asks are drawn red and bids green; `RenderSide` gives every row of a side that colour |
| `DepthView.RenderSide` | src/components/OrderBookDepthVisualizer.tsx:62-70 | an empty side shows "No asks" or "No bids"; otherwise one row per shown order, in order, with its price, size, width and colour |
| `DepthView.Render` | src/components/OrderBookDepthVisualizer.tsx:52-72 | both sides of the book against one normaliser; `RenderedWidthsInRange` shows every bar is between 0% and 100% |
| `DepthView.RenderedWidthsInRange` | src/components/OrderBookDepthVisualizer.tsx:26-41 | with non-negative sizes, every bar on both sides is between 0% and 100% wide |
| `Dashboard.MoverParam` | src/pages/HomeDashboardPage.tsx:93 | the `pair` parameter of a mover's link; `MoverLinkRoundTrip` shows the trading page decodes it back (for a pair without `&`, `#`, `+` or `%`; see "## Left out") |
| `Dashboard.MoverLink` | src/pages/HomeDashboardPage.tsx:93 | the link of a mover's card |
| `Dashboard.MoverLinkRoundTrip` | src/pages/HomeDashboardPage.tsx:93 | the trading page decodes a mover's `pair` parameter back to that same pair when the pair is non-empty and has no `_`; the browser opens that pair only when the pair also has no `&`, `#`, `+` or `%` (see "## Left out") |
| `Dashboard.UnderscoreBeforeSlashMoves` | src/pages/HomeDashboardPage.tsx:93 | a pair `a_b/c` (no `_` or `/` in `a`, no `/` in `b`) comes back as `a/b_c` |
| `Dashboard.MoverLinkRoundTripNeedsNoUnderscore` | src/pages/HomeDashboardPage.tsx:93 | a pair containing `_` comes back different: "A_B/C" opens as "A/B_C" |
| `Dashboard.SentimentTone` | src/pages/HomeDashboardPage.tsx:136-139 | the colour of a news item's sentiment; `SentimentTones` characterises it |
| `Dashboard.SentimentTones` | src/pages/HomeDashboardPage.tsx:136-139 | green exactly for "Positive", red exactly for "Negative", yellow for everything else, never orange |
| `Wallet.TotalFiatValue` | src/pages/WalletPage.tsx:47 | the portfolio total, summed from the left; `TotalAppend`, `TotalFromFront` and `TotalBoundsEach` characterise it |
| `Wallet.TotalAppend` | src/pages/WalletPage.tsx:47 | the total of two lists joined is the sum of their totals |
| `Wallet.TotalFromFront` | src/pages/WalletPage.tsx:47 | the left-fold total equals the first value plus the total of the rest |
| `Wallet.TotalBoundsEach` | src/pages/WalletPage.tsx:47 | with non-negative values the total is non-negative and at least each asset's value |
| `Wallet.SampleTotal` | src/pages/WalletPage.tsx:24-29 | the sample portfolio totals 86576.03 |
| `Wallet.TypeTone` | src/pages/WalletPage.tsx:137 | the colour of a transaction type; `TransactionTones` characterises it |
| `Wallet.StatusTone` | src/pages/WalletPage.tsx:143-144 | the colour of a transaction status; `TransactionTones` characterises it |
| `Wallet.TransactionTones` | src/pages/WalletPage.tsx:137-145 | deposits and earn rewards are green and the others red; status is green for Completed, yellow for Pending and red otherwise |
| `Wallet.SymbolText` | src/pages/WalletPage.tsx:220 | `selectedAssetForTx?.symbol` as text: the symbol, or `undefined` with nothing selected; `ConfirmWithdrawal` puts it in its notice |
| `Wallet.WalletPage.constructor` | src/pages/WalletPage.tsx:42-45 | no OTP, both dialogs closed, nothing selected |
| `Wallet.WalletPage.HandleDeposit` | src/pages/WalletPage.tsx:49-52 | selects the asset and opens the deposit dialog |
| `Wallet.WalletPage.HandleWithdraw` | src/pages/WalletPage.tsx:54-57 | selects the asset and opens the withdrawal dialog |
| `Wallet.WalletPage.CloseDeposit` | src/pages/WalletPage.tsx:178 | only the deposit dialog closes |
| `Wallet.WalletPage.SetOtp` | src/pages/WalletPage.tsx:202 | only the OTP changes |
| `Wallet.WalletPage.ConfirmWithdrawal` | src/pages/WalletPage.tsx:220 | the notice names the selected symbol (`undefined` if none), the dialog closes and the OTP is cleared |
| `Wallet.WalletPage.CancelWithdrawal` | src/pages/WalletPage.tsx:219 | only the withdrawal dialog closes; the OTP is kept |

## Left out

- Rendering: the JSX layout, icons, charts, tabs without handlers, and presentational components (glass cards, balance card, widgets, pie chart). These are appearance only.
- Navigation, toasts, the clipboard, QR codes and `console.log` are effects outside the model. The text of each toast the modelled handlers show is returned as a value instead. The information buttons (`src/pages/TradingPage.tsx:82`, `src/pages/EarnPage.tsx:78`) and the copy-address button (`src/pages/WalletPage.tsx:59-62`) only show a fixed toast or write to the clipboard, and are not modelled.
- `Wallet.TotalFiatValue`: sums are taken in exact reals. The `reduce` at `src/pages/WalletPage.tsx:47` adds IEEE doubles from the left, and there the grouping matters (0.1 + 0.2 + 0.3 is 0.6000000000000001 from the left and 0.6 grouped the other way). `Wallet.TotalAppend` and `Wallet.TotalFromFront` regroup the sum, so they hold for the model's exact sums but not for the doubles.
- Every JavaScript number (prices, sizes, amounts, leverages, APYs) is an exact real. Comparisons and the thresholds follow the source, but floating-point rounding, `NaN` and infinities are not modelled.
- Form library internals (`react-hook-form`, `zod` coercion): the form is the record of values it would hold. `z.coerce.number()` turning a non-numeric entry into NaN is not modelled; amounts and prices are reals.
- Number formatting (`toFixed`, `toLocaleString`, `String(n)`) and `parseFloat` are parameters, not modelled. The NaN that `parseFloat` can return is not modelled, so on the earn page a NaN amount, which the source lets through every check, does not arise.
- The mock order-book sizes come from `Math.random()`. They are parameters of `Trading.MockBids` and `Trading.MockAsks`.
- `Trading.TradingPage.Confirm`: after a reset, the order-type tabs keep showing the tab last chosen, because that control is uncontrolled. Only the form value is modelled.
- `Strings.ToLower`: lower-casing covers the ASCII letters only; Unicode case mapping is not modelled.
- Query-string parsing (`URLSearchParams.get('pair')` and the router) is not modelled: the text after `pair=` in a link is passed to `Trading.DecodePair` as it stands. The browser cuts the value at `&` or `#`, turns `+` into a space and percent-decodes `%` sequences, so the two lemmas below hold of the program only for text without these four characters.
- `Dashboard.MoverLinkRoundTrip`: the round trip is proved for every non-empty pair without `_`, with the query string not parsed; in the browser it holds only for pairs that also have no `&`, `#`, `+` or `%` (the link of "A&B/C" opens "A").
- `Links.SymbolLinkOpensPair`: the decoding is proved for every symbol without `_`, with the query string not parsed; in the browser it holds only for symbols that also have no `&`, `#`, `+` or `%`.
- Fields that no logic reads are left out of the records: an earn product's `iconUrl` and `currentProgress`, and a wallet asset's `icon`. The transactions, movers and news items are not records of the model: only the text fields their colours and links are computed from are taken as inputs. A market coin keeps its market cap, volume and icon, because the favourite toggle stores and returns every coin whole.
- The depth view's `flex-col-reverse` displays asks bottom-up. That is layout; the model keeps the rows in list order.
- `DepthView.SliceEnd`: its contract states only the bound; `DepthView.Shown` carries the exact prefix lengths.
