/** The earn catalogue: the type tabs, the display rules of a product card, and
    the investment dialog with its validator. */
module Earn {
  import opened Common
  import opened Strings
  import opened Seqs

  datatype ProductType = Staking | Savings | Launchpad | YieldFarming

  /** The type as the catalogue spells it. */
  function TypeName(t: ProductType): string
  {
    match t
    case Staking => "Staking"
    case Savings => "Savings"
    case Launchpad => "Launchpad"
    case YieldFarming => "Yield Farming"
  }

  /** An earn product; `term` and `minInvestment` may be missing. */
  datatype EarnProduct = EarnProduct(
    id: string, name: string, asset: string, apy: real, term: Option<string>,
    productType: ProductType, minInvestment: Option<real>, details: string)

  /** `p.type.toLowerCase().replace(' ', '')`: the tab value a product type answers to. */
  function TypeTag(t: ProductType): string
  {
    ReplaceFirst(ToLower(TypeName(t)), ' ', "")
  }

  /** The tab values of the earn screen's tab list. */
  function TabValue(t: ProductType): string
  {
    match t
    case Staking => "staking"
    case Savings => "savings"
    case Launchpad => "launchpad"
    case YieldFarming => "yieldfarming"
  }

  /** Each type's computed tag is the value of its tab. */
  lemma TypeTags(t: ProductType)
    ensures TypeTag(t) == TabValue(t)
  {
    match t
    case Staking => StakingTag();
    case Savings => SavingsTag();
    case Launchpad => LaunchpadTag();
    case YieldFarming =>
      LowerYieldFarming(TypeName(t));
      JoinYieldFarming(ToLower(TypeName(t)));
  }

  // The lemmas below are the proof steps of `TypeTags`, one per type name. The
  // "Yield Farming" steps take the literal as a parameter `s` pinned by `requires`,
  // which keeps the verifier from unfolding `ToLower` over the whole literal at once.

  lemma StakingTag()
    ensures TypeTag(Staking) == "staking"
  {
  }

  lemma SavingsTag()
    ensures TypeTag(Savings) == "savings"
  {
  }

  lemma LaunchpadTag()
    ensures TypeTag(Launchpad) == "launchpad"
  {
  }

  /** "Yield Farming" lower-cases word by word around its space. */
  lemma LowerYieldFarming(s: string)
    requires s == "Yield Farming"
    ensures ToLower(s) == "yield" + [' '] + "farming"
  {
    YieldFarmingWords(s);
    LowerAroundSpace("Yield", "Farming");
    LowerYield();
    LowerFarming();
  }

  lemma YieldFarmingWords(s: string)
    requires s == "Yield Farming"
    ensures s == "Yield" + ([' '] + "Farming")
  {
  }

  lemma LowerYield()
    ensures ToLower("Yield") == "yield"
  {
    LowerCons("Yield", 'Y', "ield");
    LowerCons("ield", 'i', "eld");
    LowerCons("eld", 'e', "ld");
    LowerCons("ld", 'l', "d");
    LowerCons("d", 'd', "");
  }

  lemma LowerFarming()
    ensures ToLower("Farming") == "farming"
  {
    LowerCons("Farming", 'F', "arming");
    LowerCons("arming", 'a', "rming");
    LowerCons("rming", 'r', "ming");
    LowerCons("ming", 'm', "ing");
    LowerCons("ing", 'i', "ng");
    LowerCons("ng", 'n', "g");
    LowerCons("g", 'g', "");
  }

  lemma JoinYieldFarming(s: string)
    requires s == "yield" + [' '] + "farming"
    ensures ReplaceFirst(s, ' ', "") == "yieldfarming"
  {
    ReplaceFirstAfter("yield", ' ', "farming", "");
    assert "yield" + "" + "farming" == "yieldfarming";
  }

  /** The product filter: the `all` tab keeps every product, any other tab the
      products whose type tag equals the tab. */
  predicate OnTab(p: EarnProduct, tab: string)
  {
    if tab == "all" then true else TypeTag(p.productType) == tab
  }

  /** `filteredProducts`: the products shown under a tab, in catalogue order. */
  function FilteredProducts(products: seq<EarnProduct>, tab: string): (r: seq<EarnProduct>)
    ensures IsSubsequence(r, products)
    ensures forall p :: p in r ==> p in products && OnTab(p, tab)
    ensures forall i :: 0 <= i < |products| && OnTab(products[i], tab) ==> products[i] in r
    ensures forall p :: multiset(r)[p] == if OnTab(p, tab) then multiset(products)[p] else 0
  {
    Filter(products, p => OnTab(p, tab))
  }

  /** The `all` tab shows the whole catalogue. */
  lemma AllTabShowsAll(products: seq<EarnProduct>)
    ensures FilteredProducts(products, "all") == products
  {
    FilterKeepsAll(products, p => OnTab(p, "all"));
  }

  /** Distinct product types have distinct tab values, none of them `all`. */
  lemma TypeTagInjective(u: ProductType, t: ProductType)
    ensures TypeTag(u) == TypeTag(t) <==> u == t
    ensures TypeTag(t) != "all"
  {
    TypeTags(u);
    TypeTags(t);
    TabValuesDistinct(u, t);
  }

  /** No two tabs share a value, and none is `all`. */
  lemma TabValuesDistinct(u: ProductType, t: ProductType)
    ensures TabValue(u) == TabValue(t) <==> u == t
    ensures TabValue(t) != "all"
  {
    assert "staking"[2] != "savings"[2];
  }

  /** A tab named after a type shows exactly the products of that type. */
  lemma TypeTabSelectsType(products: seq<EarnProduct>, t: ProductType)
    ensures forall p :: p in FilteredProducts(products, TypeTag(t)) ==> p.productType == t
    ensures forall i :: 0 <= i < |products| && products[i].productType == t
              ==> products[i] in FilteredProducts(products, TypeTag(t))
  {
    var tab := TypeTag(t);
    var r := FilteredProducts(products, tab);
    forall p | p in r ensures p.productType == t {
      TypeTagInjective(p.productType, t);
    }
    forall i | 0 <= i < |products| && products[i].productType == t ensures products[i] in r {
      assert OnTab(products[i], tab);
    }
  }

  /** The APY line of a product card; `fixed1` is `toFixed(1)`. */
  function ApyBadge(apy: real, fixed1: real -> string): string
  {
    if apy > 0.0 then fixed1(apy) + "% APY" else "Variable"
  }

  /** The APY line of the investment dialog. */
  function ApyDetail(apy: real, fixed1: real -> string): string
  {
    if apy > 0.0 then fixed1(apy) + "%" else "Variable Yield"
  }

  /** The label of a product card's button. */
  function ActionLabel(t: ProductType): string
  {
    if t == Launchpad then "Subscribe" else "Invest Now"
  }

  /** A positive APY is shown as its percentage on the card and in the dialog;
      a zero or negative one is shown as variable in both places. */
  lemma ApyShownIffPositive(apy: real, fixed1: real -> string)
    ensures apy <= 0.0 ==> ApyBadge(apy, fixed1) == "Variable" && ApyDetail(apy, fixed1) == "Variable Yield"
    ensures apy > 0.0 ==> var b, d := ApyBadge(apy, fixed1), ApyDetail(apy, fixed1);
                          b[..|fixed1(apy)|] == fixed1(apy) && b[|fixed1(apy)|..] == "% APY"
                          && d[..|fixed1(apy)|] == fixed1(apy) && d[|fixed1(apy)|..] == "%"
  {
  }

  /** Launchpad cards offer "Subscribe", every other type "Invest Now". */
  lemma ActionLabels(t: ProductType)
    ensures ActionLabel(t) == "Subscribe" <==> t == Launchpad
    ensures ActionLabel(t) == "Invest Now" <==> t != Launchpad
  {
  }

  /** A toast: an error or a success, with its text. */
  datatype Notice = Error(text: string) | Success(text: string)

  const EnterAmount: string := "Please enter an amount."
  const AmountPositive: string := "Amount must be positive."

  /** The minimum the product sets, when it sets a non-zero one. */
  predicate HasMinimum(p: EarnProduct)
  {
    p.minInvestment.Some? && p.minInvestment.value != 0.0
  }

  /** `handleInvest`'s checks, in order, the first failure winning: a selected
      product and non-empty amount text, a positive amount, and at least the
      product's minimum. `amount` is `parseFloat(text)` and `show` JavaScript's
      number-to-text conversion. */
  function CheckInvestment(product: Option<EarnProduct>, text: string, amount: real, show: real -> string): (n: Notice)
    ensures n.Success? <==> product.Some? && text != "" && amount > 0.0
                            && !(HasMinimum(product.value) && amount < product.value.minInvestment.value)
    ensures n.Success? ==> n.text == "Successfully invested " + show(amount) + " " + product.value.asset
                                     + " in " + product.value.name + "!"
  {
    if product.None? || text == "" then Error(EnterAmount)
    else if amount <= 0.0 then Error(AmountPositive)
    else if HasMinimum(product.value) && amount < product.value.minInvestment.value then
      Error("Minimum investment is " + show(product.value.minInvestment.value) + " " + product.value.asset + ".")
    else
      Success("Successfully invested " + show(amount) + " " + product.value.asset + " in " + product.value.name + "!")
  }

  /** Missing input is reported first, whatever the amount. */
  lemma MissingInputFirst(product: Option<EarnProduct>, text: string, amount: real, show: real -> string)
    requires product.None? || text == ""
    ensures CheckInvestment(product, text, amount, show) == Error(EnterAmount)
  {
  }

  /** A non-positive amount is reported next, whatever the minimum. */
  lemma NonPositiveSecond(product: EarnProduct, text: string, amount: real, show: real -> string)
    requires text != "" && amount <= 0.0
    ensures CheckInvestment(Some(product), text, amount, show) == Error(AmountPositive)
  {
  }

  /** A positive amount under a non-zero minimum is reported with the minimum. */
  lemma BelowMinimumThird(product: EarnProduct, text: string, amount: real, show: real -> string)
    requires text != "" && 0.0 < amount && HasMinimum(product) && amount < product.minInvestment.value
    ensures CheckInvestment(Some(product), text, amount, show)
            == Error("Minimum investment is " + show(product.minInvestment.value) + " " + product.asset + ".")
  {
  }

  /** A positive amount that meets a non-zero minimum is accepted, with the success message. */
  lemma MinimumMetAccepts(product: EarnProduct, text: string, amount: real, show: real -> string)
    requires text != "" && amount > 0.0 && HasMinimum(product) && amount >= product.minInvestment.value
    ensures CheckInvestment(Some(product), text, amount, show)
            == Success("Successfully invested " + show(amount) + " " + product.asset + " in " + product.name + "!")
  {
  }

  /** Without a minimum (missing or zero) every positive amount is accepted, with the success message. */
  lemma NoMinimumAcceptsPositive(product: EarnProduct, text: string, amount: real, show: real -> string)
    requires text != "" && amount > 0.0 && !HasMinimum(product)
    ensures CheckInvestment(Some(product), text, amount, show)
            == Success("Successfully invested " + show(amount) + " " + product.asset + " in " + product.name + "!")
  {
  }

  /** The earn screen's state. `parse` is `parseFloat`, `show` the number-to-text conversion. */
  class EarnPage {
    const products: seq<EarnProduct>
    const parse: string -> real
    const show: real -> string
    var isDialogOpen: bool
    var selected: Option<EarnProduct>
    var amountText: string
    var activeTab: string

    constructor (products: seq<EarnProduct>, parse: string -> real, show: real -> string)
      ensures this.products == products && this.parse == parse && this.show == show
      ensures !isDialogOpen && selected == None && amountText == "" && activeTab == "all"
    {
      this.products := products;
      this.parse := parse;
      this.show := show;
      isDialogOpen := false;
      selected := None;
      amountText := "";
      activeTab := "all";
    }

    /** `handleProductSelect`: selects the product, opens the dialog and clears the amount. */
    method SelectProduct(p: EarnProduct)
      modifies this
      ensures selected == Some(p) && isDialogOpen && amountText == ""
      ensures activeTab == old(activeTab)
    {
      selected := Some(p);
      isDialogOpen := true;
      amountText := "";
    }

    /** Typing in the amount field. */
    method SetAmountText(text: string)
      modifies this
      ensures amountText == text
      ensures isDialogOpen == old(isDialogOpen) && selected == old(selected) && activeTab == old(activeTab)
    {
      amountText := text;
    }

    method SetActiveTab(tab: string)
      modifies this
      ensures activeTab == tab
      ensures isDialogOpen == old(isDialogOpen) && selected == old(selected) && amountText == old(amountText)
    {
      activeTab := tab;
    }

    /** The dialog's Cancel button (and dismissing the dialog). */
    method CloseDialog()
      modifies this
      ensures !isDialogOpen
      ensures selected == old(selected) && amountText == old(amountText) && activeTab == old(activeTab)
    {
      isDialogOpen := false;
    }

    /** `handleInvest`: reports the first failed check and changes nothing, or
        reports the investment and closes the dialog. */
    method HandleInvest() returns (n: Notice)
      modifies this
      ensures n == CheckInvestment(selected, amountText, parse(amountText), show)
      ensures isDialogOpen == (old(isDialogOpen) && n.Error?)
      ensures selected == old(selected) && amountText == old(amountText) && activeTab == old(activeTab)
    {
      n := CheckInvestment(selected, amountText, parse(amountText), show);
      if n.Success? {
        isDialogOpen := false;
      }
    }

    /** The product cards shown now. */
    function Shown(): seq<EarnProduct>
      reads this
    {
      FilteredProducts(products, activeTab)
    }
  }
}
