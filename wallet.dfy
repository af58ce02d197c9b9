/** The wallet: the portfolio total, the deposit and withdraw dialogs, and the
    colours of the transaction history. */
module Wallet {
  import opened Common

  /** A holding, with its value in fiat. */
  datatype Asset = Asset(id: string, name: string, symbol: string, balance: real, fiatValue: real)

  /** `assets.reduce((sum, asset) => sum + asset.fiatValue, 0)`: a left fold. */
  function TotalFiatValue(assets: seq<Asset>): real
  {
    if assets == [] then 0.0
    else TotalFiatValue(assets[..|assets| - 1]) + assets[|assets| - 1].fiatValue
  }

  /** The total of two lists laid end to end is the sum of their totals. */
  lemma {:induction false} TotalAppend(a: seq<Asset>, b: seq<Asset>)
    ensures TotalFiatValue(a + b) == TotalFiatValue(a) + TotalFiatValue(b)
  {
    if b == [] {
      assert a + b == a;
    } else {
      assert (a + b)[..|a + b| - 1] == a + b[..|b| - 1];
      assert (a + b)[|a + b| - 1] == b[|b| - 1];
      TotalAppend(a, b[..|b| - 1]);
    }
  }

  /** The total, taken from the front: the first value plus the total of the rest. */
  lemma TotalFromFront(assets: seq<Asset>)
    requires assets != []
    ensures TotalFiatValue(assets) == assets[0].fiatValue + TotalFiatValue(assets[1..])
  {
    TotalAppend([assets[0]], assets[1..]);
    assert [assets[0]] + assets[1..] == assets;
  }

  predicate ValuesNonNegative(assets: seq<Asset>)
  {
    forall i :: 0 <= i < |assets| ==> assets[i].fiatValue >= 0.0
  }

  /** With no negative value the total is non-negative and at least each asset's value. */
  lemma {:induction false} TotalBoundsEach(assets: seq<Asset>)
    requires ValuesNonNegative(assets)
    ensures TotalFiatValue(assets) >= 0.0
    ensures forall i :: 0 <= i < |assets| ==> assets[i].fiatValue <= TotalFiatValue(assets)
  {
    if assets != [] {
      var init := assets[..|assets| - 1];
      TotalBoundsEach(init);
      assert forall i :: 0 <= i < |init| ==> init[i] == assets[i];
    }
  }

  /** The wallet's sample holdings. */
  const SampleAssets: seq<Asset> := [
    Asset("btc", "Bitcoin", "BTC", 0.75, 45375.56),
    Asset("eth", "Ethereum", "ETH", 10.2, 31110.24),
    Asset("sol", "Solana", "SOL", 50.5, 7590.23),
    Asset("usdt", "Tether", "USDT", 2500.0, 2500.00)
  ]

  /** The sample portfolio is worth 86576.03 (in exact arithmetic). */
  lemma SampleTotal()
    ensures TotalFiatValue(SampleAssets) == 86576.03
  {
    var s := SampleAssets;
    assert s[..1][..0] == [];
    assert TotalFiatValue(s[..1]) == 45375.56;
    assert s[..2][..1] == s[..1];
    assert TotalFiatValue(s[..2]) == 45375.56 + 31110.24;
    assert s[..3][..2] == s[..2];
    assert TotalFiatValue(s[..3]) == 45375.56 + 31110.24 + 7590.23;
    assert s[..4][..3] == s[..3] && s[..4] == s;
  }

  /** The colour of a transaction's type: deposits and earn rewards are green. */
  function TypeTone(txType: string): Tone
  {
    if txType == "Deposit" || txType == "Earn Reward" then Green else Red
  }

  /** The colour of a transaction's status. */
  function StatusTone(status: string): Tone
  {
    if status == "Completed" then Green
    else if status == "Pending" then Yellow
    else Red
  }

  /** Money coming in is green and everything else red; Completed is green,
      Pending yellow and any other status red. */
  lemma TransactionTones(txType: string, status: string)
    ensures TypeTone(txType) == Green <==> txType == "Deposit" || txType == "Earn Reward"
    ensures TypeTone(txType) != Green ==> TypeTone(txType) == Red
    ensures StatusTone(status) == Green <==> status == "Completed"
    ensures StatusTone(status) == Yellow <==> status == "Pending"
    ensures StatusTone(status) == Red <==> status != "Completed" && status != "Pending"
  {
  }

  /** JavaScript's text for `selectedAssetForTx?.symbol`. */
  function SymbolText(a: Option<Asset>): string
  {
    match a
    case None => "undefined"
    case Some(x) => x.symbol
  }

  /** The wallet screen's dialog state. */
  class WalletPage {
    var otp: string
    var depositOpen: bool
    var withdrawOpen: bool
    var selected: Option<Asset>

    constructor ()
      ensures otp == "" && !depositOpen && !withdrawOpen && selected == None
    {
      otp := "";
      depositOpen := false;
      withdrawOpen := false;
      selected := None;
    }

    /** `handleDeposit`: selects the asset and opens the deposit dialog. */
    method HandleDeposit(a: Asset)
      modifies this
      ensures selected == Some(a) && depositOpen
      ensures withdrawOpen == old(withdrawOpen) && otp == old(otp)
    {
      selected := Some(a);
      depositOpen := true;
    }

    /** `handleWithdraw`: selects the asset and opens the withdraw dialog. */
    method HandleWithdraw(a: Asset)
      modifies this
      ensures selected == Some(a) && withdrawOpen
      ensures depositOpen == old(depositOpen) && otp == old(otp)
    {
      selected := Some(a);
      withdrawOpen := true;
    }

    /** The deposit dialog's Done button (and dismissing it). */
    method CloseDeposit()
      modifies this
      ensures !depositOpen
      ensures withdrawOpen == old(withdrawOpen) && otp == old(otp) && selected == old(selected)
    {
      depositOpen := false;
    }

    /** Typing the 2FA code. */
    method SetOtp(code: string)
      modifies this
      ensures otp == code
      ensures depositOpen == old(depositOpen) && withdrawOpen == old(withdrawOpen) && selected == old(selected)
    {
      otp := code;
    }

    /** Confirm Withdrawal: reports the withdrawal, closes the dialog and clears the code. */
    method ConfirmWithdrawal() returns (message: string)
      modifies this
      ensures message == "Withdrawal for " + SymbolText(selected) + " initiated."
      ensures !withdrawOpen && otp == ""
      ensures depositOpen == old(depositOpen) && selected == old(selected)
    {
      message := "Withdrawal for " + SymbolText(selected) + " initiated.";
      withdrawOpen := false;
      otp := "";
    }

    /** Cancel (and dismissing the dialog): closes it and keeps the code. */
    method CancelWithdrawal()
      modifies this
      ensures !withdrawOpen
      ensures otp == old(otp) && depositOpen == old(depositOpen) && selected == old(selected)
    {
      withdrawOpen := false;
    }
  }
}
