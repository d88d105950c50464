/** Concrete conversations: the example runs the flows are expected to
    support, each stated for one user from an empty bot. */
module Scenarios {
  import opened Base
  import opened Payment
  import opened Profiles
  import Sell
  import Verify
  import BankPages
  import Text
  import Validators

  const Alice: UserId := 42

  const Address: string := "0x1111111111111111111111111111111111111111"

  const Verified: Profile :=
    Profile(Some("0123456789"), Some("ADA OBI"), Some("Access Bank"), Some("044"), None, 0.0, 0)

  /** The sample address is well formed. */
  lemma SampleAddressIsValid()
    ensures Validators.IsRefundAddress(Address)
  {
    assert Address[0] == '0' && Address[1] == 'x';
    assert forall k :: 2 <= k < 42 ==> Address[k] == '1';
  }

  /** The sample address has nothing to trim. */
  lemma SampleAddressIsTrimmed()
    ensures Text.Trim(Address) == Address
  {
    Text.TrimOfUnpadded(Address);
  }

  /** The sell session of the sample conversation after each step: USDT on
      BSC chosen, the sample address given, then 10 USDT at a rate of 1500. */
  const Opened: Sell.Session :=
    Sell.Session(Sell.AwaitingRefundAddress, Sell.USDT, "bnb-smart-chain", "BSC", None, None, None, None)
  const Addressed: Sell.Session := Opened.(refundAddress := Some(Address), step := Sell.AwaitingAmount)
  const Quoted: Sell.Session :=
    Addressed.(amount := Some(10.0), rate := Some(1500.0), receivingAmount := Some(15000.0),
               step := Sell.Confirming)

  /** Choosing USDT on BSC opens a session that waits for the address. */
  lemma ChooseUsdtOnBsc()
    ensures Sell.SelectChain(map[], Alice, Sell.USDT, "bnb-smart-chain")
            == Sell.Transition(map[Alice := Opened], Sell.AskRefundAddress(Sell.USDT, "BSC"))
  {
  }

  /** Confirming with a verified profile places one order for 10 USDT on
      bnb-smart-chain, paid out to the profile's account, counts one trade
      and ends the session. */
  lemma ConfirmSample()
    ensures Sell.ConfirmSell(map[Alice := Quoted], Alice, Returned(Some(Verified)), Returned(()), Returned(()))
            == Sell.Transition(map[],
                 Sell.OrderPlaced(
                   OrderPayload(10.0, 1500.0, "bnb-smart-chain", "USDT",
                                Recipient("044", "0123456789", "ADA OBI", "Sell USDT on BSC"), Address),
                   StatsIncrement(10.0, 1)))
  {
    assert Sell.Ready(Quoted) && HasAccount(Some(Verified));
    assert Sell.TokenName(Sell.USDT) == "USDT";
    assert "Sell " + "USDT" + " on " + "BSC" == "Sell USDT on BSC";
    assert map[Alice := Quoted] - {Alice} == map[];
  }

  const Access: Institution := Institution("Access Bank", "044", Bank)

  /** Selecting Access Bank by its code "044" opens a session for it. */
  lemma SelectAccessBank()
    ensures var t := Verify.SelectBank(map[], Alice, "044", Returned([Access]));
            t.outcome == Verify.AskAccountNumber(Access)
            && t.sessions == map[Alice := Verify.Session(Verify.AwaitingAccountNumber, Access, None, None)]
  {
    assert Verify.FindByCode([Access], "044") == Some(Access);
  }

  /** Seven digits are refused. */
  lemma ShortAccountNumberRefused(m: Verify.Sessions)
    requires Verify.Pending(m, Alice, Verify.AwaitingAccountNumber)
    ensures Verify.OnText(m, Alice, "1234567", Returned("ADA OBI")) == Verify.Transition(m, Verify.InvalidAccountNumber)
  {
    Text.TrimOfUnpadded("1234567");
  }

  /** Confirming saves the account with the bank's code and ends the
      session, so a second confirm finds it expired. */
  lemma ConfirmTwice(m: Verify.Sessions)
    requires Verify.Pending(m, Alice, Verify.AwaitingConfirmation) && m[Alice].selectedBank == Access
    ensures var r := Verify.Confirm(m, Alice, Returned(()));
            && r.outcome.Saved? && r.outcome.write.institutionCode == "044"
            && Verify.Confirm(r.sessions, Alice, Returned(())).outcome == Verify.SessionExpired
  {
  }

  /** A list of 17 institutions has 3 pages of 8, 8 and 1; page 5 is empty
      and its keyboard is only the navigation row (Previous to page 4, the
      indicator, no Next) and "Back to Verify". */
  lemma SeventeenBanks(list: seq<Institution>)
    requires |list| == 17
    ensures BankPages.TotalPages(|list|) == 3
    ensures |BankPages.PageSlice(list, 0)| == 8 && |BankPages.PageSlice(list, 1)| == 8
    ensures |BankPages.PageSlice(list, 2)| == 1
    ensures BankPages.PageSlice(list, 5) == []
    ensures BankPages.Keyboard(list, 5) == [BankPages.NavRow(5, 3), [BankPages.BackButton]]
    ensures BankPages.NavRow(5, 3) == [BankPages.PreviousButton(5), BankPages.IndicatorButton(5, 3)]
  {
  }
}
