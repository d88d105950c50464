/** The sell flow (commands/sell.ts): a per-user session that collects a
    refund address and an amount for a chosen token and chain, then places an
    order through the payment API. Every handler is one atomic step from the
    session map, the sender's id, the event's data and the results of the
    collaborator calls it makes, to the new session map and an outcome (which
    reply is sent, which request was made). */
module Sell {
  import opened Base
  import Text
  import Validators
  import opened Payment
  import opened Profiles

  datatype Token = USDT | USDC

  function TokenName(t: Token): string {
    match t
    case USDT => "USDT"
    case USDC => "USDC"
  }

  datatype Step = AwaitingRefundAddress | AwaitingAmount | Confirming

  /** One user's sell conversation. `chain` is the network id taken from the
      callback data and `chainName` its display name. */
  datatype Session = Session(
    step: Step,
    token: Token,
    chain: string,
    chainName: string,
    refundAddress: Option<string>,
    amount: Option<real>,
    rate: Option<real>,
    receivingAmount: Option<real>)

  type Sessions = map<UserId, Session>

  /** What a handler did: the session map afterwards and what the user saw or
      what was requested of a collaborator. */
  datatype Transition = Transition(sessions: Sessions, outcome: Outcome)

  datatype Outcome =
    | PassedOn                                   // `next()`: text left to later handlers
    | Silent                                     // consumed, no reply
    | ChainRefused(token: Token)
    | AskRefundAddress(token: Token, chainName: string)
    | InvalidAddress
    | AddressSaved(address: string)
    | InvalidAmount
    | TradeSummary(amount: real, rate: real, receivingAmount: real)
    | AskNewRefundAddress
    | NoUser
    | SessionExpired
    | AccountRequired
    | OrderPlaced(order: OrderPayload, stats: StatsIncrement)
    | OrderFailed(submitted: Option<OrderPayload>)
    | Cancelled
    | Unhandled                                  // an awaited call threw outside any try block

  // ---------------------------------------------------------------------
  // Chains

  /** The (token, network) pairs the chain buttons offer but the handlers
      refuse. */
  const RefusedPairs: set<(Token, string)> :=
    {(USDT, "arbitrum-one"), (USDC, "bnb-smart-chain"), (USDC, "arbitrum-one")}

  /** The display names of the supported pairs. */
  const DisplayNames: map<(Token, string), string> :=
    map[(USDT, "bnb-smart-chain") := "BSC", (USDT, "polygon") := "Polygon",
        (USDC, "base") := "Base", (USDC, "polygon") := "Polygon"]

  datatype ChainChoice = Accepted(chainName: string) | Refused

  /** The `switch` of a chain-selection handler. A network id it does not
      list falls through with an empty display name and is accepted. */
  function ChainFor(token: Token, chain: string): (r: ChainChoice)
    ensures r.Refused? <==> (token, chain) in RefusedPairs
    ensures (token, chain) in DisplayNames ==> r == Accepted(DisplayNames[(token, chain)])
    ensures (token, chain) !in DisplayNames && (token, chain) !in RefusedPairs ==> r == Accepted("")
  {
    match token
    case USDT =>
      if chain == "bnb-smart-chain" then Accepted("BSC")
      else if chain == "polygon" then Accepted("Polygon")
      else if chain == "arbitrum-one" then Refused
      else Accepted("")
    case USDC =>
      if chain == "base" then Accepted("Base")
      else if chain == "bnb-smart-chain" then Refused
      else if chain == "polygon" then Accepted("Polygon")
      else if chain == "arbitrum-one" then Refused
      else Accepted("")
  }

  // ---------------------------------------------------------------------
  // Session predicates

  /** The conversation of `uid` exists and is at `step`. Each flow keeps its
      own copy of this predicate and of `SameFor` below, because the two
      flows keep separate maps whose sessions, steps and transitions are
      different types. */
  predicate Pending(m: Sessions, uid: UserId, step: Step) {
    Identified(uid) && uid in m && m[uid].step == step
  }

  /** Same token, network and display name. */
  predicate SameTrade(a: Session, b: Session) {
    a.token == b.token && a.chain == b.chain && a.chainName == b.chainName
  }

  /** Same quote: amount, rate and receiving amount. */
  predicate SameQuote(a: Session, b: Session) {
    a.amount == b.amount && a.rate == b.rate && a.receivingAmount == b.receivingAmount
  }

  /** A session just opened for `token` on `chain`: waiting for a refund
      address, with nothing else collected. */
  predicate IsFresh(s: Session, token: Token, chain: string) {
    && s.step == AwaitingRefundAddress
    && s.token == token && s.chain == chain
    && s.chainName == (if (token, chain) in DisplayNames then DisplayNames[(token, chain)] else "")
    && s.refundAddress.None? && s.amount.None? && s.rate.None? && s.receivingAmount.None?
  }

  /** What every session reachable from an empty map satisfies: a pair the
      selection handler accepted with its display name; an address, once
      stored, is well formed and is present from the amount step on; amount,
      rate and receiving amount are stored together, with a positive amount
      and receiving amount = rate x amount; a confirming session has them. */
  predicate Valid(s: Session) {
    && ChainFor(s.token, s.chain) == Accepted(s.chainName)
    && (s.refundAddress.Some? ==> Validators.IsRefundAddress(s.refundAddress.value))
    && (s.step != AwaitingRefundAddress ==> s.refundAddress.Some?)
    && (s.step == Confirming ==> s.amount.Some?)
    && (s.amount.Some? <==> s.rate.Some?)
    && (s.amount.Some? <==> s.receivingAmount.Some?)
    && (s.amount.Some? ==>
          s.amount.value > 0.0 && s.receivingAmount.value == s.rate.value * s.amount.value)
  }

  ghost predicate AllValid(m: Sessions) {
    forall u :: u in m ==> Valid(m[u])
  }

  /** The truthiness test `confirm_sell` applies to the session's fields. */
  predicate Ready(s: Session) {
    NonZero(s.amount) && NonZero(s.rate) && NonEmpty(s.refundAddress)
  }

  // ---------------------------------------------------------------------
  // Handlers

  /** `sell_usdt_<chain>` / `sell_usdc_<chain>`: open a fresh session,
      replacing any the user had, unless the pair is refused. */
  function SelectChain(m: Sessions, uid: UserId, token: Token, chain: string): (r: Transition)
    ensures OthersUnchanged(m, r.sessions, uid)
    ensures r.outcome.ChainRefused? <==> (token, chain) in RefusedPairs
    ensures r.outcome.ChainRefused? ==> r.outcome == ChainRefused(token)
    ensures r.outcome.ChainRefused? || !Identified(uid) ==> r.sessions == m
    ensures !r.outcome.ChainRefused? && Identified(uid) ==>
              uid in r.sessions && IsFresh(r.sessions[uid], token, chain)
    ensures !r.outcome.ChainRefused? ==>
              && ChainFor(token, chain).Accepted?
              && r.outcome == AskRefundAddress(token, ChainFor(token, chain).chainName)
    ensures AllValid(m) ==> AllValid(r.sessions)
  {
    match ChainFor(token, chain)
    case Refused => Transition(m, ChainRefused(token))
    case Accepted(name) =>
      var started := Session(AwaitingRefundAddress, token, chain, name, None, None, None, None);
      StoreFrame(m, uid, started);
      Transition(if Identified(uid) then m[uid := started] else m, AskRefundAddress(token, name))
  }

  /** Storing a valid session keeps every session valid. */
  lemma StoreKeepsValid(m: Sessions, uid: UserId, s: Session)
    requires AllValid(m) && Valid(s)
    ensures AllValid(m[uid := s])
  {
  }

  /** Recording a well-formed address and moving to the amount step keeps a
      session valid. */
  lemma AddressKeepsValid(s: Session, a: string)
    requires Valid(s) && Validators.IsRefundAddress(a)
    ensures Valid(s.(refundAddress := Some(a), step := AwaitingAmount))
  {
  }

  /** Recording a quote for a positive amount and moving to the confirming
      step keeps a session valid. */
  lemma QuoteKeepsValid(s: Session, amount: real, q: real)
    requires Valid(s) && s.step == AwaitingAmount && amount > 0.0
    ensures Valid(s.(amount := Some(amount), rate := Some(q),
                     receivingAmount := Some(q * amount), step := Confirming))
  {
  }

  /** The address step: the trimmed text is stored when it is an address. */
  function OnAddress(m: Sessions, uid: UserId, text: string): (r: Transition)
    requires Pending(m, uid, AwaitingRefundAddress)
    ensures OthersUnchanged(m, r.sessions, uid)
    ensures var a := Text.Trim(text);
            && (r.outcome.AddressSaved? <==> Validators.IsRefundAddress(a))
            && (r.outcome.AddressSaved? ==>
                  && r.outcome.address == a && uid in r.sessions
                  && r.sessions[uid].step == AwaitingAmount
                  && r.sessions[uid].refundAddress == Some(a)
                  && SameTrade(m[uid], r.sessions[uid]) && SameQuote(m[uid], r.sessions[uid]))
            && (!r.outcome.AddressSaved? ==> r == Transition(m, InvalidAddress))
    ensures AllValid(m) ==> AllValid(r.sessions)
  {
    var s := m[uid];
    var a := Text.Trim(text);
    if !Validators.AddressAccepted(a) then Transition(m, InvalidAddress)
    else
      var s' := s.(refundAddress := Some(a), step := AwaitingAmount);
      assert AllValid(m) ==> AllValid(m[uid := s']) by {
        if AllValid(m) {
          AddressKeepsValid(s, a);
          StoreKeepsValid(m, uid, s');
        }
      }
      StoreFrame(m, uid, s');
      Transition(m[uid := s'], AddressSaved(a))
  }

  /** The amount step, given `parseFloat` of the trimmed text (`None` for
      NaN): a positive amount is quoted at the fetched rate. */
  function OnAmount(m: Sessions, uid: UserId, v: Option<real>, rate: Call<real>): (r: Transition)
    requires Pending(m, uid, AwaitingAmount)
    ensures OthersUnchanged(m, r.sessions, uid)
    ensures v.None? || v.value <= 0.0 ==> r == Transition(m, InvalidAmount)
    ensures v.Some? && v.value > 0.0 && rate.Threw? ==> r == Transition(m, Unhandled)
    ensures v.Some? && v.value > 0.0 && rate.Returned? ==>
              && r.outcome == TradeSummary(v.value, rate.value, rate.value * v.value)
              && uid in r.sessions
              && r.sessions[uid].step == Confirming
              && r.sessions[uid].amount == Some(v.value)
              && r.sessions[uid].rate == Some(rate.value)
              && r.sessions[uid].receivingAmount == Some(rate.value * v.value)
              && r.sessions[uid].refundAddress == m[uid].refundAddress
              && SameTrade(m[uid], r.sessions[uid])
    ensures AllValid(m) ==> AllValid(r.sessions)
  {
    var s := m[uid];
    if v.None? || v.value <= 0.0 then Transition(m, InvalidAmount)
    else
      match rate
      case Threw => Transition(m, Unhandled)
      case Returned(q) =>
        var receiving := q * v.value;
        var s' := s.(amount := Some(v.value), rate := Some(q),
                     receivingAmount := Some(receiving), step := Confirming);
        assert AllValid(m) ==> AllValid(m[uid := s']) by {
          if AllValid(m) {
            QuoteKeepsValid(s, v.value, q);
            StoreKeepsValid(m, uid, s');
          }
        }
        StoreFrame(m, uid, s');
        assert receiving == rate.value * v.value;
        Transition(m[uid := s'], TradeSummary(v.value, q, receiving))
  }

  /** Free text. Without a session it is passed on; at the address step the
      trimmed text must be an address; at the amount step the parsed trimmed
      text must be a positive number, and the rate is then fetched (outside
      any try block); at the confirming step it is swallowed. `parseFloat`
      stands for JavaScript's `parseFloat`, `None` for NaN. */
  function OnText(m: Sessions, uid: UserId, text: string,
                  parseFloat: string -> Option<real>, rate: Call<real>): (r: Transition)
    ensures OthersUnchanged(m, r.sessions, uid)
    ensures r.outcome.PassedOn? <==> !Identified(uid) || uid !in m
    ensures r.sessions != m ==> r.outcome.AddressSaved? || r.outcome.TradeSummary?
    ensures Pending(m, uid, AwaitingRefundAddress) ==> r == OnAddress(m, uid, text)
    ensures Pending(m, uid, AwaitingAmount) ==> r == OnAmount(m, uid, parseFloat(Text.Trim(text)), rate)
    ensures Pending(m, uid, Confirming) ==> r == Transition(m, Silent)
    ensures AllValid(m) ==> AllValid(r.sessions)
  {
    if !Identified(uid) || uid !in m then Transition(m, PassedOn)
    else
      match m[uid].step
      case AwaitingRefundAddress => OnAddress(m, uid, text)
      case AwaitingAmount => OnAmount(m, uid, parseFloat(Text.Trim(text)), rate)
      case Confirming => Transition(m, Silent)
  }

  /** `change_refund_<token>_<chain>`: go back to the address step, keeping
      everything collected so far. The token and network in the callback data
      are not used. */
  function ChangeRefund(m: Sessions, uid: UserId, token: Token, chain: string): (r: Transition)
    ensures r.outcome == AskNewRefundAddress
    ensures OthersUnchanged(m, r.sessions, uid)
    ensures r.sessions.Keys == m.Keys
    ensures Identified(uid) && uid in m ==>
              && r.sessions[uid].step == AwaitingRefundAddress
              && r.sessions[uid].refundAddress == m[uid].refundAddress
              && SameTrade(m[uid], r.sessions[uid]) && SameQuote(m[uid], r.sessions[uid])
    ensures !Identified(uid) || uid !in m ==> r.sessions == m
    ensures AllValid(m) ==> AllValid(r.sessions)
  {
    if Identified(uid) && uid in m then
      StoreFrame(m, uid, m[uid].(step := AwaitingRefundAddress));
      Transition(m[uid := m[uid].(step := AwaitingRefundAddress)], AskNewRefundAddress)
    else
      Transition(m, AskNewRefundAddress)
  }

  /** The order `confirm_sell` submits for session `s` and profile `p`. */
  function OrderFor(s: Session, p: Profile): OrderPayload
    requires Ready(s) && p.accountNumber.Some?
  {
    OrderPayload(
      s.amount.value,
      s.rate.value,
      s.chain,
      TokenName(s.token),
      Recipient(
        OrEmpty(p.institutionCode),
        p.accountNumber.value,
        OrEmpty(p.accountName),
        "Sell " + TokenName(s.token) + " on " + s.chainName),
      s.refundAddress.value)
  }

  /** The order carries the session's amount, rate, network, token and refund
      address, the profile's payout account, and the memo "Sell <token> on
      <network name>". */
  predicate OrderMatches(o: OrderPayload, s: Session, p: Profile) {
    && s.amount == Some(o.amount) && s.rate == Some(o.rate)
    && o.network == s.chain && o.token == TokenName(s.token)
    && s.refundAddress == Some(o.returnAddress)
    && p.accountNumber == Some(o.recipient.accountIdentifier)
    && o.recipient.institution == OrEmpty(p.institutionCode)
    && o.recipient.accountName == OrEmpty(p.accountName)
    && o.recipient.memo == "Sell " + TokenName(s.token) + " on " + s.chainName
  }

  /** `confirm_sell`. The profile is read first (outside any try block); then
      the session's fields, not its step, are checked, then the profile's
      account number; then the order is created and the trade counters
      incremented, and only when both succeed is the session deleted. */
  function ConfirmSell(m: Sessions, uid: UserId, profile: Call<Option<Profile>>,
                       createOrder: Call<()>, updateStats: Call<()>): (r: Transition)
    ensures OthersUnchanged(m, r.sessions, uid)
    ensures r.outcome.NoUser? <==> !Identified(uid)
    ensures r.outcome.Unhandled? <==> Identified(uid) && profile.Threw?
    ensures r.outcome.SessionExpired? <==>
              Identified(uid) && profile.Returned? && !(uid in m && Ready(m[uid]))
    ensures r.outcome.AccountRequired? <==>
              && Identified(uid) && profile.Returned? && uid in m && Ready(m[uid])
              && !HasAccount(profile.value)
    ensures r.outcome.OrderPlaced? || r.outcome.OrderFailed? <==>
              && Identified(uid) && profile.Returned? && uid in m && Ready(m[uid])
              && HasAccount(profile.value)
    ensures r.outcome.OrderPlaced? <==>
              && Identified(uid) && profile.Returned? && uid in m && Ready(m[uid])
              && HasAccount(profile.value) && createOrder.Returned? && updateStats.Returned?
    ensures r.outcome.OrderPlaced? ==>
              && r.sessions == m - {uid}
              && OrderMatches(r.outcome.order, m[uid], profile.value.value)
              && r.outcome.stats == StatsIncrement(m[uid].amount.value, 1)
    ensures r.outcome.OrderFailed? ==>
              && (r.outcome.submitted.Some? <==> createOrder.Returned?)
              && (r.outcome.submitted.Some? ==>
                    OrderMatches(r.outcome.submitted.value, m[uid], profile.value.value))
    ensures !r.outcome.OrderPlaced? ==> r.sessions == m
    ensures AllValid(m) ==> AllValid(r.sessions)
  {
    if !Identified(uid) then Transition(m, NoUser)
    else
      match profile
      case Threw => Transition(m, Unhandled)
      case Returned(user) =>
        if uid !in m || !Ready(m[uid]) then Transition(m, SessionExpired)
        else if !HasAccount(user) then Transition(m, AccountRequired)
        else
          var s := m[uid];
          var order := OrderFor(s, user.value);
          match createOrder
          case Threw => Transition(m, OrderFailed(None))
          case Returned(_) =>
            match updateStats
            case Threw => Transition(m, OrderFailed(Some(order)))
            case Returned(_) =>
              RemoveFrame(m, uid);
              Transition(m - {uid}, OrderPlaced(order, StatsIncrement(s.amount.value, 1)))
  }

  /** `cancel_sell`: drop the caller's session, whether or not there is one. */
  function Cancel(m: Sessions, uid: UserId): (r: Transition)
    ensures r.outcome == Cancelled
    ensures OthersUnchanged(m, r.sessions, uid)
    ensures Identified(uid) ==> uid !in r.sessions
    ensures !Identified(uid) || uid !in m ==> r.sessions == m
    ensures AllValid(m) ==> AllValid(r.sessions)
  {
    RemoveFrame(m, uid);
    Transition(if Identified(uid) then m - {uid} else m, Cancelled)
  }

  // ---------------------------------------------------------------------
  // Properties across steps

  /** A valid confirming session always passes the field check except when
      the fetched rate was 0, which `!session.rate` reads as missing. */
  lemma ConfirmingIsReady(s: Session)
    requires Valid(s) && s.step == Confirming
    ensures Ready(s) <==> s.rate.value != 0.0
  {
  }

  /** The confirm handler looks at the fields, not the step: after
      `change_refund` has sent a confirming session back to the address
      step, confirming still places the order with the old address. */
  lemma ConfirmAfterChangeRefund(m: Sessions, uid: UserId, token: Token, chain: string,
                                 profile: Call<Option<Profile>>,
                                 createOrder: Call<()>, updateStats: Call<()>)
    requires Pending(m, uid, Confirming) && Valid(m[uid]) && m[uid].rate.value != 0.0
    requires profile.Returned? && HasAccount(profile.value)
    requires createOrder.Returned? && updateStats.Returned?
    ensures var back := ChangeRefund(m, uid, token, chain).sessions;
            && back[uid].step == AwaitingRefundAddress
            && ConfirmSell(back, uid, profile, createOrder, updateStats).outcome.OrderPlaced?
  {
    var back := ChangeRefund(m, uid, token, chain).sessions;
    ConfirmingIsReady(m[uid]);
    assert Ready(back[uid]);
  }

  /** A whole conversation: after choosing an accepted pair, a text that
      trims to an address and a text that parses to a positive amount, with
      a non-zero rate, confirming with a profile that has an account places
      the quoted order (the amount, rate, network, token and the trimmed
      address) and ends the session. */
  lemma ConversationPlacesOrder(m: Sessions, uid: UserId, token: Token, chain: string,
                                addressText: string, amountText: string,
                                parseFloat: string -> Option<real>, q: real, p: Profile)
    requires Identified(uid) && (token, chain) !in RefusedPairs
    requires Validators.IsRefundAddress(Text.Trim(addressText))
    requires parseFloat(Text.Trim(amountText)).Some? && parseFloat(Text.Trim(amountText)).value > 0.0
    requires q != 0.0 && HasAccount(Some(p))
    ensures var m1 := SelectChain(m, uid, token, chain).sessions;
            var m2 := OnText(m1, uid, addressText, parseFloat, Returned(q)).sessions;
            var m3 := OnText(m2, uid, amountText, parseFloat, Returned(q)).sessions;
            var r := ConfirmSell(m3, uid, Returned(Some(p)), Returned(()), Returned(()));
            && r.outcome.OrderPlaced?
            && r.outcome.order.amount == parseFloat(Text.Trim(amountText)).value
            && r.outcome.order.rate == q
            && r.outcome.order.network == chain
            && r.outcome.order.token == TokenName(token)
            && r.outcome.order.returnAddress == Text.Trim(addressText)
            && r.outcome.stats == StatsIncrement(parseFloat(Text.Trim(amountText)).value, 1)
            && uid !in r.sessions
  {
    var m1 := SelectChain(m, uid, token, chain).sessions;
    assert Pending(m1, uid, AwaitingRefundAddress);
    var t2 := OnText(m1, uid, addressText, parseFloat, Returned(q));
    assert t2 == OnAddress(m1, uid, addressText);
    var m2 := t2.sessions;
    assert Pending(m2, uid, AwaitingAmount) && m2[uid].refundAddress == Some(Text.Trim(addressText));
    var t3 := OnText(m2, uid, amountText, parseFloat, Returned(q));
    assert t3 == OnAmount(m2, uid, parseFloat(Text.Trim(amountText)), Returned(q));
    var m3 := t3.sessions;
    assert SameTrade(m1[uid], m3[uid]);
    assert Ready(m3[uid]);
  }

  /** Two transitions that agree on what `uid` sees and keeps. */
  predicate SameFor(t1: Transition, t2: Transition, uid: UserId) {
    t1.outcome == t2.outcome && Lookup(t1.sessions, uid) == Lookup(t2.sessions, uid)
  }

  /** Each button handler decides from the sender's own entry alone. */
  lemma SelectChainIsLocal(m1: Sessions, m2: Sessions, uid: UserId, token: Token, chain: string)
    requires Lookup(m1, uid) == Lookup(m2, uid)
    ensures SameFor(SelectChain(m1, uid, token, chain), SelectChain(m2, uid, token, chain), uid)
  {
  }

  lemma ChangeRefundIsLocal(m1: Sessions, m2: Sessions, uid: UserId, token: Token, chain: string)
    requires Lookup(m1, uid) == Lookup(m2, uid)
    ensures SameFor(ChangeRefund(m1, uid, token, chain), ChangeRefund(m2, uid, token, chain), uid)
  {
    assert uid in m1 <==> uid in m2;
  }

  lemma ConfirmSellIsLocal(m1: Sessions, m2: Sessions, uid: UserId, profile: Call<Option<Profile>>,
                           createOrder: Call<()>, updateStats: Call<()>)
    requires Lookup(m1, uid) == Lookup(m2, uid)
    ensures SameFor(ConfirmSell(m1, uid, profile, createOrder, updateStats),
                    ConfirmSell(m2, uid, profile, createOrder, updateStats), uid)
  {
    assert uid in m1 <==> uid in m2;
  }

  lemma CancelIsLocal(m1: Sessions, m2: Sessions, uid: UserId)
    requires Lookup(m1, uid) == Lookup(m2, uid)
    ensures SameFor(Cancel(m1, uid), Cancel(m2, uid), uid)
  {
  }

  /** The text handler decides from the sender's own entry alone. */
  lemma OnTextIsLocal(m1: Sessions, m2: Sessions, uid: UserId, text: string,
                               parseFloat: string -> Option<real>, rate: Call<real>)
    requires Lookup(m1, uid) == Lookup(m2, uid)
    ensures SameFor(OnText(m1, uid, text, parseFloat, rate), OnText(m2, uid, text, parseFloat, rate), uid)
  {
    assert uid in m1 <==> uid in m2;
    if Identified(uid) && uid in m1 {
      var s := m1[uid];
      assert s == m2[uid];
      match s.step
      case AwaitingRefundAddress =>
        var r1, r2 := OnAddress(m1, uid, text), OnAddress(m2, uid, text);
        assert r1.outcome == r2.outcome;
        if r1.outcome.AddressSaved? {
          assert r1.sessions[uid] == r2.sessions[uid];
        }
      case AwaitingAmount =>
        var r1, r2 := OnAmount(m1, uid, parseFloat(Text.Trim(text)), rate), OnAmount(m2, uid, parseFloat(Text.Trim(text)), rate);
        assert r1.outcome == r2.outcome;
        if r1.outcome.TradeSummary? {
          assert r1.sessions[uid] == r2.sessions[uid];
        }
      case Confirming =>
    }
  }

  /** Cancelling twice is cancelling once. */
  lemma CancelIdempotent(m: Sessions, uid: UserId)
    ensures Cancel(Cancel(m, uid).sessions, uid) == Cancel(m, uid)
  {
  }
}
