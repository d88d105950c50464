/** Dispatch of chat events to the two flows. Buttons go straight to their
    handler whatever sessions exist. Free text goes to the sell flow's text
    handler first, because the command modules are registered in file-name
    order and `sell.ts` precedes `verify.ts`; the sell handler passes the text
    on only when the sender has no sell session, so a pending sell session
    shadows a pending verify session. */
module Router {
  import opened Base
  import opened Payment
  import opened Profiles
  import Sell
  import Verify
  import BankPages

  /** The in-memory state of the bot: one session map per flow. */
  datatype Bot = Bot(sell: Sell.Sessions, verify: Verify.Sessions)

  const Empty: Bot := Bot(map[], map[])

  /** The events the two flows handle. */
  datatype Event =
    | SellChain(token: Sell.Token, chain: string)      // sell_usdt_<chain>, sell_usdc_<chain>
    | Text(text: string)
    | ChangeRefund(token: Sell.Token, chain: string)   // change_refund_<token>_<chain>
    | ConfirmSell
    | CancelSell
    | ShowBanks(page: nat)                             // ver_acc (page 0), banks_page_<n>
    | SelectBank(code: string)                         // select_bank_<code>
    | ConfirmAccount
    | CancelVerification

  /** What the collaborators answer during one event: the `parseFloat` of
      the runtime, the rate lookup, the institution list, the account-name
      resolution, the profile read, the order creation, the trade-counter
      increment and the payout-account upsert. */
  datatype Env = Env(
    parseFloat: string -> Option<real>,
    rate: Call<real>,
    institutions: Call<seq<Institution>>,
    accountName: Call<string>,
    profile: Call<Option<Profile>>,
    createOrder: Call<()>,
    updateStats: Call<()>,
    upsert: Call<()>)

  datatype Handled =
    | BySell(sell: Sell.Outcome)
    | ByVerify(verify: Verify.Outcome)
    | Listing(listing: BankPages.Listing)

  datatype Result = Result(bot: Bot, handled: Handled)

  predicate IsSellEvent(e: Event) {
    e.SellChain? || e.ChangeRefund? || e.ConfirmSell? || e.CancelSell?
  }

  predicate IsVerifyEvent(e: Event) {
    e.SelectBank? || e.ConfirmAccount? || e.CancelVerification?
  }

  ghost predicate Valid(b: Bot) {
    Sell.AllValid(b.sell) && Verify.AllValid(b.verify)
  }

  /** Free text: the sell flow when the sender has a sell session, the verify
      flow otherwise. */
  function OnText(b: Bot, uid: UserId, text: string, env: Env): (r: Result)
    ensures r.handled.BySell? || r.handled.ByVerify?
    ensures r.handled.BySell? <==> Identified(uid) && uid in b.sell
    ensures r.handled.BySell? ==>
              var t := Sell.OnText(b.sell, uid, text, env.parseFloat, env.rate);
              r.bot.sell == t.sessions && r.bot.verify == b.verify && r.handled.sell == t.outcome
    ensures r.handled.ByVerify? ==>
              var v := Verify.OnText(b.verify, uid, text, env.accountName);
              r.bot.sell == b.sell && r.bot.verify == v.sessions && r.handled.verify == v.outcome
  {
    var s := Sell.OnText(b.sell, uid, text, env.parseFloat, env.rate);
    if s.outcome.PassedOn? then
      var v := Verify.OnText(b.verify, uid, text, env.accountName);
      Result(Bot(b.sell, v.sessions), ByVerify(v.outcome))
    else
      Result(Bot(s.sessions, b.verify), BySell(s.outcome))
  }

  /** A button of the sell flow. */
  function SellButton(b: Bot, uid: UserId, e: Event, env: Env): (r: Result)
    requires IsSellEvent(e)
    ensures r.handled.BySell?
    ensures OthersUnchanged(b.sell, r.bot.sell, uid)
    ensures r.bot.verify == b.verify
    ensures !Identified(uid) ==> r.bot == b
    ensures Valid(b) ==> Valid(r.bot)
  {
    var t :=
      match e
      case SellChain(token, chain) => Sell.SelectChain(b.sell, uid, token, chain)
      case ChangeRefund(token, chain) => Sell.ChangeRefund(b.sell, uid, token, chain)
      case ConfirmSell => Sell.ConfirmSell(b.sell, uid, env.profile, env.createOrder, env.updateStats)
      case CancelSell => Sell.Cancel(b.sell, uid);
    Result(b.(sell := t.sessions), BySell(t.outcome))
  }

  /** A button of the verify flow that reads or writes its sessions. */
  function VerifyButton(b: Bot, uid: UserId, e: Event, env: Env): (r: Result)
    requires IsVerifyEvent(e)
    ensures r.handled.ByVerify?
    ensures OthersUnchanged(b.verify, r.bot.verify, uid)
    ensures r.bot.sell == b.sell
    ensures !Identified(uid) ==> r.bot == b
    ensures Valid(b) ==> Valid(r.bot)
  {
    var t :=
      match e
      case SelectBank(code) => Verify.SelectBank(b.verify, uid, code, env.institutions)
      case ConfirmAccount => Verify.Confirm(b.verify, uid, env.upsert)
      case CancelVerification => Verify.Cancel(b.verify, uid);
    Result(b.(verify := t.sessions), ByVerify(t.outcome))
  }

  /** One event from user `uid`, handled atomically. */
  function Dispatch(b: Bot, uid: UserId, e: Event, env: Env): (r: Result)
    ensures OthersUnchanged(b.sell, r.bot.sell, uid)
    ensures OthersUnchanged(b.verify, r.bot.verify, uid)
    ensures IsSellEvent(e) ==> r.bot.verify == b.verify
    ensures IsVerifyEvent(e) ==> r.bot.sell == b.sell
    ensures e.ShowBanks? ==> r.bot == b
    ensures !Identified(uid) ==> r.bot == b
    ensures e.Text? && Identified(uid) && uid in b.sell ==> r.bot.verify == b.verify
    ensures Valid(b) ==> Valid(r.bot)
    ensures e.SellChain? ==>
              var t := Sell.SelectChain(b.sell, uid, e.token, e.chain);
              r == Result(b.(sell := t.sessions), BySell(t.outcome))
    ensures e.ChangeRefund? ==>
              var t := Sell.ChangeRefund(b.sell, uid, e.token, e.chain);
              r == Result(b.(sell := t.sessions), BySell(t.outcome))
    ensures e.ConfirmSell? ==>
              var t := Sell.ConfirmSell(b.sell, uid, env.profile, env.createOrder, env.updateStats);
              r == Result(b.(sell := t.sessions), BySell(t.outcome))
    ensures e.CancelSell? ==>
              var t := Sell.Cancel(b.sell, uid);
              r == Result(b.(sell := t.sessions), BySell(t.outcome))
    ensures e.Text? ==> r == OnText(b, uid, e.text, env)
    ensures e.ShowBanks? ==>
              r == Result(b, Listing(BankPages.ShowBankSelection(env.institutions, e.page)))
    ensures e.SelectBank? ==>
              var t := Verify.SelectBank(b.verify, uid, e.code, env.institutions);
              r == Result(b.(verify := t.sessions), ByVerify(t.outcome))
    ensures e.ConfirmAccount? ==>
              var t := Verify.Confirm(b.verify, uid, env.upsert);
              r == Result(b.(verify := t.sessions), ByVerify(t.outcome))
    ensures e.CancelVerification? ==>
              var t := Verify.Cancel(b.verify, uid);
              r == Result(b.(verify := t.sessions), ByVerify(t.outcome))
  {
    if IsSellEvent(e) then SellButton(b, uid, e, env)
    else if IsVerifyEvent(e) then VerifyButton(b, uid, e, env)
    else
      match e
      case Text(text) => OnText(b, uid, text, env)
      case ShowBanks(page) => Result(b, Listing(BankPages.ShowBankSelection(env.institutions, page)))
  }

  // ---------------------------------------------------------------------
  // Runs of events

  datatype Input = Input(uid: UserId, event: Event, env: Env)

  /** The bot after handling `inputs` one at a time, first to last. */
  function Run(b: Bot, inputs: seq<Input>): Bot
    decreases |inputs|
  {
    if |inputs| == 0 then b
    else Run(Dispatch(b, inputs[0].uid, inputs[0].event, inputs[0].env).bot, inputs[1..])
  }

  /** The inputs sent by `u`, in order. */
  function From(inputs: seq<Input>, u: UserId): seq<Input>
    decreases |inputs|
  {
    if |inputs| == 0 then []
    else (if inputs[0].uid == u then [inputs[0]] else []) + From(inputs[1..], u)
  }

  /** Everything the bot holds for user `u`. */
  function Entry(b: Bot, u: UserId): (Option<Sell.Session>, Option<Verify.Session>) {
    (Lookup(b.sell, u), Lookup(b.verify, u))
  }

  /** An event from another user leaves `u`'s entries as they were. */
  lemma OtherSenders(b: Bot, uid: UserId, e: Event, env: Env, u: UserId)
    requires u != uid
    ensures Entry(Dispatch(b, uid, e, env).bot, u) == Entry(b, u)
  {
    var r := Dispatch(b, uid, e, env);
    OthersSeeNoChange(b.sell, r.bot.sell, uid, u);
    OthersSeeNoChange(b.verify, r.bot.verify, uid, u);
  }

  /** The sell buttons decide from the sender's own entries alone. */
  lemma SellButtonIsLocal(b1: Bot, b2: Bot, uid: UserId, e: Event, env: Env)
    requires IsSellEvent(e) && Entry(b1, uid) == Entry(b2, uid)
    ensures Entry(SellButton(b1, uid, e, env).bot, uid) == Entry(SellButton(b2, uid, e, env).bot, uid)
    ensures SellButton(b1, uid, e, env).handled == SellButton(b2, uid, e, env).handled
  {
    match e
    case SellChain(token, chain) =>
      Sell.SelectChainIsLocal(b1.sell, b2.sell, uid, token, chain);
    case ChangeRefund(token, chain) =>
      Sell.ChangeRefundIsLocal(b1.sell, b2.sell, uid, token, chain);
    case ConfirmSell =>
      Sell.ConfirmSellIsLocal(b1.sell, b2.sell, uid, env.profile, env.createOrder, env.updateStats);
    case CancelSell =>
      Sell.CancelIsLocal(b1.sell, b2.sell, uid);
  }

  /** The verify buttons decide from the sender's own entries alone. */
  lemma VerifyButtonIsLocal(b1: Bot, b2: Bot, uid: UserId, e: Event, env: Env)
    requires IsVerifyEvent(e) && Entry(b1, uid) == Entry(b2, uid)
    ensures Entry(VerifyButton(b1, uid, e, env).bot, uid) == Entry(VerifyButton(b2, uid, e, env).bot, uid)
    ensures VerifyButton(b1, uid, e, env).handled == VerifyButton(b2, uid, e, env).handled
  {
    match e
    case SelectBank(code) =>
      Verify.SelectBankIsLocal(b1.verify, b2.verify, uid, code, env.institutions);
    case ConfirmAccount =>
      Verify.ConfirmIsLocal(b1.verify, b2.verify, uid, env.upsert);
    case CancelVerification =>
      Verify.CancelIsLocal(b1.verify, b2.verify, uid);
  }

  /** Routing free text decides from the sender's own entries alone. */
  lemma OnTextIsLocal(b1: Bot, b2: Bot, uid: UserId, text: string, env: Env)
    requires Entry(b1, uid) == Entry(b2, uid)
    ensures Entry(OnText(b1, uid, text, env).bot, uid) == Entry(OnText(b2, uid, text, env).bot, uid)
    ensures OnText(b1, uid, text, env).handled == OnText(b2, uid, text, env).handled
  {
    Sell.OnTextIsLocal(b1.sell, b2.sell, uid, text, env.parseFloat, env.rate);
    Verify.OnTextIsLocal(b1.verify, b2.verify, uid, text, env.accountName);
  }

  /** What an event does to its sender, and what the sender is shown, depend
      on the sender's own entries only. */
  lemma OwnEntriesDecide(b1: Bot, b2: Bot, uid: UserId, e: Event, env: Env)
    requires Entry(b1, uid) == Entry(b2, uid)
    ensures Entry(Dispatch(b1, uid, e, env).bot, uid) == Entry(Dispatch(b2, uid, e, env).bot, uid)
    ensures Dispatch(b1, uid, e, env).handled == Dispatch(b2, uid, e, env).handled
  {
    if IsSellEvent(e) {
      SellButtonIsLocal(b1, b2, uid, e, env);
    } else if IsVerifyEvent(e) {
      VerifyButtonIsLocal(b1, b2, uid, e, env);
    } else if e.Text? {
      OnTextIsLocal(b1, b2, uid, e.text, env);
    }
  }

  /** Users are isolated: after any run, `u`'s entries are what `u`'s own
      inputs alone would have produced from the same starting entries. */
  lemma {:induction false} Isolation(b1: Bot, b2: Bot, inputs: seq<Input>, u: UserId)
    requires Entry(b1, u) == Entry(b2, u)
    ensures Entry(Run(b1, inputs), u) == Entry(Run(b2, From(inputs, u)), u)
    decreases |inputs|
  {
    if |inputs| > 0 {
      var i := inputs[0];
      var next1 := Dispatch(b1, i.uid, i.event, i.env).bot;
      if i.uid == u {
        OwnEntriesDecide(b1, b2, u, i.event, i.env);
        var next2 := Dispatch(b2, i.uid, i.event, i.env).bot;
        Isolation(next1, next2, inputs[1..], u);
        assert From(inputs, u) == [i] + From(inputs[1..], u);
        assert ([i] + From(inputs[1..], u))[1..] == From(inputs[1..], u);
      } else {
        OtherSenders(b1, i.uid, i.event, i.env, u);
        Isolation(next1, b2, inputs[1..], u);
        assert From(inputs, u) == From(inputs[1..], u);
      }
    }
  }

  /** Every state reachable from the empty bot satisfies both flows'
      session invariants. */
  lemma {:induction false} ReachableIsValid(b: Bot, inputs: seq<Input>)
    requires Valid(b)
    ensures Valid(Run(b, inputs))
    decreases |inputs|
  {
    if |inputs| > 0 {
      var i := inputs[0];
      ReachableIsValid(Dispatch(b, i.uid, i.event, i.env).bot, inputs[1..]);
    }
  }
}
