/** The verify flow (commands/verify.ts): a per-user session that records the
    institution the user picked, collects a ten-digit account number, has the
    payment API resolve the holder's name, and on confirmation writes the
    payout account to the user's profile. Handlers are atomic steps, as in
    the sell flow. */
module Verify {
  import opened Base
  import Text
  import Validators
  import opened Payment
  import opened Profiles

  datatype Step = AwaitingAccountNumber | AwaitingConfirmation

  datatype Session = Session(
    step: Step,
    selectedBank: Institution,
    accountNumber: Option<string>,
    accountName: Option<string>)

  type Sessions = map<UserId, Session>

  datatype Transition = Transition(sessions: Sessions, outcome: Outcome)

  datatype Outcome =
    | Silent                                     // ignored, no reply
    | SelectionError                             // the institution list could not be fetched
    | BankNotFound
    | AskAccountNumber(bank: Institution)
    | InvalidAccountNumber
    | LookupFailed(request: VerifyAccountPayload)
    | AskConfirmation(request: VerifyAccountPayload, accountName: string)
    | SessionExpired
    | Saved(write: AccountWrite)
    | SaveFailed(write: AccountWrite)
    | Cancelled

  /** The conversation of `uid` exists and is at `step`. This is the verify
      flow's counterpart of `Sell.Pending`, over this flow's own session and
      step types. */
  predicate Pending(m: Sessions, uid: UserId, step: Step) {
    Identified(uid) && uid in m && m[uid].step == step
  }

  /** What every session reachable from an empty map satisfies: nothing is
      collected while the account number is awaited, and a session awaiting
      confirmation holds a ten-digit account number and a resolved name. */
  predicate Valid(s: Session) {
    match s.step
    case AwaitingAccountNumber => s.accountNumber.None? && s.accountName.None?
    case AwaitingConfirmation =>
      && s.accountNumber.Some? && Validators.IsAccountNumber(s.accountNumber.value)
      && s.accountName.Some?
  }

  ghost predicate AllValid(m: Sessions) {
    forall u :: u in m ==> Valid(m[u])
  }

  /** Index of the first institution with that code, `|list|` if none. */
  function FirstWithCode(list: seq<Institution>, code: string): (i: nat)
    ensures i <= |list|
    ensures forall k :: 0 <= k < i ==> list[k].code != code
    ensures i < |list| ==> list[i].code == code
    decreases |list|
  {
    if |list| == 0 || list[0].code == code then 0
    else 1 + FirstWithCode(list[1..], code)
  }

  /** `institutions.find(bank => bank.code === code)`: the first institution
      with that code. */
  function FindByCode(list: seq<Institution>, code: string): (r: Option<Institution>)
    ensures r.None? <==> forall k :: 0 <= k < |list| ==> list[k].code != code
    ensures r.Some? ==>
              exists i :: && 0 <= i < |list| && list[i] == r.value && list[i].code == code
                          && forall k :: 0 <= k < i ==> list[k].code != code
  {
    var i := FirstWithCode(list, code);
    if i < |list| then Some(list[i]) else None
  }

  /** `select_bank_<code>`: fetch the institutions; if one has the code, open
      a fresh session for it, replacing any the user had. */
  function SelectBank(m: Sessions, uid: UserId, code: string,
                      institutions: Call<seq<Institution>>): (r: Transition)
    ensures OthersUnchanged(m, r.sessions, uid)
    ensures r.outcome.SelectionError? <==> institutions.Threw?
    ensures r.outcome.BankNotFound? <==>
              institutions.Returned? && FindByCode(institutions.value, code).None?
    ensures !r.outcome.AskAccountNumber? || !Identified(uid) ==> r.sessions == m
    ensures r.outcome.AskAccountNumber? ==>
              && institutions.Returned?
              && r.outcome.bank.code == code && r.outcome.bank in institutions.value
              && (Identified(uid) ==>
                    && uid in r.sessions
                    && r.sessions[uid] == Session(AwaitingAccountNumber, r.outcome.bank, None, None))
    ensures institutions.Returned? && FindByCode(institutions.value, code).Some? ==>
              var bank := FindByCode(institutions.value, code).value;
              && r.outcome == AskAccountNumber(bank)
              && r.sessions == (if Identified(uid)
                                then m[uid := Session(AwaitingAccountNumber, bank, None, None)]
                                else m)
    ensures AllValid(m) ==> AllValid(r.sessions)
  {
    match institutions
    case Threw => Transition(m, SelectionError)
    case Returned(list) =>
      match FindByCode(list, code)
      case None => Transition(m, BankNotFound)
      case Some(bank) =>
        var started := Session(AwaitingAccountNumber, bank, None, None);
        StoreFrame(m, uid, started);
        Transition(if Identified(uid) then m[uid := started] else m, AskAccountNumber(bank))
  }

  /** Free text that reached this flow. Only a session awaiting the account
      number takes it: the trimmed text must be ten ASCII digits, and is then
      sent with the institution code for name resolution. */
  function OnText(m: Sessions, uid: UserId, text: string, lookup: Call<string>): (r: Transition)
    ensures OthersUnchanged(m, r.sessions, uid)
    ensures r.outcome.Silent? <==> !Pending(m, uid, AwaitingAccountNumber)
    ensures r.outcome.Silent? ==> r.sessions == m
    ensures Pending(m, uid, AwaitingAccountNumber) ==>
              var n := Text.Trim(text);
              var request := VerifyAccountPayload(m[uid].selectedBank.code, n);
              && (r.outcome.InvalidAccountNumber? <==> !Validators.IsAccountNumber(n))
              && (r.outcome.LookupFailed? <==> Validators.IsAccountNumber(n) && lookup.Threw?)
              && (r.outcome.AskConfirmation? <==> Validators.IsAccountNumber(n) && lookup.Returned?)
              && (r.outcome.LookupFailed? ==> r.outcome.request == request)
              && (!r.outcome.AskConfirmation? ==> r.sessions == m)
              && (r.outcome.AskConfirmation? ==>
                    && r.outcome.request == request && r.outcome.accountName == lookup.value
                    && uid in r.sessions
                    && r.sessions[uid].step == AwaitingConfirmation
                    && r.sessions[uid].accountNumber == Some(n)
                    && r.sessions[uid].accountName == Some(lookup.value)
                    && r.sessions[uid].selectedBank == m[uid].selectedBank)
    ensures AllValid(m) ==> AllValid(r.sessions)
  {
    if !Pending(m, uid, AwaitingAccountNumber) then Transition(m, Silent)
    else
      var s := m[uid];
      var n := Text.Trim(text);
      if !Validators.AccountNumberAccepted(n) then Transition(m, InvalidAccountNumber)
      else
        var request := VerifyAccountPayload(s.selectedBank.code, n);
        match lookup
        case Threw => Transition(m, LookupFailed(request))
        case Returned(name) =>
          var s' := s.(accountNumber := Some(n), accountName := Some(name), step := AwaitingConfirmation);
          StoreFrame(m, uid, s');
          Transition(m[uid := s'], AskConfirmation(request, name))
  }

  /** The profile fields `confirm_account` sets from session `s`. */
  function WriteFor(s: Session): AccountWrite {
    AccountWrite(s.selectedBank.name, s.accountName, s.accountNumber, s.selectedBank.code)
  }

  /** `confirm_account`: only a session awaiting confirmation is saved; the
      session is deleted once the upsert has succeeded, and kept when it
      throws. A missing id is ignored without a reply. */
  function Confirm(m: Sessions, uid: UserId, upsert: Call<()>): (r: Transition)
    ensures OthersUnchanged(m, r.sessions, uid)
    ensures r.outcome.Silent? <==> !Identified(uid)
    ensures r.outcome.SessionExpired? <==>
              Identified(uid) && !Pending(m, uid, AwaitingConfirmation)
    ensures r.outcome.Saved? <==> Pending(m, uid, AwaitingConfirmation) && upsert.Returned?
    ensures r.outcome.SaveFailed? <==> Pending(m, uid, AwaitingConfirmation) && upsert.Threw?
    ensures r.outcome.Saved? || r.outcome.SaveFailed? ==>
              var w := r.outcome.write;
              && w.bankName == m[uid].selectedBank.name
              && w.institutionCode == m[uid].selectedBank.code
              && w.accountNumber == m[uid].accountNumber
              && w.accountName == m[uid].accountName
    ensures r.outcome.Saved? ==> r.sessions == m - {uid}
    ensures !r.outcome.Saved? ==> r.sessions == m
    ensures AllValid(m) ==> AllValid(r.sessions)
  {
    if !Identified(uid) then Transition(m, Silent)
    else if !Pending(m, uid, AwaitingConfirmation) then Transition(m, SessionExpired)
    else
      var w := WriteFor(m[uid]);
      match upsert
      case Threw => Transition(m, SaveFailed(w))
      case Returned(_) =>
        RemoveFrame(m, uid);
        Transition(m - {uid}, Saved(w))
  }

  /** `cancel_verification`: drop the caller's session, whether or not there
      is one. */
  function Cancel(m: Sessions, uid: UserId): (r: Transition)
    ensures r.outcome == Cancelled
    ensures OthersUnchanged(m, r.sessions, uid)
    ensures Identified(uid) ==> uid !in r.sessions
    ensures !Identified(uid) || uid !in m ==> r.sessions == m
    ensures AllValid(m) ==> AllValid(r.sessions)
  {
    RemoveFrame(m, uid);
    Transition(if Identified(uid) then m - {uid} else m, Cancelled)
  }

  /** On a valid session, what `confirm_account` writes is a complete payout
      account: a ten-digit account number and a resolved name. */
  lemma SavedAccountIsComplete(m: Sessions, uid: UserId, upsert: Call<()>)
    requires AllValid(m)
    ensures var r := Confirm(m, uid, upsert);
            r.outcome.Saved? ==>
              && r.outcome.write.accountNumber.Some?
              && Validators.IsAccountNumber(r.outcome.write.accountNumber.value)
              && r.outcome.write.accountName.Some?
  {
  }

  /** A whole conversation: after picking an institution whose code is in
      the list and a text that trims to ten digits whose name resolves,
      confirming saves the first institution with that code, the trimmed
      number and the resolved name, and ends the session. */
  lemma ConversationSaves(m: Sessions, uid: UserId, code: string, list: seq<Institution>,
                          text: string, name: string)
    requires Identified(uid)
    requires FindByCode(list, code).Some?
    requires Validators.IsAccountNumber(Text.Trim(text))
    ensures var m1 := SelectBank(m, uid, code, Returned(list)).sessions;
            var m2 := OnText(m1, uid, text, Returned(name)).sessions;
            var r := Confirm(m2, uid, Returned(()));
            var bank := FindByCode(list, code).value;
            && r.outcome == Saved(AccountWrite(bank.name, Some(name), Some(Text.Trim(text)), code))
            && uid !in r.sessions
  {
    var bank := FindByCode(list, code).value;
    var m1 := SelectBank(m, uid, code, Returned(list)).sessions;
    assert Pending(m1, uid, AwaitingAccountNumber) && m1[uid].selectedBank == bank;
    var m2 := OnText(m1, uid, text, Returned(name)).sessions;
    assert Pending(m2, uid, AwaitingConfirmation) && m2[uid].selectedBank == bank;
  }

  /** Two transitions that agree on what `uid` sees and keeps: the verify
      flow's counterpart of `Sell.SameFor`, over this flow's transitions. */
  predicate SameFor(t1: Transition, t2: Transition, uid: UserId) {
    t1.outcome == t2.outcome && Lookup(t1.sessions, uid) == Lookup(t2.sessions, uid)
  }

  /** Each handler decides from the sender's own entry alone. */
  lemma SelectBankIsLocal(m1: Sessions, m2: Sessions, uid: UserId, code: string,
                          institutions: Call<seq<Institution>>)
    requires Lookup(m1, uid) == Lookup(m2, uid)
    ensures SameFor(SelectBank(m1, uid, code, institutions), SelectBank(m2, uid, code, institutions), uid)
  {
  }

  lemma OnTextIsLocal(m1: Sessions, m2: Sessions, uid: UserId, text: string, lookup: Call<string>)
    requires Lookup(m1, uid) == Lookup(m2, uid)
    ensures SameFor(OnText(m1, uid, text, lookup), OnText(m2, uid, text, lookup), uid)
  {
    assert uid in m1 <==> uid in m2;
    if uid in m1 {
      assert m1[uid] == m2[uid];
    }
  }

  lemma ConfirmIsLocal(m1: Sessions, m2: Sessions, uid: UserId, upsert: Call<()>)
    requires Lookup(m1, uid) == Lookup(m2, uid)
    ensures SameFor(Confirm(m1, uid, upsert), Confirm(m2, uid, upsert), uid)
  {
    assert uid in m1 <==> uid in m2;
  }

  lemma CancelIsLocal(m1: Sessions, m2: Sessions, uid: UserId)
    requires Lookup(m1, uid) == Lookup(m2, uid)
    ensures SameFor(Cancel(m1, uid), Cancel(m2, uid), uid)
  {
  }

  /** Cancelling twice is cancelling once. */
  lemma CancelIdempotent(m: Sessions, uid: UserId)
    ensures Cancel(Cancel(m, uid).sessions, uid) == Cancel(m, uid)
  {
  }
}
