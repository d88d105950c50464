# ArkPay P2P bot: the two conversation flows, in Dafny

ArkPay P2P is a Telegram bot for selling USDT and USDC for fiat. This project
models its core:

- **The sell flow** (`commands/sell.ts`): a per-user session that records a
  token and network, then collects a refund address and an amount. The rate
  is fetched and quoted, and on confirmation an order is placed through the
  payment API.
- **The verify flow** (`commands/verify.ts`): a per-user session that records
  the institution the user picked and collects a ten-digit account number.
  The account holder's name is resolved, and on confirmation the payout
  account is written to the user's profile.
- **The institution picker** (`showBankSelection` in `commands/verify.ts`):
  pagination of the institution list, eight to a page, and the inline
  keyboard laid out for a page.
- **Text routing** between the two flows. The sell handler sees free text
  first and passes it on only when the sender has no sell session.

Every handler is one atomic step:

`(session map, sender id, event data, collaborator results) -> (session map, outcome)`

Each session map is a `map<UserId, Session>`. The outcome says which reply
was given and which request was made.

Collaborators are parameters of the step. They are the rate lookup, the
institution list, account-name resolution, order creation, the profile read
and the profile writes, and each is a `Call<T>`, either `Returned(v)` or
`Threw`. JavaScript's `parseFloat` is a parameter `string -> Option<real>`,
with `None` standing for NaN.

A missing `ctx.from.id` and the id 0 are both falsy in the source, so the
model writes both as user id 0.

Modules:

| module | file | what it holds |
|---|---|---|
| `Base` | base.dfy | `Option`, `Call`, user ids, the frame predicate `OthersUnchanged`, JavaScript truthiness |
| `Text` | text.dfy | `String.prototype.trim` (the ECMA-262 white-space set), digit classes, decimal rendering |
| `Pattern` | pattern.dfy | the meaning of an anchored regex made of `class{n}` pieces |
| `Validators` | validators.dfy | the address regex and the account-number regex, and what each accepts |
| `Payment`, `Profiles` | payment.dfy, profiles.dfy | the request payloads, the profile fields the flows read and write |
| `Sell` | sell.dfy | the sell sessions and handlers |
| `Verify` | verify.dfy | the verify sessions and handlers |
| `BankPages` | bank_pages.dfy | pagination and keyboard layout of the institution picker |
| `Router` | router.dfy | dispatch of events to the flows, runs of events, isolation of users |
| `Scenarios` | scenarios.dfy | concrete conversations |

Two behaviours of the code are worth knowing before reading the contracts:

- **Out-of-range page.** An out-of-range page is neither rejected nor
  clamped. It shows an empty page of banks, with the navigation row when
  the list spans more than one page, and always with "Back to Verify".
  `Scenarios.SeventeenBanks` shows this for page 5 of a 17-bank list.
- **Which sessions can be confirmed.** `confirm_sell` checks the session's
  fields, not its step: only that `amount`, `rate` and `refundAddress` are
  truthy. So a session that `change_refund` has sent back to the address
  step can still be confirmed, with its old address
  (`Sell.ConfirmAfterChangeRefund`).

## Model

| member | source | states |
|---|---|---|
| Text.Trim | commands/sell.ts:81 | the trimmed text is no longer than the input and is empty or starts and ends with a non-white-space character |
| Text.TrimIsInfix | commands/verify.ts:205 | the trimmed text is the infix of the input left after removing only white space from both ends |
| Text.TrimIdempotent | commands/sell.ts:127 | trimming an already trimmed text changes nothing |
| Text.TrimOfUnpadded | commands/verify.ts:205 | a text that starts and ends with a non-white-space character is its own trim |
| Text.DecimalRoundTrip | commands/verify.ts:127 | reading back the decimal rendering of a page number gives the number |
| Pattern.LeadingPiece | commands/sell.ts:86 | a regex whose first piece is `cls{n}` matches exactly when the first n characters are of class cls and the rest matches the remaining pieces |
| Validators.AddressCheck | commands/sell.ts:84-87 | the address regex accepts exactly `0x` followed by 40 hexadecimal digits of either case, and the `length < 26` test in front of it never changes the verdict |
| Validators.AddressAccepted | commands/sell.ts:84-87 | the address step's test, as written, lets a text through iff it is such an address |
| Validators.AccountNumberCheck | commands/verify.ts:208 | the account-number regex accepts exactly the strings of ten ASCII digits |
| Validators.AccountNumberAccepted | commands/verify.ts:208-217 | the account-number step's test, as written, lets a text through iff it is ten ASCII digits |
| Sell.ChainFor | commands/sell.ts:243-327 | the refused pairs are exactly USDT/arbitrum-one, USDC/bnb-smart-chain and USDC/arbitrum-one; a listed pair gets its display name and an unlisted network is accepted with an empty name |
| Sell.SelectChain | commands/sell.ts:243-356 | a refused pair changes no session and the refusal names the chosen token; otherwise the sender's session is replaced by a fresh one for that token and network (step waiting for the refund address, nothing collected) and the reply asks for the refund address under the pair's display name; other users' sessions never change; validity is preserved |
| Sell.OnAddress | commands/sell.ts:80-106 | the trimmed text is stored iff it is an address, and then the step becomes the amount step with token, network and quote untouched; otherwise nothing changes |
| Sell.OnAmount | commands/sell.ts:126-150 | given `parseFloat` of the trimmed text, a NaN or non-positive amount changes nothing; otherwise, when the rate is fetched, amount, rate and receiving amount = rate x amount are stored and the step becomes confirming; a rate lookup that throws is unhandled and the handler writes nothing |
| Sell.OnText | commands/sell.ts:70-174 | text is passed on iff the sender has no sell session; the address step gets the text and the amount step its trimmed parse, behaving as above; text in the confirming step is swallowed without a change; only a saved address or a quote changes the map |
| Sell.ChangeRefund | commands/sell.ts:177-194 | an existing session goes back to the address step with its address, quote, token and network kept; the callback's token and network are ignored; no session is created |
| Sell.ConfirmSell | commands/sell.ts:359-479 | outcomes in order: no id, profile read throwing (unhandled; the handler writes nothing), session fields not truthy (session expired), no account number, then order placement; the order carries the session's amount, rate, network, token and address, the profile's payout account and the memo "Sell <token> on <network name>"; the session is deleted iff the order and the counter update both succeed, and unchanged otherwise |
| Sell.Cancel | commands/sell.ts:482-497 | the sender's session is gone afterwards, the map is unchanged if there was none, no one else's changes |
| Sell.CancelIdempotent | commands/sell.ts:485-488 | cancelling twice is cancelling once |
| Sell.ConfirmingIsReady | commands/sell.ts:371-376 | a valid confirming session passes the field check unless the fetched rate was 0 |
| Sell.ConfirmAfterChangeRefund | commands/sell.ts:186-192 | after `change_refund` has sent a confirming session back to the address step, confirming still places the order |
| Sell.ConversationPlacesOrder | commands/sell.ts:396-424 | choosing an accepted pair, an address, a positive amount at a non-zero fetched rate and confirming with a verified profile places the quoted order (amount, rate, network, token, trimmed address), requests a one-trade counter increment and ends the session |
| Sell.OnTextIsLocal | commands/sell.ts:71-77 | what the text handler does to and shows the sender depends on the sender's own session only |
| Sell.SelectChainIsLocal | commands/sell.ts:269-277 | chain selection depends on the sender's own session only |
| Sell.ChangeRefundIsLocal | commands/sell.ts:186-193 | `change_refund` depends on the sender's own session only |
| Sell.ConfirmSellIsLocal | commands/sell.ts:362-375 | `confirm_sell` depends on the sender's own session only |
| Sell.CancelIsLocal | commands/sell.ts:485-488 | `cancel_sell` depends on the sender's own session only |
| Verify.FirstWithCode | commands/verify.ts:360 | the index returned is that of the first institution with the code, or the list length when none has it |
| Verify.FindByCode | commands/verify.ts:360 | `find` gives nothing iff no institution has the code, and otherwise the first one that has it |
| Verify.SelectBank | commands/verify.ts:355-393 | a fetch that throws or a code not in the list changes nothing; a code in the list always asks for the account number of the first institution with that code (as `FindByCode` defines it) and, for an identified sender, replaces the sender's session by one for that institution, waiting for the account number |
| Verify.OnText | commands/verify.ts:196-276 | text is ignored unless the sender's session waits for the account number; the trimmed text is refused unless it is ten digits; a failed name lookup changes nothing; a resolved name is stored with the number and the step moves to confirmation, keeping the institution |
| Verify.Confirm | commands/verify.ts:279-327 | outside the confirmation step the session has expired and nothing changes; the write carries the institution's name and code and the stored number and name; the session is deleted iff the write succeeds |
| Verify.Cancel | commands/verify.ts:330-345 | the sender's session is gone afterwards, the map is unchanged if there was none, no one else's changes |
| Verify.CancelIdempotent | commands/verify.ts:333-336 | cancelling twice is cancelling once |
| Verify.SavedAccountIsComplete | commands/verify.ts:292-303 | on reachable sessions, every saved account has a ten-digit account number and a resolved name |
| Verify.ConversationSaves | commands/verify.ts:285-316 | picking a code that a listed institution has, giving ten digits and confirming saves the name and code of the first institution with that code with the trimmed number and resolved name and ends the session |
| Verify.SelectBankIsLocal | commands/verify.ts:370-376 | bank selection depends on the sender's own session only |
| Verify.OnTextIsLocal | commands/verify.ts:197-203 | the text handler depends on the sender's own session only |
| Verify.ConfirmIsLocal | commands/verify.ts:282-289 | `confirm_account` depends on the sender's own session only |
| Verify.CancelIsLocal | commands/verify.ts:333-336 | `cancel_verification` depends on the sender's own session only |
| BankPages.TotalPages | commands/verify.ts:80 | the page count is the least number of 8-bank pages that holds the list |
| BankPages.Slice | commands/verify.ts:83 | `slice` clamps both bounds to the length and gives exactly the elements from start up to the clamped end |
| BankPages.PageSlice | commands/verify.ts:79-83 | page p holds at most 8 banks, namely list[8p + k] for each position k; a page past the last is empty, and every other page is non-empty and ends at min(8p + 8, n) |
| BankPages.PagesBeforeArePrefix | commands/verify.ts:79-83 | pages 0 to k - 1 together are the first min(8k, n) banks, in order |
| BankPages.PagesPartitionList | commands/verify.ts:79-83 | pages 0 to totalPages - 1 together are the whole list, in order |
| BankPages.PageOfPosition | commands/verify.ts:79-83 | bank i is entry i mod 8 of page i div 8, and no other page holds it |
| BankPages.Label | commands/verify.ts:93-95 | a name of more than 20 characters becomes its first 20 characters followed by "...", so every label has at most 23 characters; shorter names are kept |
| BankPages.BankButtons | commands/verify.ts:91-109 | one button per bank, in list order |
| BankPages.BankRows | commands/verify.ts:86-113 | there are ceil(k / 2) rows for k banks |
| BankPages.BankRowsLayout | commands/verify.ts:86-113 | the rows hold the page's banks in order, two to a row, and only the last row may hold a single bank |
| BankPages.NavRow | commands/verify.ts:116-137 | the row holds exactly the buttons listed here: the indicator is always present; Previous is present iff page > 0 and comes first; Next is present iff page < totalPages - 1 and comes last |
| BankPages.Keyboard | commands/verify.ts:85-140 | the bank rows come first, laid out exactly as `BankRows` lays out the page's banks, then the navigation row iff there is more than one page, and "Back to Verify" is always the last row |
| BankPages.ShowBankSelection | commands/verify.ts:55-167 | a failed fetch gives the failure notice and an empty list gives the "no banks" notice; otherwise the page is shown with its keyboard, its number, the page count and the bank count |
| Router.OnText | commands/sell.ts:71-77 | free text goes to the sell flow iff the sender has a sell session, and the result is then the sell text handler's sessions and outcome with the verify sessions untouched; otherwise it goes to the verify text handler, whose sessions and outcome are the result, with the sell sessions untouched |
| Router.Dispatch | index.ts:15-24 | each kind of event runs its own handler (the chain, change-refund, confirm and cancel buttons of the sell flow; bank selection, confirm and cancel of the verify flow; the picker; free-text routing) on that flow's sessions only; one event changes only its sender's entries; sell buttons leave the verify sessions alone and verify buttons the sell sessions; the picker changes nothing; an unidentified sender changes nothing; a pending sell session shields the verify session from text; both flows' invariants are preserved |
| Router.OtherSenders | commands/sell.ts:6-18 | an event from another user leaves u's entries as they were |
| Router.OwnEntriesDecide | commands/verify.ts:8-16 | what an event does to its sender, and what the sender is shown, depend on the sender's own entries only |
| Router.Isolation | index.ts:19-24 | after any run of events, u's entries are what u's own events alone would have produced from the same starting entries |
| Router.ReachableIsValid | commands/sell.ts:104-150 | every state reached from valid sessions is valid: stored addresses are well formed, a stored amount is positive with receiving = rate x amount, and a session waiting for confirmation holds ten digits and a name |
| Scenarios.SampleAddressIsValid | commands/sell.ts:86 | `0x` followed by forty `1`s is an address |
| Scenarios.SampleAddressIsTrimmed | commands/sell.ts:81 | that address has nothing to trim |
| Scenarios.ChooseUsdtOnBsc | commands/sell.ts:247-277 | choosing USDT on bnb-smart-chain opens a session named BSC that waits for the address |
| Scenarios.ConfirmSample | commands/sell.ts:396-424 | confirming 10 USDT on BSC at 1500 with a verified profile places exactly the expected order, requests a one-trade counter increment and ends the session |
| Scenarios.SelectAccessBank | commands/verify.ts:359-376 | picking code 044 from a list holding Access Bank opens a session for Access Bank |
| Scenarios.ShortAccountNumberRefused | commands/verify.ts:208-217 | seven digits are refused and change nothing |
| Scenarios.ConfirmTwice | commands/verify.ts:285-316 | confirming saves code 044 and ends the session, so a second confirm reports an expired session |
| Scenarios.SeventeenBanks | commands/verify.ts:79-137 | 17 banks make 3 pages of 8, 8 and 1; page 5 is empty and its keyboard is only the navigation row (Previous, indicator, no Next) and "Back to Verify" |

## Left out

- Transport calls are assumed not to throw. Several handlers await `answerCbQuery` or `reply` before writing the session, for example `change_refund` (commands/sell.ts:184 before 186-192), chain selection (commands/sell.ts:266 before 269-277) and bank selection (commands/verify.ts:367 before 370-376). A throw at such a point would leave the session unchanged, while the model always writes.
- Rendering and transport: message texts, Markdown and emoji, `answerCbQuery`, `editMessageText` against `reply`, `deleteMessage`, and the Markdown-stripping fallback. These are presentation. Only the keyboard of the institution picker is modelled, with button captions and callback data.
- Menus that change no session: `sellMessage`, `verifyMessage`, the `sell_usdt` / `sell_usdc` network menus, `page_info` and `rem_acc`. They reply and nothing else.
- The HTTP client and MongoDB: each call is a `Returned(v)` / `Threw` parameter. `getUser` returning nothing for a first-time user is covered by the profile read returning `None`, and the record it creates is not modelled.
- Profiles.StatsIncrement: records a trade volume and one trade, without naming the stored field. The source increments `totalTrades` while the profile schema names the counter `tradeCount`, and the schema (models/user.ts:6-15) is declared without `strict: false`, so by default Mongoose drops the `totalTrades` path from the update. Moreover the call is `updateOne` on a Mongoose document with the filter as its first argument, and a document's `updateOne` takes the update first and options second, so the increment may never reach the store at all. This reading of the library signature is not modelled either.
- Sell.OnAmount: uses reals, not IEEE doubles. `parseFloat` is a parameter, so NaN is `None`. An Infinity, which the source's check lets through, has no counterpart.
- Sell.ConfirmSell: the order's `reference` (derived from the clock), the order response and the expiry minutes are not modelled. If the success reply throws after the session is deleted, the source reports a failure for an order it placed; this is not modelled.
- Verify.Confirm: if the success reply throws, it is caught with the session kept and a failure reported although the write succeeded. This is not modelled.
- Verify.OnText: the "Verifying account details" reply is sent outside the try block; a throw there is not modelled.
- BankPages.ShowBankSelection: a `null` institution list is treated like an empty one, and an `answerCbQuery` that throws inside the try block is not modelled. The page number is a `nat`, so `parseInt` beyond 2^53 is out of scope.
- BankPages.Label: counts Unicode code points, where the source counts UTF-16 code units. Names outside the Basic Multilingual Plane would be cut differently.
- Text.Trim: no Unicode tables beyond the fixed white-space set of ECMA-262.
- What happens after an unhandled error: the `Unhandled` outcome says only that the handler writes nothing. The rate lookup (commands/sell.ts:139) and the profile read (commands/sell.ts:368) run outside any try block, index.ts registers no `bot.catch`, and `bot.launch()` is not awaited (index.ts:26). Telegraf's default error handler then rethrows, which stops long polling, so the running bot stops handling events for every user, or comes back with empty in-memory maps after a restart. Router.Run instead carries on with the maps unchanged, so Router.Isolation and Router.ReachableIsValid describe the bot under that reading only. This comes from Telegraf's documented behaviour, whose code is not part of this model.
- Async interleaving: handlers await across network calls with no per-user serialisation in the source. Each handler is modelled as one atomic step.
- Commands typed as text: Telegraf's `bot.command` handlers share the text stream with `bot.on("text")`, and their interleaving with the flows' text handlers is not modelled.
- Callback-data parsing: the regexes that extract the token, network, page and code from callback data are not modelled. The events carry those values already parsed.
- The error reply for USDT on arbitrum-one points its "Back to Chain Selection" button at the USDC menu. This is presentation and is not modelled.
