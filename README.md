# Ticket-sale contract, modelled in Dafny

This project models `TicketSaleContract` (src/ticketr.rs). It is a MultiversX
smart contract that sells numbered tickets for a single event. The contract
keeps three storage singletons:

- `eventInfo`: the event name, the capacity and the number of tickets sold;
- `ticketPrice`;
- `nftTokenIdentifier`.

Its four endpoints move the contract through four phases:
unconfigured → issuance pending → selling → sold out.

- `setup_event` stores the terms and requests the issuance of a semi-fungible
  ticket token.
- `issue_callback` is the continuation of that request. On success it stores
  the token identifier. On failure it refunds the returned transfers to the
  owner and clears the terms.
- `buy_ticket` takes an exact payment and counts one more sale. It mints one
  unit named `<event> Ticket #<n>` and sends that unit to the buyer.
- `withdraw` sends the whole EGLD balance to the owner.

The model has two layers.

- `TicketSaleSpec` (ticket_sale_spec.dfy) states each endpoint as a pure
  transition. A transition takes a `Ledger` (the three singletons plus the
  contract's EGLD balance; `None` is an empty mapper). It returns either the
  failing check as an `Error`, or the next ledger together with the host calls
  made, in order (`Effect`: issue, mint, ESDT transfer, EGLD transfer).
  `Consistent` is the intended storage invariant, and `PhaseOf` names the phase
  of a consistent ledger. The multi-call properties are lemmas about these
  functions.
- `TicketSale.TicketSaleContract` (ticket_sale.dfy) is the contract as an
  object. The mappers, the balance and the log of host calls are fields. The
  endpoints are imperative methods, written step by step like the source. Each
  method is proved to perform the transition of the same name. A failed
  check leaves storage, balance and the host-call log unchanged. A ghost
  counter of outstanding issuance requests expresses the host's promise to
  deliver one callback per request. Delivering the callback uses up its
  request even when the callback's owner check fails.
  `FestScenario` walks through a concrete run: setup and issuance, two
  purchases, then a third purchase that fails. `RejectedCallbackScenario`
  shows a callback rejected by its owner check leaving the corrected contract
  stuck in the pending phase.
- `Decimal` (decimal.dfy) models the `u64::to_string` that numbers the
  tickets. `Base` (base.dfy) holds bytes, the `u64` range and the result
  wrappers.

Host services become parameters of the endpoints: who the caller is, the owner
address, the attached EGLD, the issuance result, the returned transfers and the
nonce a mint is assigned.

## Model

| member | source | states |
|---|---|---|
| `Decimal.NatToDecimal` | src/ticketr.rs:133 | The rendering of the ticket number is digits only and non-empty. It has no leading zero, and it is "0" exactly for 0. |
| `Decimal.DecimalRoundTrip` | src/ticketr.rs:133 | Reading a rendered number back as decimal gives the number. |
| `Decimal.CanonicalRoundTrip` | src/ticketr.rs:133 | Every digit string without leading zeros is the rendering of the number it denotes. |
| `Decimal.NatToDecimalInjective` | src/ticketr.rs:133 | Distinct ticket numbers render as distinct strings. |
| `TicketSaleSpec.TicketNameInjective` | src/ticketr.rs:130-133 | Two ticket names of the same event are equal only when their numbers are equal. |
| `TicketSaleSpec.SetupEventAsWritten` | src/ticketr.rs:47-76 | Setup as written, from any ledger: it succeeds exactly when the caller is the owner, no token id is stored, price > 0 and capacity > 0. Otherwise the error is that of the first failing check, in source order. On success the ledger holds the price and `{name, capacity, 0}` with no token id and the same balance, which is the pending phase. The one host call is the issuance request with the attached fee. |
| `TicketSaleSpec.SetupEvent` | src/ticketr.rs:47-76 | Corrected setup: it fails exactly when the caller is not the owner, the contract is not unconfigured, price is 0 or capacity is 0. The error is that of the first failing check. On success the ledger is pending with exactly the supplied terms, and the one host call is the issuance request carrying the fee and the `EVENTTICKET` ticker with freeze, wipe and transfer-create-role enabled. |
| `TicketSaleSpec.IssueCallback` | src/ticketr.rs:79-101 | The callback fails exactly for a non-owner caller. Delivered while pending, `Ok` stores the token id, changes nothing else and opens the sale. `Err` clears price and event, which restores the never-set-up ledger with the same balance, and refunds every returned transfer to the owner. |
| `TicketSaleSpec.RefundsInOrder` | src/ticketr.rs:87-96 | On issuance failure there is one refund per returned transfer. Each refund goes to the owner, carries exactly that transfer, and the refunds keep the returned order. |
| `TicketSaleSpec.BuyTicket` | src/ticketr.rs:114-157 | A purchase fails exactly when the sale is not open, the payment differs from the price in either direction, or the event is sold out. The error is that of the first failing check. A sale adds exactly 1 to `sold_tickets`, and the new count stays within the capacity and within `u64`. Name, capacity, price and token are kept and the payment is credited. The host calls are a mint of `AMOUNT_TO_MINT` = 1 with royalties 0, name `name + " Ticket #" + decimal(new count)`, attributes `"type:ticket;event:" + name` and the single fixed URI, followed by a transfer of that nonce, quantity 1, to the buyer. |
| `TicketSaleSpec.Withdraw` | src/ticketr.rs:104-110 | Withdrawal fails exactly for a non-owner or a zero balance. Otherwise it sends the whole balance to the owner, leaves the balance at 0 and leaves storage unchanged. |
| `TicketSaleSpec.BuyTickets` | src/ticketr.rs:114-157 | A run of purchases, stopping at the first failure, keeps the ledger consistent. |
| `TicketSaleSpec.SellingInOrder` | src/ticketr.rs:121-142 | From an open sale, n purchases that each pay the price, with n at most the tickets left, all succeed. The count rises by n and the balance by n × price; nothing else changes. |
| `TicketSaleSpec.RunEffectsAt` | src/ticketr.rs:130-156 | In the reference run of sales numbered from `sold + 1`, the k-th pair of host calls mints ticket `sold + k + 1` and sends it to the k-th buyer. |
| `TicketSaleSpec.SalesInOrder` | src/ticketr.rs:130-156 | The host calls of such a run of purchases equal that reference run. |
| `TicketSaleSpec.KthSale` | src/ticketr.rs:126-156 | In such a run the k-th purchase mints ticket number `sold + k + 1` under its assigned nonce and sends it to its buyer, so the labels are dense and in order. |
| `TicketSaleSpec.SoldTicketNamesDistinct` | src/ticketr.rs:130-133 | No two tickets minted in such a run share a name. |
| `TicketSaleSpec.SellOutThenReject` | src/ticketr.rs:124 | Selling the remaining capacity ends sold out with `sold_tickets == total_tickets`. The next purchase at the price then fails with `AllTicketsSold`. |
| `TicketSaleSpec.SetupIsOneShot` | src/ticketr.rs:48-51 | After a successful setup, every further setup fails, both while the issuance is pending and after it succeeded. |
| `TicketSaleSpec.RetryAfterFailedIssue` | src/ticketr.rs:97-98 | After a failed issuance, the owner's next setup succeeds exactly when price and capacity are positive. |
| `TicketSaleSpec.SetupAgreesOutsidePending` | src/ticketr.rs:49 | Outside the pending phase the corrected setup and the setup as written give the same result. |
| `TicketSaleSpec.PendingBlocksCorrectedSetup` | src/ticketr.rs:48-49 | While an issuance is pending, the corrected setup fails for every caller: `NotOwner` for a non-owner, otherwise `AlreadySetUp`. Every purchase fails with `NotSetUpYet`, and a callback from a non-owner fails and leaves the ledger pending. The setup as written still accepts the owner exactly when price and capacity are positive. |
| `TicketSaleSpec.SetupAsWrittenBreaksConsistency` | src/ticketr.rs:49 | As written, two setups of "Fest" before either callback both succeed, and each sends an issuance request, so two are outstanding. An `Ok` callback followed by an `Err` callback then leaves a token id stored while price and event are cleared. |
| `TicketSale.TicketSaleContract.constructor` | src/ticketr.rs:41-42 | A deployed contract has every mapper empty, a zero balance and no issuance outstanding. |
| `TicketSale.TicketSaleContract.SetupEvent` | src/ticketr.rs:47-76 | The method performs `TicketSaleSpec.SetupEvent`: on failure nothing changes; on success the new storage is that transition's result and one issuance request is outstanding. It keeps `Valid`. |
| `TicketSale.TicketSaleContract.IssueCallback` | src/ticketr.rs:79-101 | The method performs `TicketSaleSpec.IssueCallback` and consumes the outstanding request. Its loop sends the refunds one at a time, in order. It keeps `Valid`. |
| `TicketSale.TicketSaleContract.Withdraw` | src/ticketr.rs:103-110 | The method performs `TicketSaleSpec.Withdraw` and keeps `Valid`. |
| `TicketSale.TicketSaleContract.BuyTicket` | src/ticketr.rs:112-157 | The method performs `TicketSaleSpec.BuyTicket`: its in-place `sold_tickets += 1` and its step-by-step name and attribute buffers give exactly that transition's storage and host calls. It keeps `Valid`. |
| `TicketSale.TicketSaleContract.GetEventInfo` | src/ticketr.rs:160-163 | The event record is present exactly when the contract is not unconfigured, and then `sold <= total`. |
| `TicketSale.TicketSaleContract.GetTicketPrice` | src/ticketr.rs:165-168 | The view returns the stored price, and 0 when the mapper is empty. In a consistent state the price is therefore positive exactly when the contract is not unconfigured. |
| `TicketSale.TicketSaleContract.GetNftTokenIdentifier` | src/ticketr.rs:170-173 | The token id is present exactly when the sale is open or sold out. |

## Left out

- The MultiversX VM and its storage mappers, `TopEncode`/`TopDecode` and the ABI declarations. Storage is modelled as plain `Option` fields.
- How the codec renders an empty `eventInfo` or `nftTokenIdentifier` when read. The views return the absent value as `None`. An empty price reads as 0, which is what `buy_ticket` compares against.
- The ESDT system contract. `issue_semi_fungible(...).call_and_exit()` is logged as an `IssueSemiFungible` host call, and its result arrives later as the callback's `result` parameter. The token properties left at their defaults are not listed one by one.
- `esdt_nft_create`, `direct_esdt` and `direct_egld` are host primitives. They are logged as `Effect`s and assumed to succeed. The host's abort when one of them fails is not modelled. The nonce returned by a mint is a parameter, and no relation to the ticket number is assumed.
- How the host reverts a call on `require!`. A failed check is modelled as an `Error` plus unchanged state.
- EGLD bookkeeping of the issuance fee. The fee attached to `setup_event` is forwarded to the issuance and does not change the modelled balance. EGLD the host may hand back with a failed issuance is not credited.
- The contract's ESDT balances. Minted units and returned transfers pass through it.
- Which address the host reports as the caller of `issue_callback`. It is a parameter, like the owner address of `get_owner_address`.
- The host's exactly-once delivery of the callback. It is assumed as `TicketSale.TicketSaleContract.IssueCallback`'s precondition that an issuance request is outstanding.
- The text of the `require!` messages. Each check has its own `Error` constructor instead.
- `init`, which is empty. Deployment is the class constructor.
- `TicketSaleSpec.SetupEvent`: does not reproduce the source's acceptance of the owner's setup while an issuance is pending. This is the correction of the finding below. After a callback rejected by its owner check, the model's contract stays pending for good, while the source allows a retry.

## Findings

| source | as written | input that shows it | evidently intended | confidence | as-written member | corrected member |
|---|---|---|---|---|---|---|
| src/ticketr.rs:49 | `setup_event`'s second check rejects a call only when the token id is stored. It therefore accepts a second setup while the first issuance is still pending. | The owner calls `setup_event("Fest", 100, 2)` twice before either callback arrives. Both succeed and two issuances are outstanding. The first callback is `Ok(token)` and the second is `Err`. The result is a stored token id while price and event info are cleared, so the sale looks open but its terms are gone. | Setup is one-shot and all three records are present or absent together. The check should also reject while the terms of an earlier setup are stored, so at most one issuance is ever outstanding. This correction has a cost. If the one callback fails its own owner check, the contract stays pending with no callback to come. It can then never be set up again, while the source lets the owner retry (`TicketSaleSpec.PendingBlocksCorrectedSetup`, `TicketSale.RejectedCallbackScenario`). | medium, not executed | `TicketSaleSpec.SetupEventAsWritten` (counterexample: `TicketSaleSpec.SetupAsWrittenBreaksConsistency`) | `TicketSaleSpec.SetupEvent` (with `TicketSaleSpec.SetupIsOneShot`; used by `TicketSale.TicketSaleContract.SetupEvent`) |
