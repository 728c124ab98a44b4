# Sponsorship engine: model and proofs

The repository sponsors one on-chain name registration per invited wallet. A campaign
holds a budget; an invite holds one pass; a quote fixes one message and one maximum
cost; an attempt reserves that cost; a worker co-signs, sends and settles it; a residual
is swept back by a recovery. Money is recorded three times over (campaign counters,
attempt columns, an append-only ledger) and a separate report reconciles the copies.

This project models that engine and proves what its documentation promises of it.

## How the model is built

Tables are sequences of rows and a row's identifier is its insertion position: a random
identifier is only a name nobody used before. Each SQL transaction is one function from
the locked tables to the committed ones, or an abort (`CampaignTx`, `ExecutionTx`), and
each is also a method of one object whose statements run one after the other and that is
proved to commit exactly that function (`Stores`). A step is any one of these
transactions by anybody at any clock reading, a run is any finite sequence of steps
(`Steps`). Unique indexes that no code path implies are guards; `SKIP LOCKED` and the choice of rows in a sweep are
the caller's choice; clocks, the chain, wallets and lost acknowledgements are parameters.

Amounts are unbounded integers, with 64 bits only where the code imposes them. Hashes are
symbolic and injective, sealed payloads open only in their own context, and
program-derived addresses, curve membership, base58 text order, packet decoding and
signature checks are opaque functions collected in `Registry.Policy`. Where two
addresses have to differ this is a hypothesis (`Builder.SeparateAddresses`).

The layers build on each other:

- the money and lifecycle invariant (`Invariant`), kept by settlement (`SettlePreserves`),
  by every other transaction (`StepPreserves`) and so by every run (`Reachable`), with
  what no transaction may change (`Evolution`), what stays pinned (`Pins`, `Custody`) and
  what the schema's own checks then add (`Checks`);
- evidence (`Receipts`), runs whose settlements come from accepted evidence
  (`VerifiedRuns`), and the whole-life cost law over them (`CostLaw`);
- the reconciler (`Accounting`) against that machine (`AuditClean`, `AuditRuns`) and for
  arbitrary snapshots (`AuditSound`), and its findings read off the rows alone
  (`AuditMeaning`);
- any number of workers with crashes and late sends (`Workers`, `WorkerSafety`), refining
  the sequential machine (`Service`), and the one-shot runner (`SmokeRun`, `SmokeRunner`);
- the byte boundary: builder, validator, browser parser and base58 (`Wire`,
  `SponsoredMessage`, `Builder`, `MessageTerms`, `RecoveryMessages`, `Packet`, `Base58`);
- an independent account of every decision, stated over rows, receipts and bytes and not
  through the transaction functions: when each request is granted and what it writes
  (`CampaignRules`, `ExecutionRules`), which evidence is accepted (`Evidence`), what a
  worker's pass and the runner's commands do (`WorkerProgress`, `RunnerRules`), which
  quotes are prepared and stored (`QuoteRules`), what may be typed for a name (`Names`),
  and what accepted messages say, number by number (`Meaning`).

## What the code does not guarantee by itself

All but the last are proved as exact conditions and shown to occur: `Example` builds one
concrete history from the empty tables (`RecoveryReached`: a registration settled on
accepted evidence, then a recovery opened, leased and signed) and lets each promise give
way in it.

- `settle` accepts a recovery whose debit differs from its fee, and a settlement whose
  slot lies before the one already shown. `RawSettleCleanExactly` states exactly when the
  reconciler notices; `DebitUnread` and `SlotUnread` show that the store commits every
  such amount and slot, `Example.DebitSlips` and `Example.SlotSlips` one of each. Accepted
  evidence rules out the first; the second is a hypothesis on the environment
  (`SlotsGrow`).
- Accepted evidence of a failed recovery is refused by the store when the payer's balance
  is not the amount the recovery was reserved for; this is the only refusal
  (`EvidenceAlwaysSettles`), `BalanceUnread` shows that evidence of every balance is
  accepted, `Example.EvidenceRefused` is one that is refused.
- The message fixes the sum of registration price and domain rent, not the split
  (`MessagePinsTerms`, `SplitIsOpen`, `Example.SplitSlips`).
- `authorize` does not look at when the quote was prepared; with a clock standing more than
  one second before that moment, the slack the recheck itself allows, it grants what the
  full recheck would refuse (`AuthorizationIsBacked`, `Example.ClockStandsEarly`).
- `reserveRecovery` does not look at the block height it stores: the schema's check on it
  holds along a run exactly when every recovery the run opens brings a non-negative one
  (`BlockHeightsExactly`, `HeightUnread`, `Example.HeightSlips`).
- A payload released under a lease may be sent long after the lease is gone, but only
  those bytes (`OnePayloadPerOperation`).

The report reads operations by authorization time and identifier, `AuditClean.SheetOf` by
insertion. Within an attempt the two orders agree, because its next operation opens only
after the previous ones settled (`Pins.OpenLast`) and is stamped by the same database
clock; across attempts the order only changes the order of findings.

## Model

| member | source | states |
|---|---|---|
| Reachable.StepAdvances | src/lib/execution/store.ts:100-292 | every committed or aborted transaction, by anyone at any time, keeps the money, lifecycle, pointer, book and job invariants and the pins, and changes nothing it may not change |
| Reachable.RunAdvances | src/lib/campaigns/store.ts:248-308 | the same for every run, from the empty tables onwards |
| SettlePreserves.SettlementPreserves | src/lib/execution/store.ts:224-268 | whatever amounts pass the guards of settle, counters, columns and ledger sums still tell the same money, within cap and capacity |
| StepPreserves.ReservePreserves | src/lib/campaigns/store.ts:263-275 | a reservation moves budget, seat, invite pointer and first ledger row together |
| StepPreserves.ReleasePreserves | src/lib/campaigns/store.ts:299-306 | an expiry gives back exactly what the reservation took |
| StepPreserves.AuthorizePreserves | src/lib/execution/store.ts:118-125 | authorization opens one registration and moves no money |
| StepPreserves.RecoveryPreserves | src/lib/execution/store.ts:279-290 | a recovery raises the hold to cover its fee, within the cap, and books the raise |
| StepPreserves.StatusPreserves | src/lib/execution/store.ts:176-209 | persisting, noting and review change statuses and leave all books balanced |
| Evolution.EvolvesTransitive | src/lib/execution/store.ts:148-223 | identities, terms, signed bytes, closed rows and the ledger prefix persist across any number of transactions |
| Checks.GuardsImplyChecks | src/db/schema.ts:57-61 | with none assumed, every reachable state satisfies the checks on campaign schedule, budget, capacity, limits and slug, on attempt and operation amounts, slots and attempt heights, and on ledger amounts; the unique indexes on active invites, registrations, active recoveries, quotes and idempotency keys; and every open recovery's fee cap is covered by its hold. The indexes on active names, wallets, payers, signatures, invite tokens and campaign slugs are guards of the model |
| Checks.BlockHeightsExactly | src/lib/execution/store.ts:275-283 | execution_operations_block_height holds after a run if and only if every recovery it opens brings a non-negative height |
| Checks.HeightUnread | src/lib/execution/store.ts:275-277 | a recovery that can be opened is opened under any height whatsoever |
| Guarantees.AuthorizationIsBacked | src/lib/execution/store.ts:108-121 | an authorization signs for the validated message, its hold is the largest debit plus the sweep allowance, and the stored quote would still pass the full recheck exactly if the clock is at most one second before its preparation |
| Guarantees.FenceHolds | src/lib/execution/store.ts:65-69 | a worker mutation without the current, unexpired lease changes no table |
| Guarantees.ClaimExcludesOthers | src/lib/execution/store.ts:154-166 | from a claim until its expiry, after any run in which the holder does not give the job up, the lease is current and no other owner's step on that operation and no other claim changes any table |
| Guarantees.RunKeepsLease | src/lib/execution/store.ts:65-69 | along any run before the expiry the job stays with its holder unless the holder itself reschedules, settles or parks it |
| Guarantees.StatusesAbsorb | src/lib/execution/store.ts:228-265 | over every run settled operations and terminal attempts are frozen, jobs exist only for open operations, and the ledger only grows |
| Guarantees.NeverReleasedAgain | src/lib/execution/store.ts:148-153 | once confirmed, under review or settled, no payload is ever released for sending |
| Guarantees.OneSignedPayload | src/lib/execution/store.ts:176-185 | a persisted signature and its bytes are never replaced, over any run |
| Guarantees.HoldCustody | src/lib/campaigns/store.ts:171-185 | along any run without a settlement an authorized attempt's hold never shrinks and nothing is spent |
| Custody.OnlySettleSettles | src/lib/execution/store.ts:224-264 | no other transaction settles an operation, spends, or takes from an authorized hold |
| Guarantees.KeyCustody | src/lib/campaigns/store.ts:241-273 | the encrypted payer key is in exactly one row while its quote is live or its attempt open or owes a residual, and in none otherwise |
| Guarantees.KeyUnchanged | src/lib/execution/store.ts:262-264 | wherever the key is held along a run, it is the key saved with the quote |
| Signing.OnlyPersistSigns | src/lib/execution/store.ts:176-185 | only persistSigned puts a signed payload into a row |
| Replays.ReplayStutters | src/lib/execution/store.ts:105-107 | a granted reservation, authorization or open recovery asked for again, anywhere later in a run, leaves the final tables identical |
| Replays.RepeatStutters | src/lib/campaigns/store.ts:253-258 | a remembered request repeated is a no-op |
| Sessions.FiveSessionsAtMost | src/lib/campaigns/store.ts:200-203 | no run ever leaves an invite with more than five unrevoked sessions |
| Stores.Store.CreateCampaign | src/lib/campaigns/store.ts:92-104 | commits exactly the transaction function, or changes nothing, and keeps every invariant, as each method below does |
| Stores.Store.SetCampaignStatus | src/lib/campaigns/store.ts:106-114 | commits exactly the transaction function; an ended campaign stays as it is |
| Stores.Store.IssueInvite | src/lib/campaigns/store.ts:143-157 | commits exactly the transaction function, or changes nothing |
| Stores.Store.RevokeInvite | src/lib/campaigns/store.ts:159-168 | invite and all its sessions are revoked together, attempts and campaigns untouched |
| Stores.Store.RotateInvite | src/lib/campaigns/store.ts:171-185 | new token and expiry, sessions revoked and live quotes lapsed in one transaction |
| Stores.Store.ExchangeInvite | src/lib/campaigns/store.ts:187-206 | keeps the four newest sessions and adds one, leaving at most five unrevoked |
| Stores.Store.LockInvite | src/lib/campaigns/store.ts:80-90 | a session speaks for its invite only while session, campaign and invite are usable |
| Stores.Store.SaveQuote | src/lib/campaigns/store.ts:231-246 | stores a quote exactly when it validates and no attempt is active, superseding live ones and touching no attempt, campaign or ledger row |
| Stores.Store.ReserveAttempt | src/lib/campaigns/store.ts:248-277 | replays, conflicts, budget and capacity answers, and the five writes, exactly as the transaction function |
| Stores.Store.ExpireUnsigned | src/lib/campaigns/store.ts:290-308 | releases an expired unsigned hold, and nothing else |
| Stores.Store.SweepQuotes | src/lib/campaigns/store.ts:317-324 | expires chosen live quotes past their time and drops their keys |
| Stores.Store.Authorize | src/lib/execution/store.ts:100-127 | operation, attempt status and job in one transaction, with every refusal code |
| Stores.Store.ClaimJob | src/lib/execution/store.ts:154-166 | leases a due, unleased job for 45 seconds |
| Stores.Store.HoldsLease | src/lib/execution/store.ts:65-69 | true exactly for the current, unexpired holder |
| Stores.Store.BroadcastPayload | src/lib/execution/store.ts:148-153 | releases the signed row only to the lease holder and only before confirmation |
| Stores.Store.PersistSigned | src/lib/execution/store.ts:176-185 | the one signing write, for a matching message in status signing |
| Stores.Store.Note | src/lib/execution/store.ts:186-194 | broadcast progress, never back from confirmed |
| Stores.Store.Reschedule | src/lib/execution/store.ts:195-201 | gives the lease back with a bounded delay |
| Stores.Store.ManualReview | src/lib/execution/store.ts:202-209 | parks operation and attempt and removes the job |
| Stores.Store.RequestRetry | src/lib/execution/store.ts:210-223 | the loop over open operations reschedules or recreates their jobs and changes no other table |
| Stores.Store.Settle | src/lib/execution/store.ts:224-268 | both branches, write by write, equal the settlement transaction |
| Stores.Store.SettleRegistration | src/lib/execution/store.ts:233-244 | the registration branch commits exactly when its evidence fits |
| Stores.Store.SettleRecovery | src/lib/execution/store.ts:245-258 | the recovery branch commits exactly when its evidence fits |
| Stores.Store.ReserveRecovery | src/lib/execution/store.ts:269-292 | returns the open recovery, or opens one with the extra hold it needs |
| Receipts.ReceiptConservation | src/lib/execution/settlement.ts:17-43 | every accepted receipt, over any account list, destroys exactly its fee; the user's balance is unchanged on registrations; debit minus recovery is what the sponsor lost |
| Receipts.RegistrationSplit | src/lib/execution/settlement.ts:33-43 | the residual is the quoted price less what the registry received; a failure costs only its fee |
| Receipts.BalanceUnread | src/lib/execution/settlement.ts:21-25 | evidence of a failed recovery is accepted with every payer balance, and reports that balance |
| VerifiedRuns.VerifiedEvidenceSettles | src/lib/execution/store.ts:224-258 | a live lease on a signed operation plus accepted evidence always commits, whatever the campaign's or invite's status, except exactly for a failed recovery of another payer balance |
| CostLaw.EvidenceAlwaysSettles | src/lib/execution/settlement.ts:20-43 | the same after every run from the empty tables, with no assumption on residuals |
| CostLaw.WholeLifeCost | src/lib/execution/store.ts:259-264 | an attempt's cost is minus the sponsor's balance changes over its receipts; complete means price received plus rents plus all fees with nothing left at the payer; failed means its fee |
| CostLaw.LiveLawful | src/lib/execution/store.ts:245-258 | the law is kept by every act, through any number of failed recoveries |
| Accounting.MakeReport | src/lib/operations/accounting.ts:156-305 | the loops over maps list exactly the findings of the grouped sums and lookups, with the same totals; there is no report exactly when a column the code reaches is malformed |
| Accounting.CheckEntries | src/lib/operations/accounting.ts:178-203 | one pass groups the ledger by attempt, operation and initial reservation and checks each row |
| Accounting.CheckOperations | src/lib/operations/accounting.ts:205-232 | each operation against its evidence, policy and ledger rows |
| Accounting.CheckAttempts | src/lib/operations/accounting.ts:233-270 | each attempt against its ledger, registration, invite and latest settlement, and the recount |
| Accounting.CheckInvites | src/lib/operations/accounting.ts:278-284 | each invite pointer, and the number of consumed invites |
| Accounting.IndexSettlements | src/lib/operations/accounting.ts:169-177 | the map holds each attempt's settlement of greatest slot, the later one on ties |
| Accounting.IndexRegistrations | src/lib/operations/accounting.ts:168-168 | the map holds each attempt's registration |
| Accounting.Index | src/lib/operations/accounting.ts:165-167 | a map built from rows finds what a search for the key finds |
| AuditClean.CleanExactly | src/lib/operations/accounting.ts:156-304 | in every state of the invariant the report is empty exactly when settled recoveries debited only their fee and attempts show their latest settlement |
| AuditClean.AlwaysReadable | src/lib/operations/accounting.ts:82-85 | every reachable state can be reported on |
| AuditRuns.NoFalseAlarms | src/lib/operations/accounting.ts:156-304 | after any run with accepted evidence in slot order the report on every campaign is empty |
| AuditRuns.RawSettleCleanExactly | src/lib/execution/store.ts:245-258 | after any raw settlement on a clean state the report stays empty if and only if a recovery debited its fee and the slot did not go back |
| AuditRuns.DebitUnread | src/lib/execution/store.ts:245-258 | a recovery that can settle settles with any other debit too, and the report is empty exactly for debit equal to fee and a slot that does not go back |
| AuditRuns.SlotUnread | src/lib/execution/store.ts:228-264 | and with any other slot too, the report being empty exactly when it does not go back |
| AuditSound.SilenceIsBalance | src/lib/operations/accounting.ts:234-287 | for any snapshot, no findings means the attempts' ledgers partition the campaign's, held and spent agree three ways, and cap and capacity hold |
| AuditSound.AlteredAmountIsNoticed | src/lib/operations/accounting.ts:178-203 | changing the amount of any ledger row of a clean snapshot is always reported |
| AuditSound.RemovedRowIsNoticed | src/lib/operations/accounting.ts:239-244 | removing any ledger row that carries an amount is always reported |
| WorkerSafety.OnePayloadPerOperation | src/lib/execution/service.ts:60-101 | across any workers, crashes, lost acknowledgements and expired leases: at most one payload committed per operation, every send after that commit, byte for byte that payload, fully signed over the operation's message |
| WorkerSafety.OperateOk | src/lib/execution/service.ts:102-150 | every interleaving keeps the tables' invariants, the log's order and what each worker believes of its rows |
| WorkerSafety.WorkersRefine | src/lib/execution/service.ts:102-150 | the tables and receipts of any concurrent run are those of a sequential run of its transactions |
| WorkerSafety.WorkRefines | src/lib/execution/service.ts:107-127 | a worker judging rows read arbitrarily long ago does what the machine would do now |
| WorkerSafety.CaseStays | src/lib/execution/service.ts:57-59 | the facts evidence is judged by never change |
| Service.ServiceNeverAlarms | src/lib/execution/service.ts:155-162 | whatever the workers did, with slots in order, the reconciler reports nothing |
| Service.ServiceCosts | src/lib/execution/service.ts:125-131 | the cost law holds of the tables any workers leave behind |
| Service.ServiceSettles | src/lib/execution/service.ts:125-127 | accepted evidence is never refused to a worker that still holds its lease, one exact case aside |
| Example.RecoveryReached | src/lib/execution/store.ts:100-292 | a concrete run from the empty tables, through a settled registration, reaches an open, leased and signed recovery |
| Example.DebitSlips | src/lib/execution/store.ts:245-258 | there, a debit one above the fee commits and is reported |
| Example.SlotSlips | src/lib/execution/store.ts:259-264 | there, a slot before the registration's commits and is reported |
| Example.EvidenceRefused | src/lib/execution/store.ts:245-247 | there, accepted evidence of a failed sweep of another balance is refused under a current lease |
| Example.ClockStandsEarly | src/lib/execution/store.ts:108-117 | a reachable reservation is authorized two seconds before its quote was prepared, when the recheck would refuse |
| Example.HeightSlips | src/lib/execution/store.ts:275-283 | a reachable attempt gets a recovery with a negative block height |
| Example.SplitSlips | src/lib/transactions/policy.ts:94-130 | one concrete message is accepted for two different inputs |
| SmokeRun.SendsAtMostOnce | src/lib/smoke/runner.ts:348-400 | one journal leads to at most one send over any commands, crashes, failed or uncertain writes and reopenings, of the persisted fully signed packet of the single authorized candidate |
| SmokeRun.PlayOk | src/lib/smoke/runner.ts:223-227 | after any commands every journaled snapshot is valid and follows its predecessor, and a live runner's state is the journal's head or poisoned |
| SmokeRun.SubmitAfterSend | src/lib/smoke/runner.ts:354-356 | once anything was sent, submit writes and sends nothing |
| SmokeRun.WriteOk | src/lib/smoke/runner.ts:223-227 | a write keeps the journal sound whatever becomes of it |
| SmokeRun.CheckSnapshot | src/lib/smoke/runner.ts:157-212 | decides snapshot validity exactly |
| SmokeRunner.Runner.WriteSnapshot | src/lib/smoke/runner.ts:223-227 | validates, appends, and believes the snapshot only when acknowledged; a failed write poisons the runner |
| SmokeRunner.Runner.Reopen | src/lib/smoke/runner.ts:215-220 | a new process trusts the journal's last committed snapshot only |
| SmokeRunner.Runner.Initialize | src/lib/smoke/runner.ts:298-309 | one configuration and payer per journal |
| SmokeRunner.Runner.Prepare | src/lib/smoke/runner.ts:310-329 | old approvals are invalidated on disk before anything is read |
| SmokeRunner.Runner.AcceptSignature | src/lib/smoke/runner.ts:338-347 | stores a single-signer packet only at its stage and for the current candidate |
| SmokeRunner.Runner.Submit | src/lib/smoke/runner.ts:348-371 | refuses, reports, parks an expired run, or goes on to authorize |
| SmokeRunner.Runner.BroadcastOnce | src/lib/smoke/runner.ts:389-399 | the broadcasting snapshot is durable before the one send |
| SmokeRunner.Runner.Reconcile | src/lib/smoke/runner.ts:401-435 | observes and settles, never sends |
| Quotes.PreparedQuotesAreStorable | src/lib/transactions/quote.ts:103-189 | from any typed name, a quote prepared from a conformant observation carries the bare label and validates at every instant of its window, for exactly its maximum reservation, within 64 bits and the campaign's limit |
| Registry.NormalizedExactly | src/lib/cookie/registry.ts:44-56 | a name equals its own normalization exactly when it is a valid label |
| Quotes.CheckStoredQuote | src/lib/campaigns/validation.ts:29-58 | decides exactly whether a stored quote may hold budget, and for how much |
| Quotes.WindowIsExact | src/lib/campaigns/validation.ts:31-36 | acceptance depends on the clock exactly through the quote's window, and on the wallet |
| Quotes.BuiltMessageAccepted | src/lib/transactions/quote.ts:151-156 | construction succeeds exactly on admissible inputs and then always validates |
| Quotes.CanonicalFits | src/lib/cookie/transaction.ts:98-98 | no admissible registration outgrows a packet |
| Wire.LengthFieldExact | src/lib/transactions/policy.ts:32-44 | reading a length succeeds exactly on its canonical encoding |
| Wire.ReadEncoded | src/lib/transactions/policy.ts:32-44 | reading inverts canonical encoding on 0..65535 in any surroundings |
| Wire.ReadIsCanonical | src/lib/transactions/policy.ts:32-44 | every accepted length field is the canonical encoding of its value |
| Wire.Reader.Length | src/lib/transactions/policy.ts:32-44 | the accumulating loop computes that reading and advances past it |
| Wire.Reader.Take | src/lib/transactions/policy.ts:23-28 | yields the next bytes exactly when they exist |
| SponsoredMessage.ValidateSponsoredMessage | src/lib/transactions/policy.ts:69-156 | accepts exactly one byte string per expected input: no prefix, extension or variant |
| SponsoredMessage.ReadMessage | src/lib/transactions/policy.ts:106-155 | the walk succeeds exactly on the canonical message |
| Builder.BuilderMeetsValidator | src/lib/cookie/transaction.ts:52-100 | merging the instruction flags and sorting each privilege group gives the validator's header, ten-key order and instructions, with and without the rent transfer |
| Builder.MergeExact | src/lib/transactions/policy.ts:110-112 | merging keeps each key once with the disjunction of its flags |
| Builder.OrderedMetasExact | src/lib/cookie/registry.ts:171-210 | the compiled account list is the validator's, flag for flag |
| MessageTerms.MessagePinsTerms | src/lib/transactions/policy.ts:94-130 | one message is accepted for two expected inputs exactly when they agree on every term but the split of the funded amount |
| MessageTerms.SplitIsOpen | src/lib/transactions/policy.ts:94-130 | every accepted message is accepted for a second input too, one unit moved from rent to price |
| RecoveryMessages.RecoveryBuilderMeetsTemplate | src/lib/execution/crypto.ts:211-243 | the compiled and serialized recovery is the raw template byte for byte |
| Packet.ParsePacket | src/lib/onboarding/wallet.ts:55-90 | the moving offset computes the packet's parse |
| Packet.ParsedPrintsBack | src/lib/onboarding/wallet.ts:55-90 | printing what was parsed gives back the packet |
| Packet.PrintedParsesBack | src/lib/onboarding/wallet.ts:55-90 | every sensible packet parses to what was printed |
| Packet.AcceptsExactlyPrints | src/lib/onboarding/wallet.ts:55-90 | accepted packets are exactly the printed sensible ones |
| Packet.BrowserAgrees | src/lib/onboarding/wallet.ts:238-251 | every message the server validator accepts, behind three zero signatures, is accepted with the same ten keys and the user at index 1 or 2 |
| Packet.OnlyTheSignatureChanged | src/lib/onboarding/wallet.ts:258-270 | a returned packet that passes differs from the prepared one in the user's signature only |
| Base58.ServerEncode | src/lib/execution/crypto.ts:88-99 | the server loop computes base58 text |
| Base58.BrowserEncode | src/lib/onboarding/wallet.ts:33-39 | the browser loop computes the same text |
| Base58.AlphabetSpelled | src/lib/execution/crypto.ts:31-31 | the digits are the pinned alphabet, character by character |
| Base58.DecodeEncode | src/lib/execution/chain.ts:62-68 | a decoder inverts encoding on every byte string, leading zeroes included |
| Base58.EncodeInjective | src/lib/smoke/runner.ts:82-88 | different bytes never share a text |
| Base58.KeyAndSignatureLengths | src/db/schema.ts:158-160 | 32 bytes take 32 to 44 characters and 64 bytes 64 to 88, and all four bounds are reached |
| CampaignRules.LockExactly | src/lib/campaigns/store.ts:80-90 | a session request is let through exactly for an unrevoked, unexpired session of an open invite of an active campaign inside its schedule and policy, and each refusal code names what failed |
| CampaignRules.ReserveExactly | src/lib/campaigns/store.ts:248-277 | a reservation is made exactly for such a session, a fresh key, no active attempt, a live quote of this invite that validates, and room in budget, seats and active keys |
| CampaignRules.ReservedRow | src/lib/campaigns/store.ts:265-274 | the new attempt is its quote's, budget, seat, pointer, quote and ledger move with it, and nothing else moves |
| CampaignRules.ReserveRefusals | src/lib/campaigns/store.ts:254-264 | what each refusal of a reservation means |
| CampaignRules.SaveExactly | src/lib/campaigns/store.ts:231-246 | a quote is stored exactly when it validates for the session's wallet and no attempt is active; the row written, and the live quotes it supersedes |
| CampaignRules.ExchangeExactly | src/lib/campaigns/store.ts:187-206 | an exchange succeeds exactly for a usable invite of a running campaign; the session expires at the first of fifteen minutes, invite and campaign end, and exactly the older sessions with four live newer ones are revoked |
| CampaignRules.IssueExactly | src/lib/campaigns/store.ts:143-157 | an invite is issued exactly for a signing wallet that is not the sponsor, a future expiry within the campaign, and unused token and wallet |
| CampaignRules.RotateExactly | src/lib/campaigns/store.ts:171-185 | a rotation never touches a consumed invite, one with an attempt or an ended campaign; otherwise token, expiry, sessions and live quotes change, row by row |
| CampaignRules.RevokeExactly | src/lib/campaigns/store.ts:159-168 | any invite but a consumed one is revoked with exactly its sessions |
| CampaignRules.StatusExactly | src/lib/campaigns/store.ts:106-114 | exactly a campaign that has not ended can become active, paused or ended |
| CampaignRules.ExpireExactly | src/lib/campaigns/store.ts:290-308 | a hold goes back exactly for a prepared attempt past its time, with every row that changes |
| CampaignRules.SweepExactly | src/lib/campaigns/store.ts:317-324 | exactly the chosen live quotes past their time lapse and lose their keys |
| CampaignRules.CreateExactly | src/lib/campaigns/validation.ts:16-26 | a campaign is created exactly for a fresh slug of words, a visible short name, a schedule, and positive limits within its cap |
| CampaignRules.UnitsExactly | src/lib/campaigns/validation.ts:19-19 | the length of a display name counts a character beyond the first 65,536 code points twice |
| ExecutionRules.AuthorizeExactly | src/lib/execution/store.ts:100-127 | an operation is added exactly when the campaign is active and inside its schedule, the invite open, unexpired and pointing at the attempt, wallet, policy and sponsor agree, the session is this invite's and alive, preflight and quote are fresh and amounts agree; and what that operation is |
| ExecutionRules.AuthorizeRefusals | src/lib/execution/store.ts:102-117 | what each refusal of an authorization means |
| ExecutionRules.PauseHolds | src/lib/execution/store.ts:110-112 | while a campaign is not active, no run adds a registration or an attempt to it |
| ExecutionRules.FenceExactly | src/lib/execution/store.ts:65-69 | a worker request that changes any table was made under the current, unexpired lease |
| ExecutionRules.ClaimExactly | src/lib/execution/store.ts:154-166 | a claim yields a lease exactly on a due job nobody holds, of a campaign of this sponsor, for 45 seconds |
| ExecutionRules.PersistExactly | src/lib/execution/store.ts:176-185 | a signed payload is stored exactly in status signing, for the authorized message and under an unused signature |
| ExecutionRules.NoteExactly | src/lib/execution/store.ts:186-194 | progress is noted exactly on a signed row neither settled nor under review, and confirmed is never lowered |
| ExecutionRules.ReleaseExactly | src/lib/execution/store.ts:148-153 | a payload is released exactly to the holder, from a signed row on its way to confirmation, and it is that row |
| ExecutionRules.RescheduleExactly | src/lib/execution/store.ts:195-201 | the lease is given back exactly for a delay of at most a minute, and only the job changes |
| ExecutionRules.ReviewExactly | src/lib/execution/store.ts:202-209 | the holder parks exactly its operation and attempt and drops the job |
| ExecutionRules.RetryExactly | src/lib/execution/store.ts:210-223 | a retry makes exactly the open operations of the attempt due now, creating missing jobs, and touches nothing else |
| ExecutionRules.RecoverExactly | src/lib/execution/store.ts:269-292 | a recovery is opened exactly for a consumed invite whose attempt owes this residual, with a fresh fee within the allowance and the cap; the rows written |
| ExecutionRules.SettleExactly | src/lib/execution/store.ts:224-268 | a settlement commits exactly for the holder of a signed, unsettled operation whose amounts its policy, hold and costs allow, and every row it writes, by kind and outcome |
| Evidence.HeaderNeeded | src/lib/execution/settlement.ts:8-19 | no evidence is accepted unless the receipt is final, of these signed bytes, for this message, within the fee cap, well formed and paid for by the sponsor |
| Evidence.FailureExactly | src/lib/execution/settlement.ts:20-25 | a failed transaction's evidence is accepted exactly when only the sponsor paid, and only the fee, and the payer's balance was observed; it then costs that fee and nothing else |
| Evidence.SweepExactly | src/lib/execution/settlement.ts:26-31 | a successful sweep's evidence is accepted exactly when the payer went from the amount to nothing, the sponsor gained it less the fee, nobody else moved and the balance was observed |
| Evidence.RegistrationExactly | src/lib/execution/settlement.ts:32-43 | a successful registration's evidence is accepted exactly when price, rents and residual moved as quoted, nobody else did, and owner, primary owner and name were observed |
| Evidence.RegistrationListed | src/lib/execution/settlement.ts:32-32 | a registration whose accounts are not all in the receipt is refused |
| AuditMeaning.ReportExactly | src/lib/operations/accounting.ts:178-304 | a finding is reported, with its expected and actual amounts, exactly when the rows show what it says, with no reference to maps or searches |
| AuditMeaning.SilentExactly | src/lib/operations/accounting.ts:156-304 | the report is silent exactly when no row, operation, attempt, invite or total shows any disagreement |
| AuditMeaning.SilenceIsStanding | src/lib/operations/accounting.ts:245-270 | in any snapshot without findings an open attempt's invite points at it and a terminal one's does not, statuses agree with the registration, terminal attempts hold nothing and owe nothing, and signatures agree |
| AuditMeaning.ReadableExactly | src/lib/operations/accounting.ts:82-85 | there is a report exactly when every amount it must read is a natural number |
| AuditMeaning.CountedRows | src/lib/operations/accounting.ts:233-249 | the recount is the sums of holds, costs and residuals over the rows and the numbers of passes used and seats taken |
| WorkerProgress.ConfirmedWasSeen | src/lib/execution/service.ts:135-135 | along every run of any workers a row is confirmed only after a worker holding a lease on that operation judged an observation that said so |
| WorkerProgress.UnseenIsSent | src/lib/execution/service.ts:90-101 | a worker that finds its transaction neither final nor confirmed nor too old sends the committed bytes before it notes anything and leaves the row submitted or of unknown fate |
| WorkerProgress.ConfirmedIsNoted | src/lib/execution/service.ts:135-135 | confirmed on the chain is noted, and nothing is sent |
| WorkerProgress.HopelessIsReviewed | src/lib/execution/service.ts:131-134 | final without a receipt, or past the last valid height, parks operation and attempt with nothing sent |
| WorkerProgress.WithheldRests | src/lib/execution/service.ts:136-137 | an unseen transaction of a confirmed or parked row is left alone |
| WorkerProgress.FinalIsJudged | src/lib/execution/service.ts:125-130 | accepted evidence settles at once, refused evidence goes to review, a refused settlement by its code, and nothing is sent |
| WorkerProgress.SigningPersists | src/lib/execution/service.ts:60-89 | a row in status signing gets exactly the payload co-signed for its own message |
| WorkerProgress.SignedIsOpened | src/lib/execution/service.ts:111-114 | a row signed earlier is never signed again: its payload is opened and observed only if it passes every check |
| WorkerProgress.PayloadExactly | src/lib/execution/service.ts:113-123 | the opened payload passes exactly when it is fully signed, paid by the sponsor, over the stored message, which is the quote's registration or the recovery of this amount |
| WorkerProgress.ClaimsRead | src/lib/execution/service.ts:106-110 | a granted claim leads to the job's own rows and the facts they hold |
| WorkerProgress.UnnotedIsUnknown | src/lib/execution/service.ts:94-100 | a submission that cannot be noted is noted as of unknown fate instead |
| WorkerProgress.RestDelays | src/lib/execution/service.ts:137-137 | the pause after an undecided pass doubles with each retry up to thirty seconds |
| WorkerProgress.Rests | src/lib/execution/service.ts:137-147 | a pass that ends undecided or failed gives the lease back for exactly that pause |
| RunnerRules.WriteExactly | src/lib/smoke/runner.ts:223-227 | exactly a valid snapshot that was stored is in the journal, and exactly an acknowledged one is believed |
| RunnerRules.SendsExactly | src/lib/smoke/runner.ts:348-400 | bytes go out exactly with consent to this message and this whole limit, before any earlier send, everything rechecked, and authorization, packet and intention all stored; and they are the co-signed packet |
| RunnerRules.SendIsNoted | src/lib/smoke/runner.ts:391-399 | after a send the run is submitted exactly when the chain answered with the packet's signature |
| RunnerRules.RefusedSubmit | src/lib/smoke/runner.ts:350-371 | a refused submission leaves the journal as it was, except that an expired authorized run goes to review |
| RunnerRules.InitializeExactly | src/lib/smoke/runner.ts:298-309 | a journal is initialized once, with an empty run |
| RunnerRules.ReopenExactly | src/lib/smoke/runner.ts:215-220 | a new process resumes from the last snapshot exactly if that is valid |
| RunnerRules.PrepareExactly | src/lib/smoke/runner.ts:310-329 | preparation clears every approval on disk first and does nothing at a later stage |
| RunnerRules.AcceptExactly | src/lib/smoke/runner.ts:338-347 | a packet is taken exactly at its wallet's turn, for the current candidate, signed by that wallet alone and after a recheck |
| RunnerRules.ReconciledExactly | src/lib/smoke/runner.ts:409-435 | what an observation makes of a run: expired, confirmed, settled, in need of recovery, or under review |
| RunnerRules.ReconcileExactly | src/lib/smoke/runner.ts:401-408 | exactly a run that may have been sent is reconciled, and one that is settled never |
| RunnerRules.SnapshotExactly | src/lib/smoke/runner.ts:157-212 | a snapshot may be journaled exactly when actors, packets by stage, candidate, settlement and secret are as listed |
| QuoteRules.AcceptableExactly | src/lib/transactions/policy.ts:69-98 | there is an acceptable message exactly for a label, four parties apart from each other and the program's accounts, and amounts that fit, and then only one |
| QuoteRules.StoredExactly | src/lib/campaigns/validation.ts:29-58 | a stored quote yields its reservation exactly when it was made for this wallet, campaign and policy, its window holds, its costs add up and its packet wraps the accepted message; the length tests never decide |
| QuoteRules.PreparesExactly | src/lib/transactions/quote.ts:103-189 | preparation succeeds exactly when the total fits limit and balance and the clock is inside the window, with the exact cause of each late refusal and every field of the quote |
| QuoteRules.PreparationRefused | src/lib/transactions/quote.ts:109-141 | the exact cause of each early refusal |
| Names.NormalizesExactly | src/lib/cookie/registry.ts:49-56 | what was typed names a label exactly when it spells it between blanks, in any case, with or without the suffix |
| Names.LabelSpelled | src/lib/cookie/registry.ts:44-46 | a label is four to thirty-two letters, digits and inner hyphens |
| Names.BlankExactly | src/lib/campaigns/validation.ts:19-19 | nothing is left of a trimmed text exactly when it is blank |
| Meaning.MessageMeans | src/lib/transactions/policy.ts:57-156 | every accepted message parses, and read by number, key and amount it limits compute to 200,000, funds the payer with price plus rent, registers the label to the fee receiver's account, hands it over, pays the primary rent and sets the primary |
| Meaning.TransferSpelled | src/lib/transactions/policy.ts:57-62 | transfer data is opcode two in four bytes, lowest first, then the amount in eight |
| Meaning.KeysInOrder | src/lib/transactions/policy.ts:106-118 | the ten keys are the sponsor, then wallets, writable accounts and programs, each group in ascending text order |
| Meaning.RecoveryMeans | src/lib/execution/crypto.ts:202-243 | a recovery message exists exactly for two different signing wallets and a positive native amount, and says that amount, opcode and compute limit byte for byte |
| Packet.PromptExactly | src/lib/onboarding/wallet.ts:238-243 | the wallet is asked exactly for a wholly unsigned packet whose second or third signer it is |
| Packet.ReturnExactly | src/lib/onboarding/wallet.ts:262-265 | a returned packet passes exactly with some signature in that wallet's 64 bytes and every other byte as it was |

## Left out

- HTTP handlers, rate limits, cookies, React components, logging and the audit table: orchestration or display without a deep invariant.
- RPC transport, timeouts and account decoding: preflight, observation and recovery preparation are oracles constrained by what the code checks.
- Ed25519, AES-GCM, SHA-256, curve checks and address derivation: opaque, injective where needed.
- Base64 text: payloads are byte strings; only the length limits on the text are kept.
- Postgres internals: lock timeouts and the pool are not modelled; any failed transaction changes nothing.
- The text formats of identifiers and idempotency keys.
- Registry.Lower: case folding of characters whose lower case lies outside the label alphabet is the identity; none of them can occur in an accepted name.
- The schedule of pending recoveries: any caller may reserve a recovery at any time.
- Registration price arithmetic from the on-chain configuration.
- report_too_large and the 24-digit width of amount text: amounts are unbounded.
- Row display fields of the report (ages, dates, health): the model keeps findings and totals.
- File-system safety of the journal: a failed write may or may not have committed, and the lock makes reopening sequential.
- Workers.Does: the co-signing step is one verdict; its rechecks and preflight only decide whether a payload is offered.
- SmokeRunner.Runner.Prepare: the chain reads of preparation and recheck are one verdict, as in SmokeRun.DoPrepare.
- SmokeRun.DoPrepare: the chain reads of preparation and recheck are one verdict; the stored quote itself is revalidated.
- SmokeRunner.Runner.Submit: the busy flag is not modelled, commands already run one at a time.
- AuditRuns.NoFalseAlarms: takes non-decreasing settled slots per attempt as a hypothesis, because the store does not enforce them.
- The wallet connection object, probes, scripts, the restore drill and the demo journey.
