# JobContract — a Dafny model of a Soroban job and NFT marketplace contract

The contract keeps three kinds of record in one Soroban key-value store:
role-tagged **accounts** keyed by address; **jobs** that are created, completed
and then have their payment released; and **NFTs** that are minted, listed for
sale and bought. The model turns every contract method into a pure function
from a `State` (the store plus the log of emitted events) to a new state. A
method that would `panic!` or fail an `unwrap` returns `Err(NotFound)` or
`Err(InvalidState)` instead. The host discards an aborted call, so an error
leaves the state as it was.

Files, one module each:

- `types.dfy` (`Types`): the records `Account`, `Role`, `Job`, `Nft`, `Listing`,
  `ListingStatus`; the untyped storage `Value`; the `Event`s; `Error` and `Result`.
- `store.dfy` (`Store`): storage keys, the two key layouts, and the typed loads.
  A typed load fails with `NotFound` when the key is absent or holds another
  kind of record.
- `contract.dfy` (`JobContract`): the ten contract methods.
- `properties.dfy` (`Properties`): properties that relate several calls, and the
  consequences of the shared key space.
- `trace.dfy` (`Trace`): sequences of calls, with the frame, the append-only
  event log and one-way status invariants proved over whole runs.
- `scenarios.dfy` (`Scenarios`): the two end-to-end scenarios.

**Key layouts.** Every operation takes a `Layout`:

- `Shared` is the contract as written. Jobs, NFTs and listings are all stored
  under their bare `Symbol` id, and accounts under their `Address`.
- `Tagged` stores each record under a `(kind, id)` key, so the kinds cannot
  collide.

The operations are defined once. The layout only decides which key each record
goes under. `Shared` is the faithful model. `Tagged` is the corrected one that
the Findings below refer to.

**What the code does where its own comments suggest otherwise.** The model
follows the code:

- `buy_nft` checks that "the NFT is still listed" (soroban_contract.rs:127) and
  then updates "the listing and NFT in storage" (soroban_contract.rs:136). As
  written, though, it can never succeed (see Findings).
- Nothing makes a job's completion or a listing's sale one-way. `create_job` can
  overwrite a completed job and `list_nft` a sold listing in either layout. In
  the shared layout, `mint_nft`, `list_nft` and `buy_nft` can also replace a job,
  and `mint_nft` can replace a listing. So the run invariants
  (`Trace.RunKeepsCompleted`, `Trace.RunKeepsSold`) assume no call in the run
  replaces the record (`Trace.MayReplaceJob`, `Trace.MayReplaceListing`).
- A typed read fails both on an absent key and on a key that holds a record of
  another kind.

## Model

| member | source | states |
|---|---|---|
| Store.LoadAccount | soroban_contract.rs:152-154 | reading an account succeeds exactly when the key holds an account, and then returns it; otherwise `NotFound` |
| Store.LoadJob | soroban_contract.rs:78 | reading a job succeeds exactly when the key holds a job, and then returns it; absent or mistyped is `NotFound` |
| Store.LoadNft | soroban_contract.rs:133 | reading an NFT succeeds exactly when the key holds an NFT; absent or mistyped is `NotFound` |
| Store.LoadListing | soroban_contract.rs:125 | reading a listing succeeds exactly when the key holds a listing; absent or mistyped is `NotFound` |
| Store.AccountKey | soroban_contract.rs:59 | an account is stored under its address, a key no job, NFT or listing ever uses, in either layout |
| Store.JobKey | soroban_contract.rs:73 | a job is stored under a key that equals the NFT's and the listing's key for the same id exactly in the shared layout |
| Store.NftKey | soroban_contract.rs:108 | an NFT is stored under a key that equals the listing's key for the same id exactly in the shared layout |
| Store.ListingKey | soroban_contract.rs:119-120 | a listing is stored under a key derived from the NFT id alone |
| Store.SharedKeysCollide | soroban_contract.rs:73-120 | as written, a job, an NFT and a listing with the same id are stored under the same key |
| Store.TaggedKeysDisjoint | soroban_contract.rs:119-120 | with kind-tagged keys, no two record kinds and no account ever share a key |
| JobContract.GetAccount | soroban_contract.rs:152-154 | `get_account` returns the account stored under the address, and fails with `NotFound` exactly when none is there |
| JobContract.GetJob | soroban_contract.rs:147-149 | `get_job` returns the stored job, and fails with `NotFound` on an absent or mistyped key |
| JobContract.GetNft | soroban_contract.rs:157-159 | `get_nft` returns the stored NFT, and fails with `NotFound` on an absent or mistyped key |
| JobContract.ListingOf | soroban_contract.rs:125 | `buy_nft`'s listing read returns the listing stored under the listing key, and fails with `NotFound` exactly when the key is absent or holds another kind of record |
| JobContract.CreateAccount | soroban_contract.rs:57-60 | afterwards `get_account(address)` returns exactly `{role, address}`; no other key and no event changes |
| JobContract.CreateJob | soroban_contract.rs:63-74 | afterwards `get_job(id)` returns the given fields with `is_completed == false`; only the job's key changes; no event |
| JobContract.CompleteJob | soroban_contract.rs:77-83 | with no job at `id` it fails with `NotFound`; otherwise it succeeds, the job reads back with `id`, `creator`, `maker`, `price` kept and `is_completed == true`, and nothing else changes |
| JobContract.ReleasePayment | soroban_contract.rs:86-97 | it succeeds exactly when the job exists and is completed; it fails with `NotFound` when no job exists and `InvalidState` when it is not completed; on success the store is untouched and exactly one `PaymentReleased(id)` is appended |
| JobContract.MintNft | soroban_contract.rs:100-109 | afterwards `get_nft(id)` returns `{id, owner, metadata}`; only the NFT's key changes; no event |
| JobContract.ListNft | soroban_contract.rs:112-121 | afterwards the listing for `id` reads back as `{id, price, Listed}`; only the listing's key changes; no event |
| JobContract.CommitPurchase | soroban_contract.rs:136-138 | after the two writes the NFT key holds the new NFT; the sold listing survives only when its key differs from the NFT's; no other key changes |
| JobContract.BuyNft | soroban_contract.rs:124-144 | no listing gives `NotFound`; a `Sold` listing gives `InvalidState`; a `Listed` listing succeeds exactly when the NFT can be read, and otherwise gives `NotFound`; on success the NFT's owner becomes the buyer with its id and metadata kept, one `NftSold(id)` is appended, only the two keys change, and the listing reads `Sold` when its key is separate |
| Properties.CreateAccountOverwrites | soroban_contract.rs:57-60 | a second `create_account` at the same address silently replaces the first |
| Properties.CompleteJobIdempotent | soroban_contract.rs:77-83 | `complete_job` applied twice gives the same state as applied once |
| Properties.ReleasePaymentRepeatable | soroban_contract.rs:86-97 | after a successful release a second release also succeeds and appends a second `PaymentReleased(id)`, because nothing records payment |
| Properties.PaymentGatedOnCompletion | soroban_contract.rs:63-97 | a freshly created job cannot be paid out (`InvalidState`), and after `complete_job` it can |
| Properties.SharedListHidesNft | soroban_contract.rs:112-121 | as written, after `list_nft(id)` the call `get_nft(id)` fails with `NotFound` |
| Properties.TaggedListKeepsNft | soroban_contract.rs:112-121 | with tagged keys, listing leaves the NFT record unchanged |
| Properties.SharedBuyNeverSucceeds | soroban_contract.rs:125-133 | as written, `buy_nft` fails on every state; with a `Listed` listing under the key, it fails with `NotFound` at the NFT read |
| Properties.SharedCommitLosesListing | soroban_contract.rs:137-138 | as written, the NFT write replaces the just-written sold listing, so no listing remains under the key |
| Properties.TaggedBuyTransfers | soroban_contract.rs:124-144 | with tagged keys, `buy_nft` succeeds exactly when a `Listed` listing and the NFT exist; afterwards the buyer owns the NFT, the listing is `Sold`, and a second purchase fails with `InvalidState` |
| Properties.SharedMintClobbersJob | soroban_contract.rs:100-109 | as written, minting an NFT under a job's id destroys the job, so `get_job` and `complete_job` fail with `NotFound` |
| Properties.TaggedMintKeepsJob | soroban_contract.rs:100-121 | with tagged keys, minting or listing never changes what `get_job` returns |
| Trace.Step | soroban_contract.rs:55-160 | a committed call writes only the keys in its footprint; only `release_payment` and `buy_nft` emit, each exactly its one event; getters change nothing |
| Trace.Settle | soroban_contract.rs:55-160 | an aborted call leaves the state exactly as it was, a committed one gives the call's result; either way only the call's footprint changes and the event log only grows |
| Trace.Run | soroban_contract.rs:55-160 | over any sequence of calls, aborted calls included, the event log only grows by appending |
| Trace.RunFrame | soroban_contract.rs:55-160 | a key that no call of a run may write keeps its presence and contents through the run |
| Trace.SharedStepSaleFree | soroban_contract.rs:124-144 | as written, no single call creates a `Sold` listing or an `NftSold` event |
| Trace.SharedRunSaleFree | soroban_contract.rs:124-144 | as written, starting without sales, no run ever produces a `Sold` listing or an `NftSold` event |
| Trace.TaggedJobReplacedOnlyByCreate | soroban_contract.rs:63-83 | with tagged keys, the only call that can overwrite a job at `id` is `create_job(id)` |
| Trace.TaggedListingReplacedOnlyByList | soroban_contract.rs:112-144 | with tagged keys, the only call that can overwrite a listing at `id` is `list_nft(id)` |
| Trace.StepKeepsCompleted | soroban_contract.rs:77-83 | a completed job stays completed across one call that does not overwrite it |
| Trace.RunKeepsCompleted | soroban_contract.rs:77-83 | a completed job stays completed through any run that does not overwrite it, so `is_completed` only goes from false to true |
| Trace.StepKeepsSold | soroban_contract.rs:124-144 | a sold listing stays sold across one call that does not overwrite it |
| Trace.RunKeepsSold | soroban_contract.rs:124-144 | a sold listing stays sold through any run that does not overwrite it, so the status only goes from `Listed` to `Sold` |
| Scenarios.JobScenarioPays | soroban_contract.rs:63-97 | create, complete and release `J1`: one `PaymentReleased(J1)` is emitted and the job reads back completed |
| Scenarios.SharedNftScenarioAborts | soroban_contract.rs:100-144 | as written, mint, list and buy `N1` aborts at the purchase with `NotFound`, the NFT is gone and nothing is emitted |
| Scenarios.TaggedNftScenarioSells | soroban_contract.rs:100-144 | with tagged keys, mint, list and buy `N1` makes `B` the owner, marks the listing `Sold`, emits `NftSold(N1)` once, and a second purchase fails with `InvalidState` |

## Left out

- Soroban host plumbing: `Env`, `env.storage()` and `env.emit_event` are an explicit map and an event sequence. The SDK is a foreign library.
- Value transfer: payment release and NFT purchase move no funds in the code, only comments and mock logic. Prices are stored and never used in arithmetic, so `I128` only bounds their range.
- The internals of `Symbol`, `Address` and the metadata `String`: they are opaque and compared only for equality.
- Contract-type serialization: the host's conversion of a stored value to the requested type is modelled only as "a record of another kind fails to load". That failure is reported as `NotFound`, not as a distinct conversion error.
- Panic messages ("Job not found", "NFT not available for purchase." and the others): only the error kind is kept.
- Caller authentication: the code performs none. Serialization of concurrent calls and whole-call atomicity are host guarantees, modelled as "calls run one at a time and an aborted call changes nothing".

## Findings

| source | as written | input that shows it | evidently intended | confidence | as-written member | corrected member |
|---|---|---|---|---|---|---|
| soroban_contract.rs:120-133 | `list_nft` stores the listing under the NFT's own id. `buy_nft` reads the listing and then the NFT from that same key, so the NFT read always fails | `mint_nft("N1", A, "ipfs://x")`, `list_nft("N1", 50)`, `buy_nft("N1", B)`: the purchase aborts with `NotFound` | listing and NFT live under separate keys; a purchase makes the buyer the owner and marks the listing `Sold` | not executed; high | Properties.SharedBuyNeverSucceeds | Properties.TaggedBuyTransfers |
| soroban_contract.rs:137-138 | the NFT is written after the sold listing under the same key, so the second write replaces the first and the listing's `Sold` status is lost. The defect is latent: as written no call reaches line 137, because the NFT read at line 133 aborts first (the finding above). It would show once line 133 were fixed while the keys stayed shared | the two writes with id `N1`, sold listing `{N1, 50, Sold}` and any NFT, applied to one shared key, leave no listing under `N1` | both records are persisted | not executed; medium (latent) | Properties.SharedCommitLosesListing | JobContract.CommitPurchase |
| soroban_contract.rs:73-108 | jobs and NFTs are both keyed by a bare `Symbol`, so minting an NFT under a job's id erases the job | `create_job("X", C, M, 1)`, `mint_nft("X", A, "m")`, `complete_job("X")`: it aborts with `NotFound` | job ids and NFT ids are separate namespaces | not executed; medium | Properties.SharedMintClobbersJob | Properties.TaggedMintKeepsJob |

The corrected behaviour is the same set of operations run with the `Tagged`
layout. `Scenarios.TaggedNftScenarioSells` proves the intended purchase scenario
in that layout. `Scenarios.SharedNftScenarioAborts` shows the same scenario as written.
