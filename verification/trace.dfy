/** Sequences of calls against one deployed contract. The host runs calls
    one at a time and discards every write of a call that aborts, so an
    aborted call leaves the state exactly as it found it.
 */
module Trace {
  import opened Types
  import opened Store
  import opened JobContract

  /** One invocation of a contract method, with its arguments. */
  datatype Call =
    | CreateAccountCall(role: Role, address: Address)
    | CreateJobCall(id: Symbol, creator: Address, maker: Address, price: I128)
    | CompleteJobCall(id: Symbol)
    | ReleasePaymentCall(id: Symbol)
    | MintNftCall(id: Symbol, owner: Address, metadata: string)
    | ListNftCall(id: Symbol, price: I128)
    | BuyNftCall(id: Symbol, buyer: Address)
    | GetJobCall(id: Symbol)
    | GetAccountCall(address: Address)
    | GetNftCall(id: Symbol)

  /** The keys a call may write; every other key is left alone. */
  function Footprint(lay: Layout, c: Call): set<Key> {
    match c
    case CreateAccountCall(_, address) => {AccountKey(address)}
    case CreateJobCall(id, _, _, _) => {JobKey(lay, id)}
    case CompleteJobCall(id) => {JobKey(lay, id)}
    case ReleasePaymentCall(_) => {}
    case MintNftCall(id, _, _) => {NftKey(lay, id)}
    case ListNftCall(id, _) => {ListingKey(lay, id)}
    case BuyNftCall(id, _) => {ListingKey(lay, id), NftKey(lay, id)}
    case GetJobCall(_) => {}
    case GetAccountCall(_) => {}
    case GetNftCall(_) => {}
  }

  /** Runs one call. A getter that succeeds leaves the state as it was. */
  function Step(lay: Layout, s: State, c: Call): (r: Result<State>)
    ensures r.Ok? ==> UnchangedExcept(s.store, r.value.store, Footprint(lay, c))
    ensures r.Ok? ==> s.events <= r.value.events
    ensures r.Ok? && c.ReleasePaymentCall? ==> r.value.events == s.events + [PaymentReleased(c.id)]
    ensures r.Ok? && c.BuyNftCall? ==> r.value.events == s.events + [NftSold(c.id)]
    ensures r.Ok? && !c.ReleasePaymentCall? && !c.BuyNftCall? ==> r.value.events == s.events
    ensures r.Ok? && (c.GetJobCall? || c.GetAccountCall? || c.GetNftCall?) ==> r.value == s
  {
    match c
    case CreateAccountCall(role, address) => Ok(CreateAccount(s, role, address))
    case CreateJobCall(id, creator, maker, price) => Ok(CreateJob(lay, s, id, creator, maker, price))
    case CompleteJobCall(id) => CompleteJob(lay, s, id)
    case ReleasePaymentCall(id) => ReleasePayment(lay, s, id)
    case MintNftCall(id, owner, metadata) => Ok(MintNft(lay, s, id, owner, metadata))
    case ListNftCall(id, price) => Ok(ListNft(lay, s, id, price))
    case BuyNftCall(id, buyer) => BuyNft(lay, s, id, buyer)
    case GetJobCall(id) => var _ :- GetJob(lay, s, id); Ok(s)
    case GetAccountCall(address) => var _ :- GetAccount(s, address); Ok(s)
    case GetNftCall(id) => var _ :- GetNft(lay, s, id); Ok(s)
  }

  /** The state after one call, whether it commits or aborts: the host
      discards an aborted call, so the state is then exactly as before. */
  function Settle(lay: Layout, s: State, c: Call): (r: State)
    ensures Step(lay, s, c).Err? ==> r == s
    ensures Step(lay, s, c).Ok? ==> r == Step(lay, s, c).value
    ensures UnchangedExcept(s.store, r.store, Footprint(lay, c))
    ensures s.events <= r.events
  {
    match Step(lay, s, c)
    case Ok(s') => s'
    case Err(_) => s
  }

  /** The state after a sequence of calls. The event log only ever grows:
      what was emitted stays emitted, in order. */
  function Run(lay: Layout, s: State, calls: seq<Call>): (r: State)
    ensures s.events <= r.events
    decreases |calls|
  {
    if calls == [] then s else Run(lay, Settle(lay, s, calls[0]), calls[1..])
  }

  /** Keys no call of a run may write keep their contents through the run. */
  lemma {:induction false} RunFrame(lay: Layout, s: State, calls: seq<Call>, k: Key)
    requires forall i | 0 <= i < |calls| :: k !in Footprint(lay, calls[i])
    ensures k in Run(lay, s, calls).store <==> k in s.store
    ensures k in s.store ==> Run(lay, s, calls).store[k] == s.store[k]
    decreases |calls|
  {
    if calls != [] {
      var s1 := Settle(lay, s, calls[0]);
      RunFrame(lay, s1, calls[1..], k);
    }
  }

  // ---------------------------------------------------------------------
  // Sales never happen in the shared key space
  // ---------------------------------------------------------------------

  /** No listing in the store is `Sold` and no sale was ever announced. */
  predicate SaleFree(s: State) {
    && (forall k | k in s.store :: s.store[k].ListingValue? ==> s.store[k].listing.status == Listed)
    && (forall i | 0 <= i < |s.events| :: !s.events[i].NftSold?)
  }

  lemma SharedStepSaleFree(s: State, c: Call)
    requires SaleFree(s)
    ensures SaleFree(Settle(Shared, s, c))
  {
  }

  /** As written, however the contract is driven, no NFT is ever sold:
      starting from a state with no sale, every run stays free of `Sold`
      listings and of `NftSold` notifications. */
  lemma {:induction false} SharedRunSaleFree(s: State, calls: seq<Call>)
    requires SaleFree(s)
    ensures SaleFree(Run(Shared, s, calls))
    decreases |calls|
  {
    if calls != [] {
      SharedStepSaleFree(s, calls[0]);
      SharedRunSaleFree(Settle(Shared, s, calls[0]), calls[1..]);
    }
  }

  // ---------------------------------------------------------------------
  // Completion and sale are one-way, up to overwriting
  // ---------------------------------------------------------------------

  /** The call may write the job slot of `id` with something other than a completion. */
  predicate MayReplaceJob(lay: Layout, c: Call, id: Symbol) {
    JobKey(lay, id) in Footprint(lay, c) && c != CompleteJobCall(id)
  }

  /** The call may write the listing slot of `id` with something other than a purchase. */
  predicate MayReplaceListing(lay: Layout, c: Call, id: Symbol) {
    ListingKey(lay, id) in Footprint(lay, c) && !(c.BuyNftCall? && c.id == id)
  }

  /** With kind-tagged keys only `create_job` under the same id can replace a job. */
  lemma TaggedJobReplacedOnlyByCreate(c: Call, id: Symbol)
    ensures MayReplaceJob(Tagged, c, id) <==> c.CreateJobCall? && c.id == id
  {
  }

  /** With kind-tagged keys only `list_nft` under the same id can replace a listing. */
  lemma TaggedListingReplacedOnlyByList(c: Call, id: Symbol)
    ensures MayReplaceListing(Tagged, c, id) <==> c.ListNftCall? && c.id == id
  {
  }

  predicate JobCompleted(lay: Layout, s: State, id: Symbol) {
    GetJob(lay, s, id).Ok? && GetJob(lay, s, id).value.isCompleted
  }

  predicate ListingSold(lay: Layout, s: State, id: Symbol) {
    ListingOf(lay, s, id).Ok? && ListingOf(lay, s, id).value.status == Sold
  }

  lemma StepKeepsCompleted(lay: Layout, s: State, c: Call, id: Symbol)
    requires JobCompleted(lay, s, id)
    requires !MayReplaceJob(lay, c, id)
    ensures JobCompleted(lay, Settle(lay, s, c), id)
  {
  }

  /** A completed job stays completed through any run that does not
      replace it; with tagged keys, any run without `create_job(id)`. */
  lemma {:induction false} RunKeepsCompleted(lay: Layout, s: State, calls: seq<Call>, id: Symbol)
    requires JobCompleted(lay, s, id)
    requires forall i | 0 <= i < |calls| :: !MayReplaceJob(lay, calls[i], id)
    ensures JobCompleted(lay, Run(lay, s, calls), id)
    decreases |calls|
  {
    if calls != [] {
      StepKeepsCompleted(lay, s, calls[0], id);
      RunKeepsCompleted(lay, Settle(lay, s, calls[0]), calls[1..], id);
    }
  }

  lemma StepKeepsSold(lay: Layout, s: State, c: Call, id: Symbol)
    requires ListingSold(lay, s, id)
    requires !MayReplaceListing(lay, c, id)
    ensures ListingSold(lay, Settle(lay, s, c), id)
  {
  }

  /** A sold listing stays sold through any run that does not replace it;
      with tagged keys, any run without `list_nft(id)`. */
  lemma {:induction false} RunKeepsSold(lay: Layout, s: State, calls: seq<Call>, id: Symbol)
    requires ListingSold(lay, s, id)
    requires forall i | 0 <= i < |calls| :: !MayReplaceListing(lay, calls[i], id)
    ensures ListingSold(lay, Run(lay, s, calls), id)
    decreases |calls|
  {
    if calls != [] {
      StepKeepsSold(lay, s, calls[0], id);
      RunKeepsSold(lay, Settle(lay, s, calls[0]), calls[1..], id);
    }
  }
}
