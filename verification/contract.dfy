/** The ten methods of `JobContract`. Each is a pure function of the state
    before the call; a call that would panic returns `Err` and, since the
    host discards an aborted call, leaves the state as it was.
 */
module JobContract {
  import opened Types
  import opened Store

  // ---------------------------------------------------------------------
  // Getters
  // ---------------------------------------------------------------------

  /** `get_account`: the account stored under `address`. */
  function GetAccount(s: State, address: Address): (r: Result<Account>)
    ensures r.Ok? <==> AccountKey(address) in s.store && s.store[AccountKey(address)].AccountValue?
    ensures r.Ok? ==> s.store[AccountKey(address)] == AccountValue(r.value)
    ensures r.Err? ==> r.error == NotFound
  {
    LoadAccount(s.store, AccountKey(address))
  }

  /** `get_job`: the job stored under `id`. */
  function GetJob(lay: Layout, s: State, id: Symbol): (r: Result<Job>)
    ensures r.Ok? <==> JobKey(lay, id) in s.store && s.store[JobKey(lay, id)].JobValue?
    ensures r.Ok? ==> s.store[JobKey(lay, id)] == JobValue(r.value)
    ensures r.Err? ==> r.error == NotFound
  {
    LoadJob(s.store, JobKey(lay, id))
  }

  /** `get_nft`: the NFT stored under `id`. */
  function GetNft(lay: Layout, s: State, id: Symbol): (r: Result<Nft>)
    ensures r.Ok? <==> NftKey(lay, id) in s.store && s.store[NftKey(lay, id)].NftValue?
    ensures r.Ok? ==> s.store[NftKey(lay, id)] == NftValue(r.value)
    ensures r.Err? ==> r.error == NotFound
  {
    LoadNft(s.store, NftKey(lay, id))
  }

  /** The listing of NFT `id`, read the way `buy_nft` reads it. The contract
      has no getter for listings; this is the observation the properties use. */
  function ListingOf(lay: Layout, s: State, id: Symbol): (r: Result<Listing>)
    ensures r.Ok? <==> ListingKey(lay, id) in s.store && s.store[ListingKey(lay, id)].ListingValue?
    ensures r.Ok? ==> s.store[ListingKey(lay, id)] == ListingValue(r.value)
    ensures r.Err? ==> r.error == NotFound
  {
    LoadListing(s.store, ListingKey(lay, id))
  }

  // ---------------------------------------------------------------------
  // Accounts
  // ---------------------------------------------------------------------

  /** `create_account`: stores the account under its address, replacing
      whatever was there. */
  function CreateAccount(s: State, role: Role, address: Address): (r: State)
    ensures GetAccount(r, address) == Ok(Account(role, address))
    ensures UnchangedExcept(s.store, r.store, {AccountKey(address)})
    ensures r.events == s.events
  {
    s.(store := s.store[AccountKey(address) := AccountValue(Account(role, address))])
  }

  // ---------------------------------------------------------------------
  // Jobs
  // ---------------------------------------------------------------------

  /** `create_job`: stores a fresh, not yet completed job under `id`,
      replacing whatever was there. */
  function CreateJob(lay: Layout, s: State, id: Symbol, creator: Address, maker: Address, price: I128): (r: State)
    ensures GetJob(lay, r, id) == Ok(Job(id, creator, maker, price, false))
    ensures UnchangedExcept(s.store, r.store, {JobKey(lay, id)})
    ensures r.events == s.events
  {
    var job := Job(id, creator, maker, price, false);
    s.(store := s.store[JobKey(lay, id) := JobValue(job)])
  }

  /** `complete_job`: marks the job under `id` completed; aborts with
      `NotFound` when there is none. */
  function CompleteJob(lay: Layout, s: State, id: Symbol): (r: Result<State>)
    ensures GetJob(lay, s, id).Err? ==> r == Err(NotFound)
    ensures GetJob(lay, s, id).Ok? ==> r.Ok?
    ensures r.Ok? ==> var job := GetJob(lay, s, id).value;
                      && GetJob(lay, r.value, id) == Ok(Job(job.id, job.creator, job.maker, job.price, true))
                      && UnchangedExcept(s.store, r.value.store, {JobKey(lay, id)})
                      && r.value.events == s.events
  {
    var job :- GetJob(lay, s, id);
    Ok(s.(store := s.store[JobKey(lay, id) := JobValue(job.(isCompleted := true))]))
  }

  /** `release_payment`: emits `PaymentReleased(id)` when the job under `id`
      is completed. No funds move and nothing is recorded as paid. */
  function ReleasePayment(lay: Layout, s: State, id: Symbol): (r: Result<State>)
    ensures r.Ok? <==> GetJob(lay, s, id).Ok? && GetJob(lay, s, id).value.isCompleted
    ensures GetJob(lay, s, id).Err? ==> r == Err(NotFound)
    ensures GetJob(lay, s, id).Ok? && !GetJob(lay, s, id).value.isCompleted ==> r == Err(InvalidState)
    ensures r.Ok? ==> r.value.store == s.store && r.value.events == s.events + [PaymentReleased(id)]
  {
    var job :- GetJob(lay, s, id);
    if job.isCompleted then
      Ok(s.(events := s.events + [PaymentReleased(id)]))
    else
      Err(InvalidState)
  }

  // ---------------------------------------------------------------------
  // NFTs and the marketplace
  // ---------------------------------------------------------------------

  /** `mint_nft`: stores the NFT under `id`, replacing whatever was there. */
  function MintNft(lay: Layout, s: State, id: Symbol, owner: Address, metadata: string): (r: State)
    ensures GetNft(lay, r, id) == Ok(Nft(id, owner, metadata))
    ensures UnchangedExcept(s.store, r.store, {NftKey(lay, id)})
    ensures r.events == s.events
  {
    s.(store := s.store[NftKey(lay, id) := NftValue(Nft(id, owner, metadata))])
  }

  /** `list_nft`: stores a `Listed` listing for `id`, replacing whatever was
      there. Neither the NFT's existence nor its owner is checked. */
  function ListNft(lay: Layout, s: State, id: Symbol, price: I128): (r: State)
    ensures ListingOf(lay, r, id) == Ok(Listing(id, price, Listed))
    ensures UnchangedExcept(s.store, r.store, {ListingKey(lay, id)})
    ensures r.events == s.events
  {
    s.(store := s.store[ListingKey(lay, id) := ListingValue(Listing(id, price, Listed))])
  }

  /** The two writes that close a purchase, in the contract's order: the
      sold listing first, then the NFT. When both keys are the same the
      second write replaces the first and the listing is lost. */
  function CommitPurchase(st: Store, lk: Key, nk: Key, sold: Listing, nft: Nft): (st': Store)
    ensures LoadNft(st', nk) == Ok(nft)
    ensures lk != nk ==> LoadListing(st', lk) == Ok(sold)
    ensures lk == nk ==> LoadListing(st', lk).Err?
    ensures UnchangedExcept(st, st', {lk, nk})
  {
    st[lk := ListingValue(sold)][nk := NftValue(nft)]
  }

  /** `buy_nft`: reads the listing for `id` (`NotFound` if none), requires it
      to be `Listed` (`InvalidState` otherwise), reads the NFT for `id`
      (`NotFound` if none), then records the sale, hands the NFT to `buyer`
      and emits `NftSold(id)`. Both reads see the store as it was before the call. */
  function BuyNft(lay: Layout, s: State, id: Symbol, buyer: Address): (r: Result<State>)
    ensures ListingOf(lay, s, id).Err? ==> r == Err(NotFound)
    ensures ListingOf(lay, s, id).Ok? && ListingOf(lay, s, id).value.status == Sold ==> r == Err(InvalidState)
    ensures ListingOf(lay, s, id).Ok? && ListingOf(lay, s, id).value.status == Listed ==>
              (r.Ok? <==> GetNft(lay, s, id).Ok?) && (r.Err? ==> r.error == NotFound)
    ensures r.Ok? ==> var nft := GetNft(lay, s, id).value;
                      && GetNft(lay, r.value, id) == Ok(Nft(nft.id, buyer, nft.metadata))
                      && r.value.events == s.events + [NftSold(id)]
                      && UnchangedExcept(s.store, r.value.store, {ListingKey(lay, id), NftKey(lay, id)})
    ensures r.Ok? && ListingKey(lay, id) != NftKey(lay, id) ==>
              var listing := ListingOf(lay, s, id).value;
              ListingOf(lay, r.value, id) == Ok(Listing(listing.nftId, listing.price, Sold))
  {
    var listing :- ListingOf(lay, s, id);
    if listing.status == Listed then
      var sold := listing.(status := Sold);
      var nft :- GetNft(lay, s, id);
      var store' := CommitPurchase(s.store, ListingKey(lay, id), NftKey(lay, id), sold, nft.(owner := buyer));
      Ok(State(store', s.events + [NftSold(id)]))
    else
      Err(InvalidState)
  }
}
