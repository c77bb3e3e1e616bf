/** Properties that relate several calls of `JobContract`, and the
    consequences of the shared key space the contract stores records in.
 */
module Properties {
  import opened Types
  import opened Store
  import opened JobContract

  // ---------------------------------------------------------------------
  // Accounts
  // ---------------------------------------------------------------------

  /** A second `create_account` at the same address silently replaces the first. */
  lemma CreateAccountOverwrites(s: State, role: Role, role': Role, address: Address)
    ensures GetAccount(CreateAccount(CreateAccount(s, role, address), role', address), address)
            == Ok(Account(role', address))
  {
  }

  // ---------------------------------------------------------------------
  // Jobs
  // ---------------------------------------------------------------------

  /** `complete_job` twice leaves the same state as once. */
  lemma CompleteJobIdempotent(lay: Layout, s: State, id: Symbol)
    ensures CompleteJob(lay, s, id).Ok? ==>
              CompleteJob(lay, CompleteJob(lay, s, id).value, id) == CompleteJob(lay, s, id)
  {
    if CompleteJob(lay, s, id).Ok? {
      var s1 := CompleteJob(lay, s, id).value;
      var k := JobKey(lay, id);
      var job1 := GetJob(lay, s1, id).value;
      assert job1.(isCompleted := true) == job1;
      assert s1.store[k := JobValue(job1)] == s1.store;
    }
  }

  /** Once `release_payment` succeeds it keeps succeeding: nothing records
      that the job was paid, and each call appends one more notification. */
  lemma ReleasePaymentRepeatable(lay: Layout, s: State, id: Symbol)
    requires ReleasePayment(lay, s, id).Ok?
    ensures var s' := ReleasePayment(lay, s, id).value;
            && ReleasePayment(lay, s', id).Ok?
            && ReleasePayment(lay, s', id).value.events == s.events + [PaymentReleased(id), PaymentReleased(id)]
  {
  }

  /** A freshly created job cannot be paid out until it is completed, and can be afterwards. */
  lemma PaymentGatedOnCompletion(lay: Layout, s: State, id: Symbol, creator: Address, maker: Address, price: I128)
    ensures ReleasePayment(lay, CreateJob(lay, s, id, creator, maker, price), id) == Err(InvalidState)
    ensures var s' := CompleteJob(lay, CreateJob(lay, s, id, creator, maker, price), id);
            s'.Ok? && ReleasePayment(lay, s'.value, id).Ok?
  {
  }

  // ---------------------------------------------------------------------
  // NFTs and listings
  // ---------------------------------------------------------------------

  /** As written, listing an NFT replaces the NFT record: afterwards
      `get_nft` finds nothing under that id. */
  lemma SharedListHidesNft(s: State, id: Symbol, price: I128)
    ensures GetNft(Shared, ListNft(Shared, s, id, price), id) == Err(NotFound)
  {
  }

  /** With kind-tagged keys, listing leaves the NFT record as it was. */
  lemma TaggedListKeepsNft(s: State, id: Symbol, price: I128)
    ensures GetNft(Tagged, ListNft(Tagged, s, id, price), id) == GetNft(Tagged, s, id)
  {
  }

  /** As written, `buy_nft` never succeeds: the listing and the NFT are read
      from one key, which holds at most one of them. With a `Listed` listing
      under the key, the second read aborts with `NotFound`. */
  lemma SharedBuyNeverSucceeds(s: State, id: Symbol, buyer: Address)
    ensures BuyNft(Shared, s, id, buyer).Err?
    ensures ListingOf(Shared, s, id).Ok? && ListingOf(Shared, s, id).value.status == Listed ==>
              BuyNft(Shared, s, id, buyer) == Err(NotFound)
  {
  }

  /** As written, even the two writes of a purchase would lose the sold
      listing: the NFT written second replaces it under the shared key. */
  lemma SharedCommitLosesListing(st: Store, id: Symbol, sold: Listing, nft: Nft)
    ensures var st' := CommitPurchase(st, ListingKey(Shared, id), NftKey(Shared, id), sold, nft);
            LoadListing(st', ListingKey(Shared, id)) == Err(NotFound) && LoadNft(st', NftKey(Shared, id)) == Ok(nft)
  {
  }

  /** With kind-tagged keys, `buy_nft` succeeds exactly when a `Listed`
      listing and the NFT both exist; it then hands the NFT to the buyer,
      marks the listing `Sold`, and a second purchase fails with `InvalidState`. */
  lemma TaggedBuyTransfers(s: State, id: Symbol, buyer: Address, buyer': Address)
    ensures BuyNft(Tagged, s, id, buyer).Ok? <==>
              && ListingOf(Tagged, s, id).Ok?
              && ListingOf(Tagged, s, id).value.status == Listed
              && GetNft(Tagged, s, id).Ok?
    ensures BuyNft(Tagged, s, id, buyer).Ok? ==>
              var s' := BuyNft(Tagged, s, id, buyer).value;
              && GetNft(Tagged, s', id).Ok?
              && GetNft(Tagged, s', id).value.owner == buyer
              && ListingOf(Tagged, s', id).Ok?
              && ListingOf(Tagged, s', id).value.status == Sold
              && BuyNft(Tagged, s', id, buyer') == Err(InvalidState)
  {
  }

  /** As written, job ids and NFT ids share one key space: minting an NFT
      under a job's id destroys the job, and `complete_job` then aborts. */
  lemma SharedMintClobbersJob(s: State, id: Symbol, creator: Address, maker: Address, price: I128, owner: Address, metadata: string)
    ensures var s' := MintNft(Shared, CreateJob(Shared, s, id, creator, maker, price), id, owner, metadata);
            GetJob(Shared, s', id) == Err(NotFound) && CompleteJob(Shared, s', id) == Err(NotFound)
  {
  }

  /** With kind-tagged keys, minting or listing never disturbs a job. */
  lemma TaggedMintKeepsJob(s: State, id: Symbol, id': Symbol, owner: Address, metadata: string, price: I128)
    ensures GetJob(Tagged, MintNft(Tagged, s, id', owner, metadata), id) == GetJob(Tagged, s, id)
    ensures GetJob(Tagged, ListNft(Tagged, s, id', price), id) == GetJob(Tagged, s, id)
  {
  }
}
