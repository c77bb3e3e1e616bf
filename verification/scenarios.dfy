/** The two end-to-end scenarios: a job paid out, and an NFT minted,
    listed and bought. The second one runs differently in the two layouts.
 */
module Scenarios {
  import opened Types
  import opened Store
  import opened JobContract
  import opened Trace

  const J1 := Symbol("J1")
  const N1 := Symbol("N1")
  const Alice := Address("A")
  const Bob := Address("B")
  const Carol := Address("C")
  const Dave := Address("D")

  const JobScenario := [CreateJobCall(J1, Carol, Dave, 100), CompleteJobCall(J1), ReleasePaymentCall(J1)]

  const NftScenario := [MintNftCall(N1, Alice, "ipfs://x"), ListNftCall(N1, 50), BuyNftCall(N1, Bob)]

  /** Create, complete and release a job: in either layout the payment is
      announced once and the job reads back completed. */
  lemma JobScenarioPays(lay: Layout)
    ensures var s := Run(lay, Empty, JobScenario);
            && s.events == [PaymentReleased(J1)]
            && GetJob(lay, s, J1) == Ok(Job(J1, Carol, Dave, 100, true))
  {
    var s1 := CreateJob(lay, Empty, J1, Carol, Dave, 100);
    var s2 := CompleteJob(lay, s1, J1).value;
    var s3 := ReleasePayment(lay, s2, J1).value;
    assert Settle(lay, Empty, JobScenario[0]) == s1;
    assert Settle(lay, s1, JobScenario[1]) == s2;
    assert Settle(lay, s2, JobScenario[2]) == s3;
    assert Run(lay, s2, JobScenario[2..]) == s3;
    assert Run(lay, s1, JobScenario[1..]) == s3;
  }

  /** As written, the purchase step aborts with `NotFound`: the listing has
      replaced the NFT, so `get_nft` finds nothing and `Alice`'s NFT is gone. */
  lemma SharedNftScenarioAborts()
    ensures var s := Run(Shared, Empty, NftScenario[..2]);
            && BuyNft(Shared, s, N1, Bob) == Err(NotFound)
            && Run(Shared, Empty, NftScenario) == s
            && GetNft(Shared, s, N1) == Err(NotFound)
            && s.events == []
  {
    var s1 := MintNft(Shared, Empty, N1, Alice, "ipfs://x");
    var s2 := ListNft(Shared, s1, N1, 50);
    assert Settle(Shared, Empty, NftScenario[0]) == s1;
    assert Settle(Shared, s1, NftScenario[1]) == s2;
    assert Run(Shared, s1, NftScenario[..2][1..]) == s2;
    assert BuyNft(Shared, s2, N1, Bob) == Err(NotFound);
    assert Settle(Shared, s2, NftScenario[2]) == s2;
    assert Run(Shared, s2, NftScenario[2..]) == s2;
    assert Run(Shared, s1, NftScenario[1..]) == s2;
  }

  /** With kind-tagged keys, the purchase hands the NFT to `Bob`, marks the
      listing `Sold`, announces the sale once, and a second purchase by
      `Carol` fails with `InvalidState`. */
  lemma TaggedNftScenarioSells()
    ensures var s := Run(Tagged, Empty, NftScenario);
            && GetNft(Tagged, s, N1) == Ok(Nft(N1, Bob, "ipfs://x"))
            && ListingOf(Tagged, s, N1) == Ok(Listing(N1, 50, Sold))
            && s.events == [NftSold(N1)]
            && BuyNft(Tagged, s, N1, Carol) == Err(InvalidState)
  {
    var s1 := MintNft(Tagged, Empty, N1, Alice, "ipfs://x");
    var s2 := ListNft(Tagged, s1, N1, 50);
    var s3 := BuyNft(Tagged, s2, N1, Bob).value;
    assert Settle(Tagged, Empty, NftScenario[0]) == s1;
    assert Settle(Tagged, s1, NftScenario[1]) == s2;
    assert Settle(Tagged, s2, NftScenario[2]) == s3;
    assert Run(Tagged, s2, NftScenario[2..]) == s3;
    assert Run(Tagged, s1, NftScenario[1..]) == s3;
  }
}
