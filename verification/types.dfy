/** The record shapes of the job and NFT marketplace contract, and the
    error and result types its methods report through.
 */
module Types {

  /** A Soroban `Symbol`, used as a job id or an NFT id. Only its identity matters. */
  datatype Symbol = Symbol(name: string)

  /** A Soroban `Address`. Only its identity matters. */
  datatype Address = Address(name: string)

  /** Rust's `i128`. Prices are stored but never used in arithmetic. */
  newtype I128 = x: int | -0x8000_0000_0000_0000_0000_0000_0000_0000 <= x < 0x8000_0000_0000_0000_0000_0000_0000_0000

  datatype Role = Creator | Maker | Shopper

  datatype Account = Account(role: Role, address: Address)

  datatype Job = Job(id: Symbol, creator: Address, maker: Address, price: I128, isCompleted: bool)

  datatype Nft = Nft(id: Symbol, owner: Address, metadata: string)

  datatype ListingStatus = Listed | Sold

  datatype Listing = Listing(nftId: Symbol, price: I128, status: ListingStatus)

  /** What one storage slot can hold: the store is untyped, so every record
      kind shares one value space. */
  datatype Value =
    | AccountValue(account: Account)
    | JobValue(job: Job)
    | NftValue(nft: Nft)
    | ListingValue(listing: Listing)

  /** The two notifications the contract emits, each carrying one id. */
  datatype Event = PaymentReleased(jobId: Symbol) | NftSold(nftId: Symbol)

  /** The two ways a call aborts. A `panic!` or failed `unwrap` becomes one of these. */
  datatype Error = NotFound | InvalidState

  /** The outcome of a call that may abort; usable with `:-`. */
  datatype Result<+T> = Ok(value: T) | Err(error: Error) {

    predicate IsFailure() {
      Err?
    }

    function PropagateFailure<U>(): Result<U>
      requires Err?
    {
      Err(error)
    }

    function Extract(): T
      requires Ok?
    {
      value
    }
  }
}
