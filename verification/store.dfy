/** The contract's persistent key-value store, the key layouts records are
    placed under, and the typed loads that read records back.
 */
module Store {
  import opened Types

  /** The record kinds that are keyed by a `Symbol`. */
  datatype Kind = JobKind | NftKind | ListingKind

  /** A storage key. As written, the contract keys records by a bare
      `Symbol` or a bare `Address`; the tagged form pairs a kind with an id. */
  datatype Key =
    | SymbolKey(symbol: Symbol)
    | AddressKey(address: Address)
    | TaggedKey(kind: Kind, id: Symbol)

  /** Where records go. `Shared` is the layout the contract uses: jobs, NFTs
      and listings all sit under their bare id, so they share one key space.
      `Tagged` gives each kind a key space of its own. */
  datatype Layout = Shared | Tagged

  type Store = map<Key, Value>

  /** Everything a call can change: the store and the emitted event log. */
  datatype State = State(store: Store, events: seq<Event>)

  const Empty := State(map[], [])

  /** The key of the account at `address` (the address itself). It never
      coincides with the key of a job, an NFT or a listing, in either layout. */
  function AccountKey(address: Address): (k: Key)
    ensures forall lay, id :: k != JobKey(lay, id) && k != NftKey(lay, id) && k != ListingKey(lay, id)
  {
    AddressKey(address)
  }

  /** The key of the job `id`. It is the NFT's and the listing's key for the
      same id exactly in the shared layout. */
  function JobKey(lay: Layout, id: Symbol): (k: Key)
    ensures k == NftKey(lay, id) <==> lay == Shared
    ensures k == ListingKey(lay, id) <==> lay == Shared
  {
    match lay
    case Shared => SymbolKey(id)
    case Tagged => TaggedKey(JobKind, id)
  }

  /** The key of the NFT `id`. It is the listing's key for the same id
      exactly in the shared layout. */
  function NftKey(lay: Layout, id: Symbol): (k: Key)
    ensures k == ListingKey(lay, id) <==> lay == Shared
  {
    match lay
    case Shared => SymbolKey(id)
    case Tagged => TaggedKey(NftKind, id)
  }

  /** The key of the listing of NFT `id`: derived from the NFT id alone,
      never an address. */
  function ListingKey(lay: Layout, id: Symbol): (k: Key)
    ensures (k.SymbolKey? && k.symbol == id) || (k.TaggedKey? && k.id == id)
  {
    match lay
    case Shared => SymbolKey(id)
    case Tagged => TaggedKey(ListingKind, id)
  }

  /** As written, a job, an NFT and a listing with the same id collide. */
  lemma SharedKeysCollide(id: Symbol)
    ensures JobKey(Shared, id) == NftKey(Shared, id) == ListingKey(Shared, id)
  {
  }

  /** In the tagged layout no two kinds ever share a key, and accounts never
      share a key with any of them. */
  lemma TaggedKeysDisjoint(id: Symbol, id': Symbol, a: Address)
    ensures JobKey(Tagged, id) != NftKey(Tagged, id')
    ensures JobKey(Tagged, id) != ListingKey(Tagged, id')
    ensures NftKey(Tagged, id) != ListingKey(Tagged, id')
    ensures AccountKey(a) !in {JobKey(Tagged, id), NftKey(Tagged, id), ListingKey(Tagged, id)}
  {
  }

  /** Reads an `Account` back: fails when the key is absent or holds another kind of record. */
  function LoadAccount(st: Store, k: Key): (r: Result<Account>)
    ensures r.Ok? <==> k in st && st[k].AccountValue?
    ensures r.Ok? ==> st[k] == AccountValue(r.value)
    ensures r.Err? ==> r.error == NotFound
  {
    if k in st && st[k].AccountValue? then Ok(st[k].account) else Err(NotFound)
  }

  /** Reads a `Job` back: fails when the key is absent or holds another kind of record. */
  function LoadJob(st: Store, k: Key): (r: Result<Job>)
    ensures r.Ok? <==> k in st && st[k].JobValue?
    ensures r.Ok? ==> st[k] == JobValue(r.value)
    ensures r.Err? ==> r.error == NotFound
  {
    if k in st && st[k].JobValue? then Ok(st[k].job) else Err(NotFound)
  }

  /** Reads an `Nft` back: fails when the key is absent or holds another kind of record. */
  function LoadNft(st: Store, k: Key): (r: Result<Nft>)
    ensures r.Ok? <==> k in st && st[k].NftValue?
    ensures r.Ok? ==> st[k] == NftValue(r.value)
    ensures r.Err? ==> r.error == NotFound
  {
    if k in st && st[k].NftValue? then Ok(st[k].nft) else Err(NotFound)
  }

  /** Reads a `Listing` back: fails when the key is absent or holds another kind of record. */
  function LoadListing(st: Store, k: Key): (r: Result<Listing>)
    ensures r.Ok? <==> k in st && st[k].ListingValue?
    ensures r.Ok? ==> st[k] == ListingValue(r.value)
    ensures r.Err? ==> r.error == NotFound
  {
    if k in st && st[k].ListingValue? then Ok(st[k].listing) else Err(NotFound)
  }

  /** `st'` agrees with `st` on every key outside `ks`. */
  predicate UnchangedExcept(st: Store, st': Store, ks: set<Key>) {
    st - ks == st' - ks
  }
}
