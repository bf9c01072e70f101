/** Properties of the entity store that relate several calls, or that hold of
    the sample data. */
module StoreProperties {
  import opened Wrappers
  import opened Types
  import opened BlockchainService

  /** No two products share an id (what the store assumes but does not enforce). */
  ghost predicate UniqueIds(ps: seq<Product>) {
    forall i, j :: 0 <= i < j < |ps| ==> ps[i].id != ps[j].id
  }

  /** Every product's timeline in `before` is a prefix of the timeline at the
      same position in `after`. */
  ghost predicate TimelinesExtended(before: seq<Product>, after: seq<Product>) {
    |before| == |after| &&
    forall i :: 0 <= i < |before| ==> EventsOf(before[i]) <= EventsOf(after[i])
  }

  /** Seeding a second time changes nothing. */
  lemma SeedIdempotent(s: Storage)
    ensures Seed(Seed(s)) == Seed(s)
  {
  }

  /** The sample data a fresh store is seeded with. */
  lemma FreshSeed()
    ensures var s := Seed(Storage(None, None, None));
      |s.products.value| == 2 &&
      s.products.value[0].id == "prod-1234" && s.products.value[1].id == "prod-5678" &&
      |EventsOf(s.products.value[1])| == 3 && s.products.value[1].status == InTransitStatus &&
      |s.bids.value| == 2 && s.bids.value[0].id == "bid-1234" && s.bids.value[1].id == "bid-5678" &&
      |s.transfers.value| == 1 && s.transfers.value[0].id == "transfer-1234"
  {
  }

  /** A first match stays the first match when a record is appended. */
  lemma {:induction false} FirstMatchAppend(ps: seq<Product>, p: Product, id: string)
    ensures FirstMatch(ps + [p], id) ==
              if FirstMatch(ps, id).Some? then FirstMatch(ps, id)
              else if p.id == id then Some(|ps|) else None
  {
    if |ps| > 0 {
      assert (ps + [p])[1..] == ps[1..] + [p];
      FirstMatchAppend(ps[1..], p, id);
    }
  }

  /** A lookup after `registerProduct`: an id already present still finds the
      older record (a re-registered id is shadowed); otherwise the new record
      is found under its own id. */
  lemma LookupAfterRegister(ps: seq<Product>, p: Product, id: string)
    ensures FindById(ps + [p], id) ==
              if FindById(ps, id).Some? then FindById(ps, id)
              else if p.id == id then Some(p) else None
  {
    FirstMatchAppend(ps, p, id);
  }

  /** After `createCustodyTransfer` on an existing product, looking that id up
      yields the updated copy: status "In Transit", one event more. */
  lemma LookupAfterTransfer(ps: seq<Product>, input: TransferInput, today: string, k: nat)
    requires IsFirstMatch(ps, input.productId, k)
    ensures FindById(TransferSideEffect(ps, input, today), input.productId)
              == Some(WithTransferEvent(ps[k], input.from, input.to, today))
  {
  }

  /** The side effect keeps every product's id and position. */
  lemma TransferKeepsIds(ps: seq<Product>, input: TransferInput, today: string)
    ensures var r := TransferSideEffect(ps, input, today);
      |r| == |ps| && forall i :: 0 <= i < |ps| ==> r[i].id == ps[i].id
  {
  }

  /** With unique ids, every timeline is kept and only grows. */
  lemma TransferAppendOnlyWhenUnique(ps: seq<Product>, input: TransferInput, today: string)
    requires UniqueIds(ps)
    ensures TimelinesExtended(ps, TransferSideEffect(ps, input, today))
  {
  }

  /** Without unique ids the timeline is not append-only: a second product
      with the matched id gets the first one's timeline, and loses its own. */
  lemma DuplicateIdLosesHistory()
    ensures exists ps: seq<Product>, input: TransferInput, today: string ::
              !TimelinesExtended(ps, TransferSideEffect(ps, input, today))
  {
    var older := Event("Bid Accepted", "Transportation bid accepted", "2023-11-22");
    var first := Product("p", "A", "", "", "", RegisteredStatus, None, None, None, None);
    var second := first.(events := Some([older]));
    var ps := [first, second];
    var input := TransferInput("p", "X", "Y", None, None, None, None, None);
    var r := TransferSideEffect(ps, input, "2024-01-01");
    assert IsFirstMatch(ps, "p", 0);
    assert EventsOf(r[1])[0].title == TransferTitle;
    assert !(EventsOf(ps[1]) <= EventsOf(r[1]));
  }

  /** Caller-supplied `status` and `events` have no effect on registration. */
  lemma RegisterIgnoresCallerStatus(input: ProductInput, today: string,
                                    status: Option<string>, events: Option<seq<Event>>)
    ensures NewProduct(input.(status := status, events := events), today)
         == NewProduct(input, today)
  {
  }

  /** A bid on `prod-1234` against the sample products names "Organic Coffee
      Beans", is "Open", and gets a fresh "bid-" id. */
  lemma BidOnSampleProduct(suffix: string)
    ensures var input := BidInput("prod-1234", "Acme", "500", "A", "B", "2024-01-01",
                                  None, None, None);
      var b := NewBid(input, suffix, SampleProducts());
      b.productName == "Organic Coffee Beans" && b.status == OpenStatus &&
      b.id[..|BidPrefix|] == BidPrefix
  {
  }

  /** A bid on a product id that is not stored names the placeholder. */
  lemma BidOnUnknownProduct(ps: seq<Product>, input: BidInput, suffix: string)
    requires input.productName.None?
    requires forall i :: 0 <= i < |ps| ==> ps[i].id != input.productId
    ensures NewBid(input, suffix, ps).productName == UnknownProduct
  {
  }

  /** A transfer of `prod-1234` from "X" to "Y" against the sample products,
      then a lookup: "In Transit", with a last event naming "X" and "Y". */
  lemma TransferOfSampleProduct(today: string)
    ensures var input := TransferInput("prod-1234", "X", "Y", None, None, None, None, None);
      var p := FindById(TransferSideEffect(SampleProducts(), input, today), "prod-1234");
      p.Some? && p.value.status == InTransitStatus && |EventsOf(p.value)| == 2 &&
      EventsOf(p.value)[1].description == TransferDescription("X", "Y")
  {
  }

  /** A session on a fresh browser store, as the pages drive it. */
  method FreshSessionScenario(suffix: string, today: string)
  {
    var store := new Store(true, Storage(None, None, None));
    var first := store.GetAllProducts();
    FreshSeed();
    assert |first| == 2 && first[0].id == "prod-1234" && first[1].id == "prod-5678";
    var again := store.GetAllProducts();
    assert again == first;

    var bid := store.CreateBid(
      BidInput("prod-1234", "Acme", "500", "A", "B", "2024-01-01", None, None, None), suffix);
    BidOnSampleProduct(suffix);
    assert bid.Success? && bid.value.productName == "Organic Coffee Beans";
    assert store.products == Some(first);

    var transfer := store.CreateCustodyTransfer(
      TransferInput("prod-1234", "X", "Y", None, None, None, None, None), suffix, today);
    var found := store.GetProductById("prod-1234");
    TransferOfSampleProduct(today);
    assert found.Some? && found.value.status == InTransitStatus;

    var offline := new Store(false, Storage(None, None, None));
    var nothing := offline.GetProductById("prod-1234");
    var failed := offline.CreateBid(
      BidInput("prod-1234", "Acme", "500", "A", "B", "2024-01-01", None, None, None), suffix);
    assert nothing == None && failed.Failure? && offline.State() == Storage(None, None, None);
  }
}
