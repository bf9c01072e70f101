/** The entity store of lib/blockchain-service.ts: three collections
    (products, bids, custody transfers), each stored under its own key that
    is either absent or holds a sequence of records. Every call first seeds
    absent keys; each create call then rewrites the collections it changes
    whole. The random id suffix and the current date are parameters;
    the JSON round trip through the key-value store is the identity. */
module BlockchainService {
  import opened Wrappers
  import opened Types

  const RegisteredStatus: string := "Registered"
  const InTransitStatus: string := "In Transit"
  const OpenStatus: string := "Open"
  const PendingStatus: string := "Pending"
  const UnknownProduct: string := "Unknown Product"
  const RegisteredTitle: string := "Product Registered"
  const RegisteredDescription: string := "Product registered on the blockchain"
  const TransferTitle: string := "Custody Transfer Initiated"
  const BidPrefix: string := "bid-"
  const TransferPrefix: string := "transfer-"
  /** The message of the error thrown when there is no storage. */
  const CannotAccessStorage: string := "Cannot access storage"

  /** The fields a caller hands to `registerProduct`. `status` and `events`
      may be supplied but are always overridden. */
  datatype ProductInput = ProductInput(
    id: string,
    name: string,
    description: string,
    manufacturer: string,
    manufactureDate: string,
    lastUpdated: Option<string>,
    status: Option<string>,
    events: Option<seq<Event>>,
    bids: Option<seq<Bid>>,
    custodyTransfers: Option<seq<CustodyTransfer>>)

  /** The fields a caller hands to `createBid`; `id`, `productName` and
      `status`, when present, win over the store's defaults. */
  datatype BidInput = BidInput(
    productId: string,
    carrier: string,
    amount: string,
    origin: string,
    destination: string,
    deadline: string,
    id: Option<string>,
    productName: Option<string>,
    status: Option<string>)

  /** The fields a caller hands to `createCustodyTransfer`; `id`,
      `productName`, `date` and `status`, when present, win over the
      store's defaults. */
  datatype TransferInput = TransferInput(
    productId: string,
    from: string,
    to: string,
    notes: Option<string>,
    id: Option<string>,
    productName: Option<string>,
    date: Option<string>,
    status: Option<string>)

  /** The three storage keys; `None` is a key that was never written. */
  datatype Storage = Storage(
    products: Option<seq<Product>>,
    bids: Option<seq<Bid>>,
    transfers: Option<seq<CustodyTransfer>>)

  // ---------------------------------------------------------------------
  // Sample data written on first use

  function SampleProducts(): seq<Product> {
    [ Product("prod-1234", "Organic Coffee Beans", "Premium organic coffee beans from Colombia",
              "Green Farms Co.", "2023-10-15", RegisteredStatus, None,
              Some([Event(RegisteredTitle, RegisteredDescription, "2023-10-15")]), None, None),
      Product("prod-5678", "Electronics Package", "High-end electronics shipment",
              "TechGiant Inc.", "2023-11-20", InTransitStatus, None,
              Some([Event(RegisteredTitle, RegisteredDescription, "2023-11-20"),
                    Event("Bid Accepted", "Transportation bid accepted", "2023-11-22"),
                    Event("Custody Transferred", "Custody transferred to carrier", "2023-11-25")]),
              None, None) ]
  }

  function SampleBids(): seq<Bid> {
    [ Bid("bid-1234", "prod-5678", "Electronics Package", "FastShip Logistics", "1200",
          "Seattle, WA", "Chicago, IL", "2023-12-15", "Accepted"),
      // The origin is stored as the program text has it: "Bogot" followed by
      // U+221A and U+00B0 (a mis-encoded "\U{E1}").
      Bid("bid-5678", "prod-1234", "Organic Coffee Beans", "EcoTransport", "800",
          "Bogot\U{221A}\U{B0}, Colombia", "Miami, FL", "2023-12-20", OpenStatus) ]
  }

  function SampleTransfers(): seq<CustodyTransfer> {
    [ CustodyTransfer("transfer-1234", "prod-5678", "Electronics Package", "TechGiant Inc.",
                      "FastShip Logistics", "2023-11-25", "Completed", None) ]
  }

  /** `initializeStorage` on a store that has storage: each key is seeded
      with its sample collection when absent and left as it is when present. */
  function Seed(s: Storage): (r: Storage)
    ensures r.products.Some? && r.bids.Some? && r.transfers.Some?
    ensures s.products.Some? ==> r.products == s.products
    ensures s.bids.Some? ==> r.bids == s.bids
    ensures s.transfers.Some? ==> r.transfers == s.transfers
    ensures s.products.None? ==> r.products.value == SampleProducts()
    ensures s.bids.None? ==> r.bids.value == SampleBids()
    ensures s.transfers.None? ==> r.transfers.value == SampleTransfers()
  {
    Storage(
      if s.products.None? then Some(SampleProducts()) else s.products,
      if s.bids.None? then Some(SampleBids()) else s.bids,
      if s.transfers.None? then Some(SampleTransfers()) else s.transfers)
  }

  // ---------------------------------------------------------------------
  // Lookups: `products.find(p => p.id === id)`

  /** `k` is the index of the first product whose id is `id`. */
  ghost predicate IsFirstMatch(ps: seq<Product>, id: string, k: int) {
    0 <= k < |ps| && ps[k].id == id && forall j :: 0 <= j < k ==> ps[j].id != id
  }

  /** The index a left-to-right linear search by id stops at, if any. */
  function FirstMatch(ps: seq<Product>, id: string): (k: Option<nat>)
    ensures k.Some? ==> IsFirstMatch(ps, id, k.value)
    ensures k.None? ==> forall i :: 0 <= i < |ps| ==> ps[i].id != id
  {
    if |ps| == 0 then None
    else if ps[0].id == id then Some(0)
    else
      match FirstMatch(ps[1..], id)
      case None => None
      case Some(k) => Some(k + 1)
  }

  /** `find` by id: the first product with that id, or `None` (JavaScript's
      `undefined`, turned into `null` by `getProductById`). */
  function FindById(ps: seq<Product>, id: string): (r: Option<Product>)
    ensures r.None? <==> forall i :: 0 <= i < |ps| ==> ps[i].id != id
    ensures forall k :: IsFirstMatch(ps, id, k) ==> r == Some(ps[k])
  {
    match FirstMatch(ps, id)
    case None => None
    case Some(k) => Some(ps[k])
  }

  /** `product?.name || "Unknown Product"`: a missing product and an empty
      name both give the placeholder. */
  function ResolveName(ps: seq<Product>, id: string): (r: string)
    ensures r != ""
    ensures (forall i :: 0 <= i < |ps| ==> ps[i].id != id) ==> r == UnknownProduct
    ensures forall k :: IsFirstMatch(ps, id, k) ==>
              r == if ps[k].name == "" then UnknownProduct else ps[k].name
  {
    var found := FindById(ps, id);
    if found.Some? && found.value.name != "" then found.value.name else UnknownProduct
  }

  // ---------------------------------------------------------------------
  // Records built by the create operations

  /** `{ ...productData, status: "Registered", events: [seed event] }`. */
  function NewProduct(input: ProductInput, today: string): (r: Product)
    ensures r.id == input.id && r.name == input.name && r.description == input.description
    ensures r.manufacturer == input.manufacturer && r.manufactureDate == input.manufactureDate
    ensures r.lastUpdated == input.lastUpdated && r.bids == input.bids
    ensures r.custodyTransfers == input.custodyTransfers
    ensures r.status == RegisteredStatus
    ensures |EventsOf(r)| == 1 && r.events.Some?
    ensures EventsOf(r)[0].title == RegisteredTitle && EventsOf(r)[0].timestamp == today
    ensures EventsOf(r)[0].description == RegisteredDescription
  {
    Product(input.id, input.name, input.description, input.manufacturer, input.manufactureDate,
            RegisteredStatus, input.lastUpdated,
            Some([Event(RegisteredTitle, RegisteredDescription, today)]),
            input.bids, input.custodyTransfers)
  }

  /** `{ id: "bid-" + suffix, productName: ..., status: "Open", ...bidData }`:
      every default comes before the spread, so a caller field wins. */
  function NewBid(input: BidInput, suffix: string, ps: seq<Product>): (r: Bid)
    ensures input.id.None? ==> r.id == BidPrefix + suffix
    ensures input.id.Some? ==> r.id == input.id.value
    ensures input.productName.None? ==> r.productName == ResolveName(ps, input.productId)
    ensures input.productName.Some? ==> r.productName == input.productName.value
    ensures input.status.None? ==> r.status == OpenStatus
    ensures input.status.Some? ==> r.status == input.status.value
    ensures r.productId == input.productId && r.carrier == input.carrier
    ensures r.amount == input.amount && r.origin == input.origin
    ensures r.destination == input.destination && r.deadline == input.deadline
  {
    Bid(input.id.GetOr(BidPrefix + suffix), input.productId,
        input.productName.GetOr(ResolveName(ps, input.productId)),
        input.carrier, input.amount, input.origin, input.destination, input.deadline,
        input.status.GetOr(OpenStatus))
  }

  /** `{ id: "transfer-" + suffix, productName: ..., date: today,
      status: "Pending", ...transferData }`. */
  function NewTransfer(input: TransferInput, suffix: string, today: string, ps: seq<Product>)
    : (r: CustodyTransfer)
    ensures input.id.None? ==> r.id == TransferPrefix + suffix
    ensures input.id.Some? ==> r.id == input.id.value
    ensures input.productName.None? ==> r.productName == ResolveName(ps, input.productId)
    ensures input.productName.Some? ==> r.productName == input.productName.value
    ensures input.date.None? ==> r.date == today
    ensures input.date.Some? ==> r.date == input.date.value
    ensures input.status.None? ==> r.status == PendingStatus
    ensures input.status.Some? ==> r.status == input.status.value
    ensures r.productId == input.productId && r.from == input.from && r.to == input.to
    ensures r.notes == input.notes
  {
    CustodyTransfer(input.id.GetOr(TransferPrefix + suffix), input.productId,
                    input.productName.GetOr(ResolveName(ps, input.productId)),
                    input.from, input.to, input.date.GetOr(today),
                    input.status.GetOr(PendingStatus), input.notes)
  }

  // ---------------------------------------------------------------------
  // The custody-transfer side effect on products

  /** `Custody transfer from ${from} to ${to}`. */
  function TransferDescription(from: string, to: string): (d: string)
    ensures |d| == 22 + |from| + 4 + |to|
    ensures d[..22] == "Custody transfer from "
    ensures d[22..22 + |from|] == from
    ensures d[22 + |from|..|d| - |to|] == " to "
    ensures d[|d| - |to|..] == to
  {
    "Custody transfer from " + from + " to " + to
  }

  /** The found product after `status = "In Transit"` and
      `events = [...(events || []), transfer event]`. */
  function WithTransferEvent(p: Product, from: string, to: string, today: string): (r: Product)
    ensures r.(status := p.status, events := p.events) == p
    ensures r.status == InTransitStatus && r.events.Some?
    ensures |EventsOf(r)| == |EventsOf(p)| + 1
    ensures EventsOf(r)[..|EventsOf(p)|] == EventsOf(p)
    ensures EventsOf(r)[|EventsOf(p)|] == Event(TransferTitle, TransferDescription(from, to), today)
  {
    p.(status := InTransitStatus,
       events := Some(EventsOf(p) + [Event(TransferTitle, TransferDescription(from, to), today)]))
  }

  /** `products.map(p => p.id === id ? q : p)`. */
  function ReplaceById(ps: seq<Product>, id: string, q: Product): (r: seq<Product>)
    ensures |r| == |ps|
    ensures forall i :: 0 <= i < |ps| ==> r[i] == if ps[i].id == id then q else ps[i]
  {
    if |ps| == 0 then []
    else [if ps[0].id == id then q else ps[0]] + ReplaceById(ps[1..], id, q)
  }

  /** The products collection after `createCustodyTransfer`: the first product
      with the transfer's product id gets the update, and every product with
      that id is replaced by the updated copy. */
  function TransferSideEffect(ps: seq<Product>, input: TransferInput, today: string)
    : (r: seq<Product>)
    ensures |r| == |ps|
    ensures (forall i :: 0 <= i < |ps| ==> ps[i].id != input.productId) ==> r == ps
    ensures forall k, i :: IsFirstMatch(ps, input.productId, k) && 0 <= i < |ps| ==>
              r[i] == if ps[i].id == input.productId
                      then WithTransferEvent(ps[k], input.from, input.to, today)
                      else ps[i]
  {
    match FirstMatch(ps, input.productId)
    case None => ps
    case Some(k) =>
      var updated := WithTransferEvent(ps[k], input.from, input.to, today);
      ReplaceById(ps, updated.id, updated)
  }

  // ---------------------------------------------------------------------
  // The store

  /** The key-value store as seen by the service. `hasStorage` is false when
      the code runs where there is no browser window: reads then return
      empty results and creates throw. */
  class Store {
    const hasStorage: bool
    var products: Option<seq<Product>>
    var bids: Option<seq<Bid>>
    var transfers: Option<seq<CustodyTransfer>>

    /** A store over whatever the three keys already hold. */
    constructor (hasStorage: bool, stored: Storage)
      ensures this.hasStorage == hasStorage && State() == stored
    {
      this.hasStorage := hasStorage;
      products, bids, transfers := stored.products, stored.bids, stored.transfers;
    }

    function State(): Storage
      reads this
    {
      Storage(products, bids, transfers)
    }

    /** `initializeStorage`. */
    method Initialize()
      modifies this
      ensures hasStorage ==> State() == Seed(old(State()))
      ensures !hasStorage ==> State() == old(State())
    {
      if !hasStorage { return; }
      if products.None? { products := Some(SampleProducts()); }
      if bids.None? { bids := Some(SampleBids()); }
      if transfers.None? { transfers := Some(SampleTransfers()); }
    }

    /** `getAllProducts`. */
    method GetAllProducts() returns (r: seq<Product>)
      modifies this
      ensures hasStorage ==> State() == Seed(old(State())) && Some(r) == products
      ensures !hasStorage ==> r == [] && State() == old(State())
    {
      if !hasStorage { return []; }
      Initialize();
      r := products.GetOr([]);
    }

    /** `getProductById`. */
    method GetProductById(id: string) returns (r: Option<Product>)
      modifies this
      ensures hasStorage ==> State() == Seed(old(State())) &&
                             r == FindById(products.value, id)
      ensures !hasStorage ==> r == None && State() == old(State())
    {
      if !hasStorage { return None; }
      Initialize();
      var parsed := products.GetOr([]);
      r := FindById(parsed, id);
    }

    /** `registerProduct`. */
    method RegisterProduct(input: ProductInput, today: string) returns (r: Result<Product, string>)
      modifies this
      ensures !hasStorage ==> r == Failure(CannotAccessStorage) && State() == old(State())
      ensures hasStorage ==> r == Success(NewProduct(input, today))
      ensures hasStorage ==> products == Some(Seed(old(State())).products.value + [r.value])
      ensures hasStorage ==> bids == Seed(old(State())).bids
      ensures hasStorage ==> transfers == Seed(old(State())).transfers
    {
      if !hasStorage { return Failure(CannotAccessStorage); }
      Initialize();
      var parsed := products.GetOr([]);
      var p := NewProduct(input, today);
      parsed := parsed + [p];
      products := Some(parsed);
      r := Success(p);
    }

    /** `getAllBids`. */
    method GetAllBids() returns (r: seq<Bid>)
      modifies this
      ensures hasStorage ==> State() == Seed(old(State())) && Some(r) == bids
      ensures !hasStorage ==> r == [] && State() == old(State())
    {
      if !hasStorage { return []; }
      Initialize();
      r := bids.GetOr([]);
    }

    /** `createBid`, with `suffix` standing for `generateId()`. */
    method CreateBid(input: BidInput, suffix: string) returns (r: Result<Bid, string>)
      modifies this
      ensures !hasStorage ==> r == Failure(CannotAccessStorage) && State() == old(State())
      ensures hasStorage ==>
                r == Success(NewBid(input, suffix, Seed(old(State())).products.value))
      ensures hasStorage ==> bids == Some(Seed(old(State())).bids.value + [r.value])
      ensures hasStorage ==> products == Seed(old(State())).products
      ensures hasStorage ==> transfers == Seed(old(State())).transfers
    {
      if !hasStorage { return Failure(CannotAccessStorage); }
      Initialize();
      var parsedBids := bids.GetOr([]);
      var parsedProducts := products.GetOr([]);
      var b := NewBid(input, suffix, parsedProducts);
      parsedBids := parsedBids + [b];
      bids := Some(parsedBids);
      r := Success(b);
    }

    /** `getAllCustodyTransfers`. */
    method GetAllCustodyTransfers() returns (r: seq<CustodyTransfer>)
      modifies this
      ensures hasStorage ==> State() == Seed(old(State())) && Some(r) == transfers
      ensures !hasStorage ==> r == [] && State() == old(State())
    {
      if !hasStorage { return []; }
      Initialize();
      r := transfers.GetOr([]);
    }

    /** `createCustodyTransfer`, with `suffix` standing for `generateId()` and
        `today` for `getCurrentDate()`. The transfer is written first; the
        products key is written afterwards, and only when a product matched. */
    method CreateCustodyTransfer(input: TransferInput, suffix: string, today: string)
      returns (r: Result<CustodyTransfer, string>)
      modifies this
      ensures !hasStorage ==> r == Failure(CannotAccessStorage) && State() == old(State())
      ensures hasStorage ==>
                r == Success(NewTransfer(input, suffix, today, Seed(old(State())).products.value))
      ensures hasStorage ==> transfers == Some(Seed(old(State())).transfers.value + [r.value])
      ensures hasStorage ==> bids == Seed(old(State())).bids
      ensures hasStorage ==>
                products == Some(TransferSideEffect(Seed(old(State())).products.value, input, today))
    {
      if !hasStorage { return Failure(CannotAccessStorage); }
      Initialize();
      var parsedTransfers := transfers.GetOr([]);
      var parsedProducts := products.GetOr([]);
      var k := FirstMatch(parsedProducts, input.productId);
      var t := NewTransfer(input, suffix, today, parsedProducts);
      parsedTransfers := parsedTransfers + [t];
      transfers := Some(parsedTransfers);
      if k.Some? {
        var product := WithTransferEvent(parsedProducts[k.value], input.from, input.to, today);
        products := Some(ReplaceById(parsedProducts, product.id, product));
      }
      r := Success(t);
    }
  }
}
