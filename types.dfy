/** The record shapes of lib/types.ts. Optional TypeScript properties
    (`lastUpdated?`, `events?`, `notes?`, ...) are `Option` fields. */
module Types {
  import opened Wrappers

  /** One entry of a product's timeline. */
  datatype Event = Event(title: string, description: string, timestamp: string)

  datatype Product = Product(
    id: string,
    name: string,
    description: string,
    manufacturer: string,
    manufactureDate: string,
    status: string,
    lastUpdated: Option<string>,
    events: Option<seq<Event>>,
    bids: Option<seq<Bid>>,
    custodyTransfers: Option<seq<CustodyTransfer>>)

  datatype Bid = Bid(
    id: string,
    productId: string,
    productName: string,
    carrier: string,
    amount: string,
    origin: string,
    destination: string,
    deadline: string,
    status: string)

  datatype CustodyTransfer = CustodyTransfer(
    id: string,
    productId: string,
    productName: string,
    from: string,
    to: string,
    date: string,
    status: string,
    notes: Option<string>)

  /** A product's timeline, an absent `events` read as empty (`events || []`). */
  function EventsOf(p: Product): seq<Event> {
    p.events.GetOr([])
  }
}
