/** The broker gateway (`KiteClient`), seen from the core: a stop-order
    place / modify / cancel interface and a positions query. What the
    broker answers is not known to the core, so each call may fail or
    return any value; every call and its answer is appended to a ghost
    log, which is what the contracts of the core speak about. */
module Gateway {
  import opened Common

  /** One entry of a position book (`tradingsymbol` may be absent). */
  datatype Row = Row(tradingsymbol: Option<string>, quantity: int, averagePrice: real)

  /** The answer of `get_positions`: position books keyed "day" and "net". */
  type Books = map<string, seq<Row>>

  /** A broker call with the broker's answer (None / false: it raised). */
  datatype Call =
    | Place(symbol: string, quantity: int, trigger: real, limit: real, product: string,
            orderId: Option<string>)
    | Modify(modifiedId: string, newTrigger: real, newLimit: real, modified: bool)
    | Cancel(cancelledId: string, cancelled: bool)
    | Positions(books: Option<Books>)

  class Broker {
    ghost var calls: seq<Call>

    constructor ()
      ensures calls == []
    {
      calls := [];
    }

    /** A SELL stop-loss order with day validity. */
    method PlaceSlOrder(symbol: string, quantity: int, trigger: real, limit: real, product: string)
      returns (r: Result<string>)
      modifies this
      ensures r.Err? ==> r.error == GatewayFailure
      ensures calls == old(calls) + [Place(symbol, quantity, trigger, limit, product,
                                           if r.Ok? then Some(r.value) else None)]
    {
      var accepted: bool := *;
      var id: string := *;
      r := if accepted then Ok(id) else Err(GatewayFailure);
      calls := calls + [Place(symbol, quantity, trigger, limit, product, if accepted then Some(id) else None)];
    }

    method ModifyOrder(orderId: string, trigger: real, limit: real) returns (r: Result<()>)
      modifies this
      ensures r.Err? ==> r.error == GatewayFailure
      ensures calls == old(calls) + [Modify(orderId, trigger, limit, r.Ok?)]
    {
      var accepted: bool := *;
      r := if accepted then Ok(()) else Err(GatewayFailure);
      calls := calls + [Modify(orderId, trigger, limit, accepted)];
    }

    method CancelOrder(orderId: string) returns (r: Result<()>)
      modifies this
      ensures r.Err? ==> r.error == GatewayFailure
      ensures calls == old(calls) + [Cancel(orderId, r.Ok?)]
    {
      var accepted: bool := *;
      r := if accepted then Ok(()) else Err(GatewayFailure);
      calls := calls + [Cancel(orderId, accepted)];
    }

    method GetPositions() returns (r: Result<Books>)
      modifies this
      ensures r.Err? ==> r.error == GatewayFailure
      ensures calls == old(calls) + [Positions(if r.Ok? then Some(r.value) else None)]
    {
      var accepted: bool := *;
      var books: Books := *;
      r := if accepted then Ok(books) else Err(GatewayFailure);
      calls := calls + [Positions(if accepted then Some(books) else None)];
    }
  }
}
