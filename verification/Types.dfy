/** The records shared by the matching engine and the settlement pipeline. */
module Types {

  datatype Option<+T> = None | Some(value: T)

  datatype Result<+T, +E> = Ok(value: T) | Err(error: E)

  datatype Side = Buy | Sell

  datatype OrderType = Limit | Market

  /** Identifiers are 128-bit ordered values, modelled as naturals.  Prices and
      quantities are decimals, modelled as a whole number of a fixed smallest unit. */
  datatype Order = Order(
    id: nat,
    user: nat,
    market: string,
    side: Side,
    orderType: OrderType,
    price: Option<int>,
    quantity: int,
    remaining: int,
    createdAt: nat)

  datatype MatchEvent = MatchEvent(
    market: string,
    bidOrder: nat,
    askOrder: nat,
    bidUser: nat,
    askUser: nat,
    takerOrder: nat,
    makerOrder: nat,
    takerUser: nat,
    makerUser: nat,
    takerSide: Side,
    price: int,
    quantity: int)

  function Opposite(side: Side): Side {
    match side
    case Buy => Sell
    case Sell => Buy
  }

  function Min(a: int, b: int): int {
    if a <= b then a else b
  }
}
