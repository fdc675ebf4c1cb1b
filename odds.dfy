/** The decoded odds feed: events, each quoted by several bookmakers, each bookmaker
    pricing several markets, each market listing priced outcomes (decimal odds). The
    HTTP client that fetches it is not modelled; these values are its decoded result. */
module Odds {
  import opened Numeric

  datatype Outcome = Outcome(name: string, price: real, point: Option<real>)

  datatype Market = Market(key: string, outcomes: seq<Outcome>)

  datatype Bookmaker = Bookmaker(key: string, title: string, markets: seq<Market>)

  datatype Event = Event(
    id: string,
    sportKey: string,
    homeTeam: string,
    awayTeam: string,
    commenceTime: string,
    bookmakers: seq<Bookmaker>)

  /** Every price in the event is a positive decimal price (the feed's decimal-odds
      convention; a zero price would make the reciprocal sum divide by zero). */
  ghost predicate PositivePrices(e: Event)
  {
    forall b, m, o :: b in e.bookmakers && m in b.markets && o in m.outcomes ==> o.price > 0.0
  }
}
