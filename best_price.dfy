/** Best-price aggregation: the fold that the arbitrage finder, the demo tool and the
    WNBA analyzer all run over an event's bookmakers. For every market it keeps, per
    outcome, the highest decimal price and the bookmaker that first offered it.

    The nested bookmaker/market/outcome iteration is flattened into a stream of steps:
    `Open(m)` when a bookmaker's market `m` is visited (the source registers an empty
    entry for it) and `Offer(q)` for each priced outcome. The table is a list of market
    entries in insertion order, each a list of outcome entries in insertion order, which
    is how Python's insertion-ordered dicts behave. */
module BestPrice {
  import opened Numeric
  import opened Seqs
  import opened Odds

  datatype Quote = Quote(market: string, outcome: string, price: real, bookmaker: string, bookmakerKey: string)

  datatype Step = Open(market: string) | Offer(quote: Quote)

  /** The `{'best_odds', 'bookmaker', 'bookmaker_key'}` record kept per outcome. */
  datatype Best = Best(price: real, bookmaker: string, bookmakerKey: string)

  datatype OutcomeBest = OutcomeBest(name: string, best: Best)

  datatype MarketBest = MarketBest(key: string, outcomes: seq<OutcomeBest>)

  type Table = seq<MarketBest>

  function BestOf(q: Quote): Best
  {
    Best(q.price, q.bookmaker, q.bookmakerKey)
  }

  function Keys(t: Table): (ks: seq<string>)
    ensures |ks| == |t| && forall i :: 0 <= i < |t| ==> ks[i] == t[i].key
  {
    seq(|t|, i requires 0 <= i < |t| => t[i].key)
  }

  function Names(os: seq<OutcomeBest>): (ns: seq<string>)
    ensures |ns| == |os| && forall i :: 0 <= i < |os| ==> ns[i] == os[i].name
  {
    seq(|os|, i requires 0 <= i < |os| => os[i].name)
  }

  /** The best price recorded for outcome `o` of market `m`, if any. */
  function Lookup(t: Table, m: string, o: string): Option<Best>
  {
    var i := IndexOf(Keys(t), m);
    if i < 0 then None
    else
      var k := IndexOf(Names(t[i].outcomes), o);
      if k < 0 then None else Some(t[i].outcomes[k].best)
  }

  /** One quote folded into a market's outcome list: a new outcome is appended; a known
      one is replaced only on a strictly higher price, so ties keep the first bookmaker. */
  function OfferTo(os: seq<OutcomeBest>, q: Quote): seq<OutcomeBest>
  {
    var k := IndexOf(Names(os), q.outcome);
    if k < 0 then os + [OutcomeBest(q.outcome, BestOf(q))]
    else if q.price > os[k].best.price then os[k := OutcomeBest(q.outcome, BestOf(q))]
    else os
  }

  function ApplyStep(t: Table, s: Step): Table
  {
    match s
    case Open(m) =>
      if IndexOf(Keys(t), m) < 0 then t + [MarketBest(m, [])] else t
    case Offer(q) =>
      var i := IndexOf(Keys(t), q.market);
      if i < 0 then t + [MarketBest(q.market, OfferTo([], q))]
      else t[i := MarketBest(q.market, OfferTo(t[i].outcomes, q))]
  }

  function Apply(t: Table, ss: seq<Step>): Table
  {
    if ss == [] then t else ApplyStep(Apply(t, ss[..|ss| - 1]), ss[|ss| - 1])
  }

  lemma ApplySnoc(t: Table, ss: seq<Step>, s: Step)
    ensures Apply(t, ss + [s]) == ApplyStep(Apply(t, ss), s)
  {
    assert (ss + [s])[..|ss|] == ss;
  }

  // ---------------------------------------------------------------------------
  // Flattening the nested feed into steps, in the source's iteration order.

  function QuoteOf(b: Bookmaker, marketKey: string, o: Outcome): Quote
  {
    Quote(marketKey, o.name, o.price, b.title, b.key)
  }

  function OutcomeSteps(b: Bookmaker, marketKey: string, os: seq<Outcome>): seq<Step>
  {
    if os == [] then []
    else OutcomeSteps(b, marketKey, os[..|os| - 1]) + [Offer(QuoteOf(b, marketKey, os[|os| - 1]))]
  }

  function MarketSteps(b: Bookmaker, m: Market): seq<Step>
  {
    [Open(m.key)] + OutcomeSteps(b, m.key, m.outcomes)
  }

  function BookmakerSteps(b: Bookmaker, ms: seq<Market>): seq<Step>
  {
    if ms == [] then [] else BookmakerSteps(b, ms[..|ms| - 1]) + MarketSteps(b, ms[|ms| - 1])
  }

  function EventSteps(bs: seq<Bookmaker>): seq<Step>
  {
    if bs == [] then [] else EventSteps(bs[..|bs| - 1]) + BookmakerSteps(bs[|bs| - 1], bs[|bs| - 1].markets)
  }

  /** The `markets_data` table built from an event's bookmakers. */
  function Aggregate(bs: seq<Bookmaker>): Table
  {
    Apply([], EventSteps(bs))
  }

  lemma {:induction false} ApplyConcat(t: Table, a: seq<Step>, b: seq<Step>)
    ensures Apply(t, a + b) == Apply(Apply(t, a), b)
  {
    if b == [] {
      assert a + b == a;
    } else {
      var b' := b[..|b| - 1];
      ApplyConcat(t, a, b');
      assert a + b == (a + b') + [b[|b| - 1]];
      ApplySnoc(t, a + b', b[|b| - 1]);
    }
  }

  /** The nested loop of the source, folding every quote of every bookmaker into the
      table in place. */
  method BuildTable(bs: seq<Bookmaker>) returns (table: Table)
    ensures table == Aggregate(bs)
  {
    table := [];
    var i := 0;
    while i < |bs|
      invariant 0 <= i <= |bs|
      invariant table == Apply([], EventSteps(bs[..i]))
    {
      table := AddBookmaker(table, bs[i]);
      assert bs[..i + 1][..i] == bs[..i];
      ApplyConcat([], EventSteps(bs[..i]), BookmakerSteps(bs[i], bs[i].markets));
      i := i + 1;
    }
    assert bs[..i] == bs;
  }

  /** One bookmaker's markets, in order. */
  method AddBookmaker(t: Table, b: Bookmaker) returns (table: Table)
    ensures table == Apply(t, BookmakerSteps(b, b.markets))
  {
    table := t;
    var j := 0;
    assert BookmakerSteps(b, b.markets[..0]) == [];
    while j < |b.markets|
      invariant 0 <= j <= |b.markets|
      invariant table == Apply(t, BookmakerSteps(b, b.markets[..j]))
    {
      table := AddMarket(table, b, b.markets[j]);
      assert b.markets[..j + 1][..j] == b.markets[..j];
      ApplyConcat(t, BookmakerSteps(b, b.markets[..j]), MarketSteps(b, b.markets[j]));
      j := j + 1;
    }
    assert b.markets[..j] == b.markets;
  }

  /** One market of one bookmaker: register the market key, then fold each outcome. */
  method AddMarket(t: Table, b: Bookmaker, m: Market) returns (table: Table)
    ensures table == Apply(t, MarketSteps(b, m))
  {
    ApplySnoc(t, [], Open(m.key));
    table := ApplyStep(t, Open(m.key));
    var k := 0;
    assert OutcomeSteps(b, m.key, m.outcomes[..0]) == [];
    while k < |m.outcomes|
      invariant 0 <= k <= |m.outcomes|
      invariant table == Apply(t, [Open(m.key)] + OutcomeSteps(b, m.key, m.outcomes[..k]))
    {
      var q := QuoteOf(b, m.key, m.outcomes[k]);
      ApplySnoc(t, [Open(m.key)] + OutcomeSteps(b, m.key, m.outcomes[..k]), Offer(q));
      table := ApplyStep(table, Offer(q));
      assert m.outcomes[..k + 1][..k] == m.outcomes[..k];
      assert OutcomeSteps(b, m.key, m.outcomes[..k + 1]) == OutcomeSteps(b, m.key, m.outcomes[..k]) + [Offer(q)];
      assert [Open(m.key)] + OutcomeSteps(b, m.key, m.outcomes[..k + 1])
          == ([Open(m.key)] + OutcomeSteps(b, m.key, m.outcomes[..k])) + [Offer(q)];
      k := k + 1;
    }
    assert m.outcomes[..k] == m.outcomes;
  }

  // ---------------------------------------------------------------------------
  // What the table means.

  predicate OffersFor(s: Step, m: string, o: string)
  {
    s.Offer? && s.quote.market == m && s.quote.outcome == o
  }

  /** Some step of `ss` quotes outcome `o` of market `m`. */
  ghost predicate Quoted(ss: seq<Step>, m: string, o: string)
  {
    exists j :: 0 <= j < |ss| && OffersFor(ss[j], m, o)
  }

  /** `b` is the quote at position `i`, no quote for (m, o) is higher, and every quote for
      (m, o) before position `i` is strictly lower: the first bookmaker to reach the maximum. */
  ghost predicate BestAt(ss: seq<Step>, m: string, o: string, b: Best, i: int)
  {
    && 0 <= i < |ss|
    && OffersFor(ss[i], m, o)
    && BestOf(ss[i].quote) == b
    && (forall j :: 0 <= j < |ss| && OffersFor(ss[j], m, o) ==> ss[j].quote.price <= b.price)
    && (forall j :: 0 <= j < i && OffersFor(ss[j], m, o) ==> ss[j].quote.price < b.price)
  }

  lemma OfferToLookup(os: seq<OutcomeBest>, q: Quote, o: string)
    ensures var k := IndexOf(Names(os), o);
            var k' := IndexOf(Names(OfferTo(os, q)), o);
            if o != q.outcome then
              (k < 0 <==> k' < 0) && (k >= 0 ==> OfferTo(os, q)[k'].best == os[k].best)
            else
              k' >= 0 &&
              OfferTo(os, q)[k'].best == (if k < 0 || q.price > os[k].best.price then BestOf(q) else os[k].best)
  {
    var k := IndexOf(Names(os), q.outcome);
    if k < 0 {
      assert Names(os + [OutcomeBest(q.outcome, BestOf(q))]) == Names(os) + [q.outcome];
      IndexOfAppend(Names(os), q.outcome, o);
    } else if q.price > os[k].best.price {
      assert Names(os[k := OutcomeBest(q.outcome, BestOf(q))]) == Names(os);
    }
  }

  /** How one step changes the recorded best price of (m, o). */
  lemma LookupAfterStep(t: Table, s: Step, m: string, o: string)
    ensures Lookup(ApplyStep(t, s), m, o) ==
      if OffersFor(s, m, o) && (Lookup(t, m, o).None? || s.quote.price > Lookup(t, m, o).value.price)
      then Some(BestOf(s.quote))
      else Lookup(t, m, o)
  {
    var t' := ApplyStep(t, s);
    match s
    case Open(mk) =>
      if IndexOf(Keys(t), mk) < 0 {
        assert Keys(t') == Keys(t) + [mk];
        IndexOfAppend(Keys(t), mk, m);
        if m == mk && IndexOf(Keys(t), m) < 0 {
          assert IndexOf(Names(t'[|t|].outcomes), o) < 0;
        }
      }
    case Offer(q) =>
      var i := IndexOf(Keys(t), q.market);
      if i < 0 {
        assert Keys(t') == Keys(t) + [q.market];
        IndexOfAppend(Keys(t), q.market, m);
        OfferToLookup([], q, o);
      } else {
        assert Keys(t') == Keys(t);
        if m == q.market {
          OfferToLookup(t[i].outcomes, q, o);
        }
      }
  }

  lemma QuotedSnoc(p: seq<Step>, s: Step, m: string, o: string)
    ensures Quoted(p + [s], m, o) <==> Quoted(p, m, o) || OffersFor(s, m, o)
  {
    var ss := p + [s];
    if Quoted(ss, m, o) && !OffersFor(s, m, o) {
      var j :| 0 <= j < |ss| && OffersFor(ss[j], m, o);
      assert j < |p| && p[j] == ss[j];
    }
    if Quoted(p, m, o) {
      var j :| 0 <= j < |p| && OffersFor(p[j], m, o);
      assert ss[j] == p[j];
    }
    if OffersFor(s, m, o) {
      assert ss[|p|] == s;
    }
  }

  lemma BestAtKeep(p: seq<Step>, s: Step, m: string, o: string, b: Best, i: int)
    requires BestAt(p, m, o, b, i)
    requires OffersFor(s, m, o) ==> s.quote.price <= b.price
    ensures BestAt(p + [s], m, o, b, i)
  {
    var ss := p + [s];
    assert forall j :: 0 <= j < |p| ==> ss[j] == p[j];
    assert ss[|p|] == s;
  }

  lemma BestAtNew(p: seq<Step>, s: Step, m: string, o: string)
    requires OffersFor(s, m, o)
    requires forall j :: 0 <= j < |p| && OffersFor(p[j], m, o) ==> p[j].quote.price < s.quote.price
    ensures BestAt(p + [s], m, o, BestOf(s.quote), |p|)
  {
    var ss := p + [s];
    assert forall j :: 0 <= j < |p| ==> ss[j] == p[j];
    assert ss[|p|] == s;
  }

  /** The reference meaning of the fold: the recorded entry for (m, o) exists exactly when
      some quote for (m, o) was seen, and it is the highest such quote, from the first
      bookmaker that offered that price. */
  lemma {:induction false} ApplyIsBest(ss: seq<Step>, m: string, o: string)
    ensures Lookup(Apply([], ss), m, o).None? <==> !Quoted(ss, m, o)
    ensures Lookup(Apply([], ss), m, o).Some? ==> exists i :: BestAt(ss, m, o, Lookup(Apply([], ss), m, o).value, i)
  {
    if ss == [] {
      assert Lookup([], m, o).None?;
    } else {
      var p := ss[..|ss| - 1];
      var s := ss[|ss| - 1];
      assert ss == p + [s];
      ApplyIsBest(p, m, o);
      var t := Apply([], p);
      var prev := Lookup(t, m, o);
      LookupAfterStep(t, s, m, o);
      QuotedSnoc(p, s, m, o);
      var r := Lookup(Apply([], ss), m, o);
      if OffersFor(s, m, o) && (prev.None? || s.quote.price > prev.value.price) {
        if prev.Some? {
          var i :| BestAt(p, m, o, prev.value, i);
        }
        BestAtNew(p, s, m, o);
      } else if prev.Some? {
        var i :| BestAt(p, m, o, prev.value, i);
        BestAtKeep(p, s, m, o, prev.value, i);
      }
    }
  }

  /** Spec monotonicity: a quote no better than the current best leaves the table as it is. */
  lemma LowerQuoteChangesNothing(t: Table, q: Quote)
    requires Lookup(t, q.market, q.outcome).Some?
    requires q.price <= Lookup(t, q.market, q.outcome).value.price
    ensures ApplyStep(t, Offer(q)) == t
  {
    var i := IndexOf(Keys(t), q.market);
    assert t[i].key == q.market;
    assert OfferTo(t[i].outcomes, q) == t[i].outcomes;
    assert t[i := MarketBest(q.market, t[i].outcomes)] == t;
  }

  // ---------------------------------------------------------------------------
  // Shape of the table: unique keys, positive prices.

  ghost predicate WellFormed(t: Table)
  {
    Distinct(Keys(t)) && forall i :: 0 <= i < |t| ==> Distinct(Names(t[i].outcomes))
  }

  lemma OfferToWellFormed(os: seq<OutcomeBest>, q: Quote)
    requires Distinct(Names(os))
    ensures Distinct(Names(OfferTo(os, q)))
  {
    var k := IndexOf(Names(os), q.outcome);
    if k < 0 {
      assert Names(os + [OutcomeBest(q.outcome, BestOf(q))]) == Names(os) + [q.outcome];
    } else if q.price > os[k].best.price {
      assert Names(os[k := OutcomeBest(q.outcome, BestOf(q))]) == Names(os);
    }
  }

  /** Every market key appears once in the table and every outcome once per market. */
  lemma {:induction false} ApplyWellFormed(t: Table, ss: seq<Step>)
    requires WellFormed(t)
    ensures WellFormed(Apply(t, ss))
  {
    if ss != [] {
      ApplyWellFormed(t, ss[..|ss| - 1]);
      var u := Apply(t, ss[..|ss| - 1]);
      var u' := ApplyStep(u, ss[|ss| - 1]);
      match ss[|ss| - 1]
      case Open(m) =>
        if IndexOf(Keys(u), m) < 0 {
          assert Keys(u') == Keys(u) + [m];
          assert Names(u'[|u|].outcomes) == [];
        }
      case Offer(q) =>
        var i := IndexOf(Keys(u), q.market);
        if i < 0 {
          assert Keys(u') == Keys(u) + [q.market];
          OfferToWellFormed([], q);
        } else {
          assert Keys(u') == Keys(u);
          OfferToWellFormed(u[i].outcomes, q);
        }
    }
  }

  ghost predicate PositiveTable(t: Table)
  {
    forall i, k :: 0 <= i < |t| && 0 <= k < |t[i].outcomes| ==> t[i].outcomes[k].best.price > 0.0
  }

  ghost predicate PositiveSteps(ss: seq<Step>)
  {
    forall j :: 0 <= j < |ss| && ss[j].Offer? ==> ss[j].quote.price > 0.0
  }

  lemma {:induction false} ApplyPositive(t: Table, ss: seq<Step>)
    requires PositiveTable(t) && PositiveSteps(ss)
    ensures PositiveTable(Apply(t, ss))
  {
    if ss != [] {
      ApplyPositive(t, ss[..|ss| - 1]);
    }
  }

  lemma {:induction false} EventStepsPositive(e: Event)
    requires PositivePrices(e)
    ensures PositiveSteps(EventSteps(e.bookmakers))
  {
    EventStepsPositiveUpTo(e, |e.bookmakers|);
    assert e.bookmakers[..|e.bookmakers|] == e.bookmakers;
  }

  lemma {:induction false} EventStepsPositiveUpTo(e: Event, n: nat)
    requires PositivePrices(e) && n <= |e.bookmakers|
    ensures PositiveSteps(EventSteps(e.bookmakers[..n]))
  {
    if n > 0 {
      EventStepsPositiveUpTo(e, n - 1);
      assert e.bookmakers[..n][..n - 1] == e.bookmakers[..n - 1];
      var b := e.bookmakers[n - 1];
      BookmakerStepsPositive(e, b, |b.markets|);
      assert b.markets[..|b.markets|] == b.markets;
    }
  }

  lemma {:induction false} BookmakerStepsPositive(e: Event, b: Bookmaker, n: nat)
    requires PositivePrices(e) && b in e.bookmakers && n <= |b.markets|
    ensures PositiveSteps(BookmakerSteps(b, b.markets[..n]))
  {
    if n > 0 {
      BookmakerStepsPositive(e, b, n - 1);
      assert b.markets[..n][..n - 1] == b.markets[..n - 1];
      var m := b.markets[n - 1];
      OutcomeStepsPositive(e, b, m, |m.outcomes|);
      assert m.outcomes[..|m.outcomes|] == m.outcomes;
    }
  }

  lemma {:induction false} OutcomeStepsPositive(e: Event, b: Bookmaker, m: Market, n: nat)
    requires PositivePrices(e) && b in e.bookmakers && m in b.markets && n <= |m.outcomes|
    ensures PositiveSteps(OutcomeSteps(b, m.key, m.outcomes[..n]))
  {
    if n > 0 {
      OutcomeStepsPositive(e, b, m, n - 1);
      assert m.outcomes[..n][..n - 1] == m.outcomes[..n - 1];
      assert m.outcomes[n - 1] in m.outcomes;
    }
  }

  /** The aggregated table of an event with positive prices has unique keys and only
      positive best prices. */
  lemma AggregateShape(e: Event)
    requires PositivePrices(e)
    ensures WellFormed(Aggregate(e.bookmakers)) && PositiveTable(Aggregate(e.bookmakers))
  {
    ApplyWellFormed([], EventSteps(e.bookmakers));
    EventStepsPositive(e);
    ApplyPositive([], EventSteps(e.bookmakers));
  }

  /** Each entry of a well-formed table is what `Lookup` finds for its own key and name. */
  lemma EntryLookup(t: Table, i: int, k: int)
    requires WellFormed(t) && 0 <= i < |t| && 0 <= k < |t[i].outcomes|
    ensures Lookup(t, t[i].key, t[i].outcomes[k].name) == Some(t[i].outcomes[k].best)
  {
    var ks := Keys(t);
    var i' := IndexOf(ks, t[i].key);
    assert ks[i] == t[i].key;
    assert i' == i;
    var ns := Names(t[i].outcomes);
    assert ns[k] == t[i].outcomes[k].name;
    assert IndexOf(ns, ns[k]) == k;
  }

  /** End to end: every price in an event's aggregated table is the highest quote for its
      market and outcome across all bookmakers, from the first bookmaker to quote it. */
  lemma AggregateEntryIsBest(bs: seq<Bookmaker>, i: int, k: int)
    requires 0 <= i < |Aggregate(bs)| && 0 <= k < |Aggregate(bs)[i].outcomes|
    ensures var t := Aggregate(bs);
            exists w :: BestAt(EventSteps(bs), t[i].key, t[i].outcomes[k].name, t[i].outcomes[k].best, w)
  {
    var t := Aggregate(bs);
    ApplyWellFormed([], EventSteps(bs));
    EntryLookup(t, i, k);
    ApplyIsBest(EventSteps(bs), t[i].key, t[i].outcomes[k].name);
  }
}
