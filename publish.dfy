/** What one showPrice or gas refresh hands to the chat platform, and the
    decision showPrice takes for a given cursor value (index.js:139-162). */
module Publish {
  import opened Options
  import opened Numbers
  import opened Quotes
  import opened Rotation

  /** One publish. A price line becomes the nickname
      `<ticker> <symbol><price> <arrow>` and the activity
      `<symbol> 24h: <change>%`; a gas line carries both texts. */
  datatype Display =
    | PriceLine(ticker: string, denom: Denom, price: Price, arrow: Arrow, change: Num)
    | GasLine(nickname: string, activity: string)

  /** The result of one step: a publish, nothing, or a TypeError thrown by a
      property read on a missing entry (the display is then left as it was). */
  datatype Outcome = Published(display: Display) | Quiet | Fault

  /** `priceData.ticker` as JavaScript writes it into a key or a text. */
  function TickerName(t: Option<string>): (name: string)
    ensures t.Some? ==> name == t.value
    ensures t.None? ==> name == "undefined"
  {
    match t
    case Some(s) => s
    case None => "undefined"
  }

  /** What showPrice publishes for the cursor value `denom` taken before it
      advances: nothing for a self-referencing pair, the entry under
      `PriceKey(ticker, denom)` when there is one, and a fault otherwise. */
  function Show(ticker: string, table: map<string, Quote>, denom: Denom): (o: Outcome)
    ensures o == Quiet <==> Suppressed(ticker, denom)
    ensures o.Published? <==> !Suppressed(ticker, denom) && PriceKey(ticker, denom) in table
    ensures o.Published? ==>
      var q := table[PriceKey(ticker, denom)];
      o.display == PriceLine(ticker, denom, q.currPrice, q.changeArrow, q.change24H)
  {
    if Suppressed(ticker, denom) then Quiet
    else
      var key := PriceKey(ticker, denom);
      if key in table then
        var q := table[key];
        Published(PriceLine(ticker, denom, q.currPrice, q.changeArrow, q.change24H))
      else Fault
  }

  /** With rotation on and all three keys present, the `i`-th showPrice call
      on a fresh snapshot publishes unless it is the ETH call of an ETH bot or
      the BTC call of a BTC bot: one call in three is silent for those two
      tickers, none for any other. */
  lemma {:induction false} RotationSchedule(ticker: string, table: map<string, Quote>, i: nat)
    requires forall d: Denom :: PriceKey(ticker, d) in table
    ensures Show(ticker, table, Steps(Dollar, true, i)).Published?
      <==> !(ticker == "ETH" && i % 3 == 1) && !(ticker == "BTC" && i % 3 == 2)
  {
    StepsRotating(i);
    var d := Steps(Dollar, true, i);
    assert PriceKey(ticker, d) in table;
  }
}
