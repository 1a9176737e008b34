/** The bot's two periodic jobs over its one mutable snapshot (index.js:80-163).
    `getPrice` replaces the module-level `priceData` with a fresh record and
    fills it in place; `showPrice` reads it and moves its cursor. The feed's
    answer and the gas oracle's answer are parameters, and a publish is the
    returned Outcome. */
module Bot {
  import opened Options
  import opened Quotes
  import opened Rotation
  import opened Publish
  import opened Gas
  import opened Snapshot

  /** The record `priceData`: the cursor, the chosen ticker and the table of
      quotes keyed by ticker or by ticker and reference asset. */
  class PriceData {
    var showPriceType: Denom
    var ticker: Option<string>
    var table: map<string, Quote>

    /** `{ showPriceType: '$' }` */
    constructor ()
      ensures showPriceType == Dollar && ticker == None && table == map[]
    {
      showPriceType := Dollar;
      ticker := None;
      table := map[];
    }

    /** The loop over the found keys (index.js:88-106): every key gets its
        dollar quote, and the ticker is chosen key by key. */
    method AddQuotes(configured: string, found: Found)
      modifies this
      ensures showPriceType == old(showPriceType)
      ensures ticker == PickTicker(configured, found, old(ticker))
      ensures table == old(table) + BaseTable(found)
    {
      var i := 0;
      while i < |found|
        invariant i <= |found|
        invariant showPriceType == old(showPriceType)
        invariant ticker == PickTicker(configured, found[..i], old(ticker))
        invariant table == old(table) + BaseTable(found[..i])
      {
        var (key, raw) := found[i];
        if configured == "ETH" || configured == "BTC" {
          ticker := Some(configured);
        } else if key != "ETH" && key != "BTC" {
          ticker := Some(key);
        }
        table := table[key := Normalize(raw)];
        assert found[..i + 1][..i] == found[..i];
        i := i + 1;
      }
      assert found[..i] == found;
    }

    /** The cross loop over ETH and BTC (index.js:108-125). It returns false
        when a missing entry made it throw part way. */
    method AddCrossRates() returns (complete: bool)
      modifies this
      ensures showPriceType == old(showPriceType) && ticker == old(ticker)
      ensures var r := AddCross(TickerName(old(ticker)), old(table), Comparisons);
        table == r.table && complete == r.complete
    {
      var name := TickerName(ticker);
      var i := 0;
      complete := true;
      while i < |Comparisons|
        invariant i <= |Comparisons|
        invariant showPriceType == old(showPriceType) && ticker == old(ticker)
        invariant AddCross(name, table, Comparisons[i..])
               == AddCross(name, old(table), Comparisons)
      {
        var comparison := Comparisons[i];
        ghost var rest := Comparisons[i..];
        assert rest[0] == comparison && rest[1..] == Comparisons[i + 1..];
        if name !in table || comparison !in table {
          assert AddCross(name, table, rest) == Filled(table, false);
          complete := false;
          return;
        }
        ghost var before := table;
        table := table[name + comparison := Cross(table[name], table[comparison], comparison)];
        assert AddCross(name, before, rest) == AddCross(name, table, Comparisons[i + 1..]);
        i := i + 1;
      }
    }
  }

  /** The running bot: its configuration and the module-level `priceData`,
      `undefined` until the first refresh. */
  class Bot {
    const ticker: string
    const rotate: bool
    var priceData: PriceData?

    constructor (ticker: string, rotate: bool)
      ensures this.ticker == ticker && this.rotate == rotate && priceData == null
    {
      this.ticker := ticker;
      this.rotate := rotate;
      priceData := null;
    }

    /** One showPrice tick (index.js:131-163). Without a snapshot it does
        nothing. Otherwise the display and the key follow the cursor value
        BEFORE the call; the cursor then advances, also when the publish is
        suppressed or faults. */
    method ShowPrice() returns (o: Outcome)
      modifies priceData
      ensures old(priceData) == null ==> o == Quiet
      ensures priceData != null ==>
        && priceData.showPriceType == Advance(old(priceData.showPriceType), rotate)
        && priceData.ticker == old(priceData.ticker)
        && priceData.table == old(priceData.table)
        && o == Show(TickerName(priceData.ticker), priceData.table, old(priceData.showPriceType))
    {
      if priceData == null {
        return Quiet;
      }
      var shown := priceData.showPriceType;
      match shown {
        case Dollar =>
          if rotate {
            priceData.showPriceType := Ether;
          }
        case Ether =>
          priceData.showPriceType := Bitcoin;
        case Bitcoin =>
          priceData.showPriceType := Dollar;
      }
      var name := TickerName(priceData.ticker);
      var key := PriceKey(name, shown);
      if Suppressed(name, shown) {
        o := Quiet;
      } else if key in priceData.table {
        var q := priceData.table[key];
        o := Published(PriceLine(name, shown, q.currPrice, q.changeArrow, q.change24H));
      } else {
        o := Fault;
      }
    }

    /** One refresh (index.js:80-129). `feed` is the price feed's answer, or
        None when the feed call rejects; the rejection escapes before the
        snapshot is replaced. A gas ticker leaves the snapshot alone and
        publishes the gas tiers. Any other ticker gets a fresh snapshot
        whose cursor is '$' again; with rotation on the cross quotes are added
        and nothing is published, with rotation off the dollar quote is
        published at once. */
    method GetPrice(feed: Option<Found>, reply: GasReply) returns (o: Outcome)
      modifies this
      ensures IsGasTicker(ticker) ==> priceData == old(priceData) && o == GasOutcome(reply)
      ensures !IsGasTicker(ticker) && feed.None? ==> priceData == old(priceData) && o == Fault
      ensures !IsGasTicker(ticker) && feed.Some? ==>
        var found := feed.value;
        var chosen := PickTicker(ticker, found, None);
        && priceData != null && fresh(priceData)
        && priceData.showPriceType == Dollar
        && priceData.ticker == chosen
        && (rotate ==>
              var r := AddCross(TickerName(chosen), BaseTable(found), Comparisons);
              priceData.table == r.table && o == (if r.complete then Quiet else Fault))
        && (!rotate ==>
              priceData.table == BaseTable(found)
              && o == Show(TickerName(chosen), BaseTable(found), Dollar))
    {
      if IsGasTicker(ticker) {
        return GasOutcome(reply);
      }
      if feed.None? {
        return Fault;
      }
      var found := feed.value;
      var data := new PriceData();
      priceData := data;
      data.AddQuotes(ticker, found);
      assert data.table == BaseTable(found);
      if rotate {
        var complete := data.AddCrossRates();
        o := if complete then Quiet else Fault;
      } else {
        o := ShowPrice();
      }
    }
  }

  /** With rotation on, three ticks bring the cursor back where it was and
      leave the snapshot's ticker and table as they were. */
  method ThreeTicks(bot: Bot)
    requires bot.rotate && bot.priceData != null
    modifies bot.priceData
    ensures bot.priceData.showPriceType == old(bot.priceData.showPriceType)
    ensures bot.priceData.ticker == old(bot.priceData.ticker)
    ensures bot.priceData.table == old(bot.priceData.table)
  {
    var _ := bot.ShowPrice();
    var _ := bot.ShowPrice();
    var _ := bot.ShowPrice();
  }
}
