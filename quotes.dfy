/** The quote records the price bot derives from its feed: the normalised
    quote of one ticker in dollars, and the cross quote of the main ticker
    against ETH or BTC (index.js:100-105 and index.js:109-124). */
module Quotes {
  import opened Numbers

  /** The trend marks '(↗)', '(↘)' and '(→)'. */
  datatype Arrow = Up | Down | Flat

  /** One entry of the feed: `{ usd, usd_24h_change }`. A null change reads as
      0 in every formula below, so it is represented by 0. */
  datatype RawQuote = RawQuote(usd: real, usd24hChange: real)

  /** What a quote's `currPrice` field holds: the dollar price as fetched, the
      text of `toFixed(5)`, or the text `<n>sat`. */
  datatype Price =
    | Usd(value: real)
    | Fixed5(rounded: Num)
    | Sat(count: int)

  /** One entry of the snapshot table. */
  datatype Quote = Quote(currPrice: Price, pastPrice: Num, change24H: Num, changeArrow: Arrow)

  /** The number JavaScript reads back from a `currPrice` field when it divides
      by it: a `toFixed` text reads as its value, a `<n>sat` text as NaN. */
  function Amount(p: Price): (n: Num)
    ensures p.Usd? ==> n == Finite(p.value)
    ensures p.Sat? ==> n == NonFinite
  {
    match p
    case Usd(v) => Finite(v)
    case Fixed5(x) => x
    case Sat(_) => NonFinite
  }

  /** `x > 0 ? '(↗)' : (x < 0 ? '(↘)' : '(→)')` */
  function Trend(x: real): (a: Arrow)
    ensures a == Up <==> x > 0.0
    ensures a == Down <==> x < 0.0
    ensures a == Flat <==> x == 0.0
  {
    if x > 0.0 then Up else if x < 0.0 then Down else Flat
  }

  /** The trend of a number; NaN is neither above nor below zero. */
  function NumTrend(n: Num): (a: Arrow)
    ensures a == Up <==> n.Finite? && n.value > 0.0
    ensures a == Down <==> n.Finite? && n.value < 0.0
  {
    if n.Finite? then Trend(n.value) else Flat
  }

  /** `Math.ceil(c * 100) / 100`: the least whole number of hundredths that is
      not below `c`. */
  function CeilHundredths(c: real): (r: real)
    ensures c <= r < c + 0.01
    ensures (r * 100.0).Floor as real == r * 100.0
  {
    var k := Ceil(c * 100.0);
    var r := k as real / 100.0;
    assert r * 100.0 == k as real;
    assert (k as real).Floor == k;
    assert c * 100.0 <= r * 100.0 < c * 100.0 + 1.0;
    r
  }

  /** Every whole number of hundredths not below `c` is at least `CeilHundredths(c)`. */
  lemma CeilHundredthsIsLeast(c: real, j: int)
    requires c <= j as real / 100.0
    ensures CeilHundredths(c) <= j as real / 100.0
  {
    CeilIsLeast(c * 100.0, j);
  }

  /** The dollar quote of one feed entry (index.js:100-105). The past price is
      rebuilt from the unrounded change; the arrow follows the unrounded
      change; only the displayed change is rounded, upwards. */
  function Normalize(q: RawQuote): (r: Quote)
    ensures r.currPrice == Usd(q.usd)
    ensures r.change24H == Finite(CeilHundredths(q.usd24hChange))
    ensures q.usd24hChange <= r.change24H.value < q.usd24hChange + 0.01
    ensures r.changeArrow == Up <==> q.usd24hChange > 0.0
    ensures r.changeArrow == Down <==> q.usd24hChange < 0.0
    ensures r.changeArrow == Flat <==> q.usd24hChange == 0.0
    ensures r.pastPrice.Finite? <==> q.usd24hChange != -100.0
    ensures r.pastPrice.Finite? ==> r.pastPrice.value * (100.0 + q.usd24hChange) / 100.0 == q.usd
  {
    var c := q.usd24hChange;
    Quote(Usd(q.usd),
          Quot(Finite(q.usd), Finite((100.0 + c) / 100.0)),
          Finite(CeilHundredths(c)),
          Trend(c))
  }

  /** Example: a price of 100 after a 5.555% rise shows a change of
      5.56%, an up arrow and a past price of about 94.74. */
  lemma NormalizeExample()
    ensures var r := Normalize(RawQuote(100.0, 5.555));
      && r.change24H == Finite(5.56)
      && r.changeArrow == Up
      && r.pastPrice.Finite? && 94.73 < r.pastPrice.value < 94.74
  {
    var r := Normalize(RawQuote(100.0, 5.555));
    assert Ceil(555.5) == 556;
    assert 5.555 * 100.0 == 555.5;
    assert r.pastPrice.value * 1.05555 == 100.0;
  }

  /** A change of 0.0001% shows as 0.01% with an up arrow: the arrow is taken
      from the raw change, not from the rounded one. */
  lemma NormalizeTinyRise()
    ensures Normalize(RawQuote(1.0, 0.0001)).change24H == Finite(0.01)
    ensures Normalize(RawQuote(1.0, 0.0001)).changeArrow == Up
  {
    assert Ceil(0.01) == 1;
  }

  /** The cross price, `ticker.currPrice / comparison.currPrice`. */
  function CrossRate(primary: Quote, reference: Quote): (n: Num)
    ensures primary.currPrice.Usd? && reference.currPrice.Usd? && reference.currPrice.value != 0.0
      ==> n == Finite(primary.currPrice.value / reference.currPrice.value)
  {
    Quot(Amount(primary.currPrice), Amount(reference.currPrice))
  }

  /** The unrounded cross change, `(curr - past) / past * 100`. */
  function CrossChange(curr: Num, past: Num): (n: Num)
    ensures n.Finite? <==> curr.Finite? && past.Finite? && past.value != 0.0
    ensures n.Finite? ==> n.value * past.value == (curr.value - past.value) * 100.0
  {
    Times(Quot(Minus(curr, past), past), 100.0)
  }

  /** The cross quote of `primary` against `reference`, the asset named
      `comparison` (index.js:110-123). The change is rounded to two places to
      the nearest, and the arrow follows the ROUNDED change. A rate below
      0.00001 BTC is shown in satoshis; every other rate, and every ETH rate,
      is shown with five decimals. */
  function Cross(primary: Quote, reference: Quote, comparison: string): (r: Quote)
    ensures r.pastPrice == Quot(primary.pastPrice, reference.pastPrice)
    ensures r.currPrice.Sat? <==> comparison == "BTC" && Below(CrossRate(primary, reference), 0.00001)
    ensures r.currPrice.Sat? ==>
      var rate := CrossRate(primary, reference).value;
      rate * 100000000.0 - 0.5 <= r.currPrice.count as real <= rate * 100000000.0 + 0.5
      && r.currPrice.count <= 1000
      && r.currPrice.count == RoundHalfAway(rate * 100000000.0)
    ensures !r.currPrice.Sat? ==> r.currPrice == Fixed5(ToFixed(CrossRate(primary, reference), 100000.0))
    ensures r.change24H == ToFixed(CrossChange(CrossRate(primary, reference), r.pastPrice), 100.0)
    ensures var raw := CrossChange(CrossRate(primary, reference), r.pastPrice);
      && (r.change24H.Finite? <==> raw.Finite?)
      && (raw.Finite? ==> raw.value - 0.005 <= r.change24H.value <= raw.value + 0.005)
    ensures r.changeArrow == Up <==> r.change24H.Finite? && r.change24H.value > 0.0
    ensures r.changeArrow == Down <==> r.change24H.Finite? && r.change24H.value < 0.0
  {
    var curr := CrossRate(primary, reference);
    var past := Quot(primary.pastPrice, reference.pastPrice);
    var change := ToFixed(CrossChange(curr, past), 100.0);
    var shown :=
      if comparison == "BTC" && Below(curr, 0.00001)
      then Sat(RoundHalfAway(curr.value * 100000000.0))
      else Fixed5(ToFixed(curr, 100000.0));
    Quote(shown, past, change, NumTrend(change))
  }

  /** When both quotes come straight from the feed, the cross change before
      rounding is `100 * (a - b) / (100 + b)` for their 24h changes `a` and
      `b`: it depends on the two changes only, not on the prices. */
  lemma {:induction false} CrossOfNormalized(a: RawQuote, b: RawQuote, comparison: string)
    requires a.usd != 0.0 && b.usd != 0.0
    requires a.usd24hChange != -100.0 && b.usd24hChange != -100.0
    ensures var r := Cross(Normalize(a), Normalize(b), comparison);
      var raw := CrossChange(CrossRate(Normalize(a), Normalize(b)), r.pastPrice);
      && raw.Finite?
      && raw.value == 100.0 * (a.usd24hChange - b.usd24hChange) / (100.0 + b.usd24hChange)
  {
    var ga, gb := (100.0 + a.usd24hChange) / 100.0, (100.0 + b.usd24hChange) / 100.0;
    var curr, past := a.usd / b.usd, (a.usd / ga) / (b.usd / gb);
    CrossAlgebra(a.usd, b.usd, a.usd24hChange, b.usd24hChange);
    assert Normalize(a).pastPrice == Finite(a.usd / ga);
    assert Normalize(b).pastPrice == Finite(b.usd / gb);
    assert CrossRate(Normalize(a), Normalize(b)) == Finite(curr);
    assert Cross(Normalize(a), Normalize(b), comparison).pastPrice == Finite(past);
    assert CrossChange(Finite(curr), Finite(past)) == Finite((curr - past) / past * 100.0);
  }

  /** The arithmetic of CrossOfNormalized, on plain reals. */
  lemma CrossAlgebra(ua: real, ub: real, ca: real, cb: real)
    requires ua != 0.0 && ub != 0.0 && ca != -100.0 && cb != -100.0
    ensures var ga, gb := (100.0 + ca) / 100.0, (100.0 + cb) / 100.0;
      var curr, past := ua / ub, (ua / ga) / (ub / gb);
      && past != 0.0
      && (curr - past) / past * 100.0 == 100.0 * (ca - cb) / (100.0 + cb)
  {
    var ga, gb := (100.0 + ca) / 100.0, (100.0 + cb) / 100.0;
    var curr := ua / ub;
    ScaledBack(ua, ub, ga, gb);
    RelativeChange(curr, gb / ga);
    assert 1.0 / (gb / ga) == ga / gb;
    var y := 100.0 + cb;
    var t := (100.0 + ca) / y;
    assert ga / gb == t;
    assert t * y == 100.0 + ca;
    var rhs := 100.0 * (ca - cb) / y;
    assert rhs * y == 100.0 * (ca - cb);
    assert ((t - 1.0) * 100.0) * y == 100.0 * (ca - cb);
    Cancel((t - 1.0) * 100.0, rhs, y);
  }

  /** The quotient of two prices each divided by its growth factor. */
  lemma ScaledBack(ua: real, ub: real, ga: real, gb: real)
    requires ub != 0.0 && ga != 0.0 && gb != 0.0
    ensures (ua / ga) / (ub / gb) == (ua / ub) * (gb / ga)
  {
  }

  /** The percentage change from `x * k` to `x`. */
  lemma RelativeChange(x: real, k: real)
    requires x != 0.0 && k != 0.0
    ensures x * k != 0.0
    ensures (x - x * k) / (x * k) * 100.0 == (1.0 / k - 1.0) * 100.0
  {
    var p := x * k;
    assert p != 0.0;
    var q := (x - p) / p;
    assert q * p == x - p;
    var r := 1.0 / k;
    assert r * k == 1.0;
    assert (r - 1.0) * p == x - p by {
      assert r * p == (r * k) * x;
    }
    Cancel(q, r - 1.0, p);
  }

  /** A nonzero factor cancels. */
  lemma Cancel(a: real, b: real, p: real)
    requires p != 0.0 && a * p == b * p
    ensures a == b
  {
    assert (a - b) * p == 0.0;
  }

  /** The threshold is strict: a rate of exactly 0.00001 BTC is shown with
      five decimals. */
  lemma SatThresholdIsStrict(primary: Quote, reference: Quote)
    requires CrossRate(primary, reference) == Finite(0.00001)
    ensures Cross(primary, reference, "BTC").currPrice == Fixed5(Finite(0.00001))
  {
    assert RoundHalfAway(0.00001 * 100000.0) == 1;
  }

  /** A rate of 0.000009999 BTC is shown as 1000 satoshis. */
  lemma SatJustBelowThreshold(primary: Quote, reference: Quote)
    requires CrossRate(primary, reference) == Finite(0.000009999)
    ensures Cross(primary, reference, "BTC").currPrice == Sat(1000)
  {
    assert RoundHalfAway(0.000009999 * 100000000.0) == 1000;
  }

  /** The ETH cross quote is never shown in satoshis. */
  lemma EtherNeverSat(primary: Quote, reference: Quote)
    ensures Cross(primary, reference, "ETH").currPrice.Fixed5?
  {
  }

  /** The two arrow rules differ: a cross change of +0.004% rounds to 0.00 and
      shows a flat arrow, where the dollar quote of the same raw change would
      show an up arrow. */
  lemma CrossArrowFollowsRounding()
    ensures var primary := Quote(Usd(1.00004), Finite(1.0), Finite(0.0), Flat);
      var reference := Quote(Usd(1.0), Finite(1.0), Finite(0.0), Flat);
      var r := Cross(primary, reference, "ETH");
      && CrossChange(CrossRate(primary, reference), r.pastPrice) == Finite(0.004)
      && r.changeArrow == Flat
      && Normalize(RawQuote(1.0, 0.004)).changeArrow == Up
  {
    var primary := Quote(Usd(1.00004), Finite(1.0), Finite(0.0), Flat);
    var reference := Quote(Usd(1.0), Finite(1.0), Finite(0.0), Flat);
    assert CrossRate(primary, reference) == Finite(1.00004);
    assert CrossChange(Finite(1.00004), Finite(1.0)) == Finite(0.004);
    assert RoundHalfAway(0.004 * 100.0) == 0;
  }
}
