/** The rotation cursor of the price snapshot, `priceData.showPriceType`
    (index.js:131-163): which denomination the next showPrice call displays,
    the table key it reads, and when it stays silent. */
module Rotation {

  /** The cursor's three values, '$', 'Ξ' and '₿'. */
  datatype Denom = Dollar | Ether | Bitcoin

  /** The cursor after one showPrice call: '$' → 'Ξ' → '₿' → '$', except that
      '$' stays put when rotation is off. */
  function Advance(d: Denom, rotate: bool): (e: Denom)
    ensures rotate ==> e != d
    ensures !rotate && d == Dollar ==> e == Dollar
  {
    match d
    case Dollar => if rotate then Ether else Dollar
    case Ether => Bitcoin
    case Bitcoin => Dollar
  }

  /** The cursor after `n` showPrice calls. */
  function Steps(d: Denom, rotate: bool, n: nat): Denom
  {
    if n == 0 then d else Advance(Steps(d, rotate, n - 1), rotate)
  }

  /** With rotation on, three calls bring the cursor back to where it was. */
  lemma {:induction false} StepsPeriodic(d: Denom, n: nat)
    ensures Steps(d, true, n + 3) == Steps(d, true, n)
  {
    if n == 0 {
      assert Steps(d, true, 1) == Advance(d, true);
      assert Steps(d, true, 2) == Advance(Advance(d, true), true);
    } else {
      StepsPeriodic(d, n - 1);
    }
  }

  /** With rotation on, the cursor of a fresh snapshot shows '$', 'Ξ', '₿' in
      turn. */
  lemma {:induction false} StepsRotating(n: nat)
    ensures Steps(Dollar, true, n) == [Dollar, Ether, Bitcoin][n % 3]
  {
    if n >= 3 {
      StepsRotating(n - 3);
      StepsPeriodic(Dollar, n - 3);
    } else if n == 2 {
      assert Steps(Dollar, true, 1) == Ether;
    }
  }

  /** With rotation off, the cursor of a fresh snapshot never leaves '$'. */
  lemma {:induction false} StepsWithoutRotation(n: nat)
    ensures Steps(Dollar, false, n) == Dollar
  {
    if n > 0 {
      StepsWithoutRotation(n - 1);
    }
  }

  /** The snapshot key shown for a cursor value: the ticker itself, or the
      ticker followed by the reference asset's symbol. */
  function PriceKey(ticker: string, denom: Denom): (k: string)
    ensures denom == Dollar ==> k == ticker
    ensures denom == Ether ==> k == ticker + "ETH"
    ensures denom == Bitcoin ==> k == ticker + "BTC"
    ensures |k| == |ticker| + (if denom == Dollar then 0 else 3)
    ensures k[..|ticker|] == ticker
  {
    match denom
    case Dollar => ticker
    case Ether => ticker + "ETH"
    case Bitcoin => ticker + "BTC"
  }

  /** The three cursor values read three different keys. */
  lemma PriceKeyInjective(ticker: string, a: Denom, b: Denom)
    requires a != b
    ensures PriceKey(ticker, a) != PriceKey(ticker, b)
  {
    if a != Dollar && b != Dollar {
      var ka, kb := PriceKey(ticker, a), PriceKey(ticker, b);
      assert ka[|ticker|] != kb[|ticker|];
    }
  }

  /** The self-referencing pairs that showPrice never publishes: ETH shown in
      ETH, BTC shown in BTC. */
  predicate Suppressed(ticker: string, denom: Denom): (b: bool)
    ensures b <==> denom != Dollar && PriceKey(ticker, denom) == ticker + ticker
  {
    SelfKey(ticker, denom);
    (ticker == "ETH" && denom == Ether) || (ticker == "BTC" && denom == Bitcoin)
  }

  /** A reference key is the ticker written twice only for the reference
      asset's own ticker. */
  lemma SelfKey(ticker: string, denom: Denom)
    ensures denom != Dollar ==>
      (PriceKey(ticker, denom) == ticker + ticker <==> ticker == (if denom == Ether then "ETH" else "BTC"))
  {
    if denom == Dollar { return; }
    var suffix := if denom == Ether then "ETH" else "BTC";
    var k := PriceKey(ticker, denom);
    assert k == ticker + suffix;
    if k == ticker + ticker {
      assert k[|ticker|..] == suffix;
      assert (ticker + ticker)[|ticker|..] == ticker;
    }
  }
}
