/** The gas mode of the bot (index.js:81-84, 165-184): a sentinel ticker
    replaces the price pipeline with the three fee tiers of the Etherscan gas
    oracle. The request itself is an input: the model receives how it ended. */
module Gas {
  import opened Options
  import opened Publish

  /** The two tickers that select gas mode. */
  predicate IsGasTicker(ticker: string): (b: bool)
    ensures b ==> ticker != "ETH" && ticker != "BTC"
  {
    ticker == "ETHEREUMGASTICKER" || ticker == "⛽"
  }

  /** How the gas-oracle request ended. */
  datatype GasReply =
    | Unreachable  // fetch rejected; `res` is undefined and reading `res.ok` throws
    | NotOk        // an HTTP status outside 200-299
    | Unparsable   // the body is not JSON and `res.json()` rejects
    | Body(result: Option<map<string, string>>)  // `data.result` if present, field name to text

  /** `result[name]` written into a template: a missing field reads as
      `undefined` and is written as that word. */
  function Field(fields: map<string, string>, name: string): (v: string)
    ensures name in fields ==> v == fields[name]
    ensures name !in fields ==> v == "undefined"
  {
    if name in fields then fields[name] else "undefined"
  }

  /** The nickname `⚡<rapid> gwei`. */
  function GasNickname(rapid: string): (s: string)
    ensures |s| == |rapid| + 6 && s[0] == '⚡'
    ensures s[1..|s| - 5] == rapid && s[|s| - 5..] == " gwei"
  {
    "⚡" + rapid + " gwei"
  }

  /** The activity `🚶<standard> 🐢<slow>`. */
  function GasActivity(standard: string, slow: string): (s: string)
    ensures |s| == |standard| + |slow| + 3 && s[0] == '🚶'
    ensures s[1..|standard| + 1] == standard
    ensures s[|standard| + 1..|standard| + 3] == " 🐢"
    ensures s[|standard| + 3..] == slow
  {
    "🚶" + standard + " 🐢" + slow
  }

  /** The fast tier read back from a gas nickname. */
  function RapidOf(nickname: string): Option<string>
  {
    if |nickname| >= 6 && nickname[0] == '⚡' && nickname[|nickname| - 5..] == " gwei"
    then Some(nickname[1..|nickname| - 5])
    else None
  }

  lemma NicknameRoundTrip(rapid: string)
    ensures RapidOf(GasNickname(rapid)) == Some(rapid)
  {
    var s := GasNickname(rapid);
    assert s[1..|s| - 5] == rapid;
    assert s[|s| - 5..] == " gwei";
  }

  /** The position of the first space in `s`, or `|s|` when there is none. */
  function IndexOfSpace(s: string): (i: nat)
    ensures i <= |s|
    ensures i < |s| ==> s[i] == ' '
    ensures forall j :: 0 <= j < i ==> s[j] != ' '
  {
    if s == [] then 0
    else if s[0] == ' ' then 0
    else 1 + IndexOfSpace(s[1..])
  }

  /** The standard and slow tiers read back from a gas activity. */
  function SplitActivity(activity: string): Option<(string, string)>
  {
    if |activity| >= 1 && activity[0] == '🚶' then
      var rest := activity[1..];
      var i := IndexOfSpace(rest);
      if i + 1 < |rest| && rest[i + 1] == '🐢' then Some((rest[..i], rest[i + 2..])) else None
    else None
  }

  /** The activity can be split back into its two tiers whenever the standard
      tier has no space in it, as the oracle's numeric texts do not. */
  lemma ActivityRoundTrip(standard: string, slow: string)
    requires forall j :: 0 <= j < |standard| ==> standard[j] != ' '
    ensures SplitActivity(GasActivity(standard, slow)) == Some((standard, slow))
  {
    var s := GasActivity(standard, slow);
    var rest := s[1..];
    assert rest == standard + " 🐢" + slow;
    assert rest[|standard|] == ' ';
    assert IndexOfSpace(rest) == |standard|;
    assert rest[..|standard|] == standard;
    assert rest[|standard| + 2..] == slow;
  }

  /** What one gas refresh publishes (index.js:165-184). A successful reply
      whose `result` is present is always published, even when a tier is
      missing from it; only a missing `result` makes the field read throw,
      which the catch swallows. A failed fetch or an unreadable body ends in
      an uncaught error. */
  function GasOutcome(reply: GasReply): (o: Outcome)
    ensures o.Published? <==> reply.Body? && reply.result.Some?
    ensures o == Fault <==> reply.Unreachable? || reply.Unparsable?
    ensures o.Published? ==>
      var fields := reply.result.value;
      && o.display == GasLine(
           GasNickname(Field(fields, "FastGasPrice")),
           GasActivity(Field(fields, "ProposeGasPrice"), Field(fields, "SafeGasPrice")))
      && RapidOf(o.display.nickname) == Some(Field(fields, "FastGasPrice"))
  {
    match reply
    case Unreachable => Fault
    case NotOk => Quiet
    case Unparsable => Fault
    case Body(None) => Quiet
    case Body(Some(fields)) =>
      NicknameRoundTrip(Field(fields, "FastGasPrice"));
      Published(GasLine(
        GasNickname(Field(fields, "FastGasPrice")),
        GasActivity(Field(fields, "ProposeGasPrice"), Field(fields, "SafeGasPrice"))))
  }

  /** Example: tiers 50, 30 and 20 give `⚡50 gwei` and
      `🚶30 🐢20`; without the standard tier the activity says `undefined`. */
  lemma GasExample()
    ensures GasOutcome(Body(Some(map["FastGasPrice" := "50", "ProposeGasPrice" := "30", "SafeGasPrice" := "20"])))
      == Published(GasLine("⚡50 gwei", "🚶30 🐢20"))
    ensures GasOutcome(Body(Some(map["FastGasPrice" := "50", "SafeGasPrice" := "20"])))
      == Published(GasLine("⚡50 gwei", "🚶undefined 🐢20"))
  {
    var full := map["FastGasPrice" := "50", "ProposeGasPrice" := "30", "SafeGasPrice" := "20"];
    var partial := map["FastGasPrice" := "50", "SafeGasPrice" := "20"];
    assert Field(full, "FastGasPrice") == "50" && Field(partial, "FastGasPrice") == "50";
    assert Field(full, "ProposeGasPrice") == "30" && Field(partial, "ProposeGasPrice") == "undefined";
    assert Field(full, "SafeGasPrice") == "20" && Field(partial, "SafeGasPrice") == "20";
    assert GasNickname("50") == "⚡50 gwei";
    assert GasActivity("30", "20") == "🚶30 🐢20";
    assert GasActivity("undefined", "20") == "🚶undefined 🐢20";
  }
}
