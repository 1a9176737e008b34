# DiscordSidebarPriceBot: price snapshot and rotation, in Dafny

The bot polls a price feed for one ticker and shows the result as its
Discord nickname (`<ticker> <unit><price> <arrow>`) and activity
(`<unit> 24h: <change>%`). With rotation on, a second 10-second timer cycles
the unit through `$`, `Ξ` and `₿`, showing the ticker's price in dollars, in
ETH and in BTC. A sentinel ticker (`ETHEREUMGASTICKER` or `⛽`) switches the
bot to an Etherscan gas-fee display instead.

This project models the part of `index.js` that computes what is shown:

- `numbers.dfy` (`Numbers`): JavaScript numbers over exact reals, with one
  value for the non-finite results of a division by zero; `Math.ceil`, and
  the rounding of `toFixed`.
- `quotes.dfy` (`Quotes`): the dollar quote of one feed entry (past price
  rebuilt from the raw change, change rounded up to hundredths, arrow from
  the raw change) and the cross quote against ETH or BTC (change rounded to
  the nearest hundredth, arrow from the rounded change, satoshi rendering
  below 0.00001 BTC).
- `snapshot.dfy` (`Snapshot`): the table one refresh builds, as functions of
  the feed's answer: the dollar quotes, the choice of ticker, the two cross
  quotes.
- `rotation.dfy` (`Rotation`): the cursor `$ → Ξ → ₿ → $`, the key each
  cursor value reads, and the self-referencing pairs that are never shown.
- `publish.dfy` (`Publish`): what one showPrice tick publishes.
- `gas.dfy` (`Gas`): the gas-mode dispatch and the two gas display texts.
- `bot.dfy` (`Bot`): the mutable state. `PriceData` is the record
  `priceData`, filled in place by two loops; `Bot` holds the configuration and
  the module-level `priceData` reference, and its `GetPrice` and `ShowPrice`
  are the two timer jobs, each run as one sequential step. Their contracts
  tie the new state and the published outcome to the functions above.

A publish is a returned `Outcome`: `Published(display)`, `Quiet` (nothing
is published), or `Fault` (a property read on `undefined` throws a
TypeError and nothing is published). The feed's answer (`data.found`, in
`Object.keys` order) and the gas oracle's answer are parameters. A
snapshot whose ticker was never set writes it as `undefined` in its keys
and texts, as JavaScript does (`Publish.TickerName`).

Four points of `index.js` that shape the model:

- Every refresh replaces `priceData` with `{ showPriceType: '$' }`
  (index.js:87), so the cursor is reset to `$` by each refresh. It does not
  persist across refreshes.
- showPrice takes the shown unit and the key from the cursor value before it
  advances (index.js:137-153), not after.
- The cursor advances on a suppressed tick too (index.js:139-158).
- In gas mode, a tier missing from the oracle's `result` is written as
  `undefined` and the display is still published. Only a missing `result`
  object throws inside the `try` and is swallowed (index.js:173-182).

## Model

| member | source | states |
|---|---|---|
| `Numbers.Quot` | index.js:102 | a quotient is finite exactly when the divisor is finite and nonzero, and then multiplies back to the dividend |
| `Numbers.Minus` | index.js:112 | a difference is finite exactly when both operands are, and adds back to the minuend |
| `Numbers.Ceil` | index.js:103 | `Math.ceil(x)` is an integer in `[x, x + 1)` |
| `Numbers.RoundHalfAway` | index.js:112-116 | the integer `toFixed` writes is within 1/2 of its argument, and has the argument's sign |
| `Numbers.ToFixed` | index.js:112-116 | `toFixed` keeps finiteness and moves a value by at most half a unit of the last place |
| `Quotes.Amount` | index.js:110 | a dollar price reads back as itself, and a satoshi text reads back as NaN |
| `Quotes.Trend` | index.js:104 | the arrow is ↗ iff the change is positive, ↘ iff it is negative, → iff it is zero |
| `Quotes.NumTrend` | index.js:122 | the arrow of a number is ↗/↘ iff it is finite and positive/negative |
| `Quotes.CeilHundredths` | index.js:103 | the shown change `c'` satisfies `c <= c' < c + 0.01` and is a whole number of hundredths |
| `Quotes.CeilHundredthsIsLeast` | index.js:103 | no whole number of hundredths lies between `c` and the shown change |
| `Quotes.Normalize` | index.js:100-105 | the dollar quote keeps the price; its change is exactly `CeilHundredths` of the raw change, `Math.ceil(c * 100) / 100`; its arrow follows the sign of the raw change; its past price times `(100 + c)/100` is the price, and it is finite iff `c ≠ -100` |
| `Quotes.NormalizeExample` | index.js:100-105 | price 100 with change 5.555 gives change 5.56, arrow ↗, past price between 94.73 and 94.74 |
| `Quotes.NormalizeTinyRise` | index.js:103-104 | a raw change of 0.0001 shows as 0.01 with arrow ↗ |
| `Quotes.CrossRate` | index.js:110 | the cross price of two dollar quotes is the quotient of their prices |
| `Quotes.CrossChange` | index.js:112 | the raw cross change is finite iff the past cross price is finite and nonzero, and then equals `(curr - past) / past * 100` |
| `Quotes.Cross` | index.js:110-123 | the past cross price is the quotient of the past prices; the satoshi form is taken iff the comparison is BTC and the rate is below 0.00001, with a count of at most 1000; and then equal to the rate times 10^8 rounded as `toFixed(0)` rounds; otherwise the rate is rounded to 5 places; the change is exactly the raw cross change rounded as `toFixed(2)` rounds, so within 0.005 of it; the arrow follows the ROUNDED change |
| `Quotes.CrossOfNormalized` | index.js:100-112 | for two feed entries with nonzero prices, the raw cross change is `100 * (a - b) / (100 + b)` for their 24h changes `a` and `b` |
| `Quotes.SatThresholdIsStrict` | index.js:113-116 | a BTC rate of exactly 0.00001 is shown with five decimals |
| `Quotes.SatJustBelowThreshold` | index.js:113-114 | a BTC rate of 0.000009999 is shown as 1000 sat |
| `Quotes.EtherNeverSat` | index.js:113-116 | the ETH cross quote always takes the five-decimal form |
| `Quotes.CrossArrowFollowsRounding` | index.js:104-122 | a raw cross change of +0.004 rounds to 0.00 and shows →, where a dollar quote with that change shows ↗ |
| `Rotation.Advance` | index.js:139-156 | with rotation on the cursor always moves; with rotation off `$` stays `$` |
| `Rotation.StepsPeriodic` | index.js:139-156 | with rotation on, three ticks return the cursor to where it started |
| `Rotation.StepsRotating` | index.js:139-156 | from `$`, the n-th tick shows `$`, `Ξ`, `₿` for n mod 3 = 0, 1, 2 |
| `Rotation.StepsWithoutRotation` | index.js:139-145 | with rotation off the cursor of a fresh snapshot never leaves `$` |
| `Rotation.PriceKey` | index.js:140-153 | `$` reads the ticker's own key, `Ξ` the ticker followed by `ETH`, `₿` the ticker followed by `BTC` |
| `Rotation.PriceKeyInjective` | index.js:140-153 | the three cursor values read three different keys |
| `Rotation.SelfKey` | index.js:147-158 | for `Ξ` and `₿`, the key read is the ticker written twice exactly when the ticker is the reference asset itself (ETH for `Ξ`, BTC for `₿`) |
| `Rotation.Suppressed` | index.js:158 | a tick is suppressed exactly when the cursor is `Ξ` or `₿` and the key it would read is the ticker written twice, the reference asset against itself |
| `Publish.TickerName` | index.js:141-159 | a set ticker is written as itself, an unset one as `undefined` |
| `Publish.Show` | index.js:158-162 | a tick is silent iff the pair is (ETH, Ξ) or (BTC, ₿); otherwise it publishes the entry under the key of the pre-advance cursor value, or faults if that entry is missing |
| `Publish.RotationSchedule` | index.js:137-162 | with rotation on and all keys present, tick i publishes unless the ticker is ETH and i mod 3 = 1, or BTC and i mod 3 = 2 |
| `Gas.IsGasTicker` | index.js:81 | gas mode is selected only by tickers other than ETH and BTC, so it never hides a reference ticker |
| `Gas.GasNickname` | index.js:178 | the nickname is `⚡`, then the fast tier, then ` gwei` |
| `Gas.GasActivity` | index.js:179 | the activity is `🚶`, then the standard tier, then ` 🐢`, then the slow tier |
| `Gas.Field` | index.js:175-177 | a tier present in `result` is read as its text; a missing one as `undefined` |
| `Gas.NicknameRoundTrip` | index.js:178 | the fast tier can be read back from the nickname `⚡<rapid> gwei` |
| `Gas.ActivityRoundTrip` | index.js:179 | the standard and slow tiers can be read back from `🚶<standard> 🐢<slow>` when the standard tier has no space |
| `Gas.GasOutcome` | index.js:165-183 | a gas refresh publishes iff the reply is a body with a `result`, shows the fast tier in the nickname and the standard and slow tiers in the activity; a failed fetch or unreadable body faults; a bad status or a missing `result` is silent |
| `Gas.GasExample` | index.js:175-179 | tiers 50, 30, 20 give `⚡50 gwei` and `🚶30 🐢20`; without the standard tier the activity reads `🚶undefined 🐢20` |
| `Snapshot.BaseTable` | index.js:88-106 | after the loop the last found entry's key holds the quote normalised from that entry |
| `Snapshot.BaseTableKeys` | index.js:88-106 | the dollar table has exactly the found keys |
| `Snapshot.BaseTableEntry` | index.js:89-105 | each key holds the quote normalised from its last occurrence |
| `Snapshot.PickTicker` | index.js:92-98 | when the loop changes the ticker, it becomes the configured ETH/BTC ticker, or a key that is neither ETH nor BTC |
| `Snapshot.PickReferenceTicker` | index.js:92-93 | an ETH or BTC ticker is chosen as soon as any key is found |
| `Snapshot.PickLastOther` | index.js:94-97 | for another ticker, the last found key that is neither ETH nor BTC is chosen |
| `Snapshot.PickOnlyReferences` | index.js:94-98 | for another ticker, when only ETH and BTC are found the ticker stays unset |
| `Snapshot.PickedIsFound` | index.js:92-98 | a chosen ticker is the configured ETH/BTC ticker, or a found key that is neither ETH nor BTC |
| `Snapshot.AddCross` | index.js:108-125 | the cross loop keeps every existing key, adds only keys ticker+comparison, and leaves every other entry as it was |
| `Snapshot.CrossEntries` | index.js:108-125 | the cross loop completes iff the ticker, ETH and BTC have entries; it adds the two cross quotes under ticker+ETH and ticker+BTC and changes nothing else; with only BTC missing the ETH cross quote is still added |
| `Snapshot.TicksAfterRefresh` | index.js:108-153 | after a complete cross loop, `$`, `Ξ` and `₿` each find their entry: the dollar quote, the ETH cross quote and the BTC cross quote |
| `Bot.PriceData.constructor` | index.js:87 | a fresh record has cursor `$`, no ticker and no entries |
| `Bot.PriceData.AddQuotes` | index.js:88-106 | the loop leaves the cursor alone, chooses the ticker as `PickTicker` does and adds `BaseTable(found)` |
| `Bot.PriceData.AddCrossRates` | index.js:108-125 | the loop leaves cursor and ticker alone and leaves the table and the completion flag as `AddCross` says |
| `Bot.Bot.constructor` | index.js:30-35 | before the first refresh there is no snapshot |
| `Bot.Bot.ShowPrice` | index.js:131-163 | without a snapshot nothing happens; otherwise the cursor advances, ticker and table are unchanged, and the outcome is `Show` of the pre-advance cursor value |
| `Bot.Bot.GetPrice` | index.js:80-129 | a gas ticker keeps the snapshot and publishes the gas outcome; a rejected feed call keeps the snapshot and faults; otherwise it installs a fresh snapshot with cursor `$`, the chosen ticker and the dollar table, then either adds the cross quotes (rotation on, nothing published, a fault if the loop threw) or publishes the `$` line at once (rotation off) |
| `Bot.ThreeTicks` | index.js:139-156 | with rotation on, three ticks leave cursor, ticker and table as they were |

## Left out

- Discord: client setup, login, the guild cache and the `setNickname` and
  `setActivity` calls (index.js:25-28, 39-46, 186-200). A publish is the
  returned `Outcome`. The nickname and activity texts of a price line are
  given as their parts (ticker, unit, price, arrow, change), not as text.
- Command-line arguments and their defaults, including upper-casing the
  ticker (index.js:48-70). The ticker and the rotation flag are constructor
  parameters.
- The timers (index.js:72-77) and the interleaving of a refresh and a
  rotation tick. Each job runs as one sequential step, so the staleness
  window between the two jobs is not modelled.
- `coinGeckoCmds.getPrice` and `loadLookupJson`: coinGeckoCmds.js is not
  part of this model. The feed's answer is a parameter: `None` for a call
  that rejects, otherwise the found quotes in any order; the list of
  requested tickers is not modelled.
- Snapshot.BaseTable: the table is a map beside the record's cursor and
  ticker. In `index.js` the entries are properties of `priceData` itself
  (index.js:100), so a found key `ticker` or `showPriceType` would overwrite
  those fields; the model keeps them apart.
- The Etherscan request: transport, status and JSON parsing become the four
  cases of `GasReply`. Field values are texts. A `result` that is a string,
  as in an error reply, behaves like an empty field map.
- What Node does after a TypeError escapes a timer callback or an async
  job. The model records `Fault` and keeps the state changes made before the
  throw.
- IEEE-754 doubles. Prices and changes are exact reals, so double rounding
  and the exact decimal digits of `toFixed` are not modelled, and neither is
  the exponent form `toFixed` uses from 1e21 up. A null 24h change from the
  feed reads as 0 in every formula, so it is modelled as 0.
- Numbers.Quot: Infinity, -Infinity and NaN collapse into one `NonFinite`
  value, and the sign of zero is ignored.
- Quotes.NumTrend: a non-finite cross change gets the arrow →, as NaN does.
  In the code +Infinity and -Infinity give ↗ and ↘.
- The `default` branch of the cursor switch (index.js:154-155): the cursor
  only ever holds `$`, `Ξ` or `₿`.
