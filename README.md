# Token risk scorer of the SimpleScan popup, in Dafny

The SimpleScan browser extension takes a Solana mint address and fetches the
token's main trading pair from Dexscreener. It then scores the pair with seven
threshold tests and shows a verdict: "Safe", "Risky" or "Rug Vibes". This
project models the logic of its popup script (`popup.js`) and proves
properties about that model.

- `Normalizer`: `isSolToken` and `deriveLiquidity`. The pair's liquidity figures are turned into a
  SOL-equivalent amount for scoring and an amount, kind and symbol for
  display. This goes through a chain of fallbacks, and every output is
  clamped to zero or above.
- `Scoring`: `scorePair` and `getLabelMeta`.
  - Each of the seven tests that holds adds a fixed weight to the score and appends a trigger key.
  - The score maps to a label.
  - Ratios are guarded against a zero divisor, and an infinity sentinel (the `Extended` datatype) stands in where a ratio is undefined.
  - `ScorePair` builds the score and trigger list step by step, as the script does. It is proved equal to the declarative `Score`: the firing triggers, filtered from the evaluation order, and the sum of their weights.
- `Cache`: `getCachedPair` and `setCachedPair`.
  - `PairCache` is a class with two map fields. One is the in-memory map from mint to entry. The other is the durable store, keyed by `"dex-cache:" + mint`, whose records either parse to an entry or are `Malformed`.
  - Every entry expires 10 000 ms after it is written.
  - The methods are proved against the value-level functions `Lookup`, `AfterLookup` and `Store`.
- `RecentScans`: the list update inside `saveRecentScan` and the `timeAgo` buckets.
- `Explain`: `describeTriggers`.
- `MintInput`: `validateMint`.
- Supporting modules:
  - `Config`: the `CONFIG` constants.
  - `Text`: `toUpperCase`, `trim`, `join` and decimal rendering.
  - `PairRecord`: the input record.
  - `Wrappers`: `Option`.

The input record's amounts are already coerced the way the script reads them
(`Number(x) || 0`): an absent, non-numeric, NaN or zero figure is `0.0`, and
an absent symbol or address is `""`. The creation time is read differently
(popup.js:155-158): it is `None` when the raw value is falsy or does not read
as a finite number, and otherwise `Some` of its numeric reading, which may be
`0.0` (a raw `"0"` is truthy) and then gives a finite age. `Date.now()` is the parameter `now`, in
milliseconds.

Behaviours of the script that the model keeps as written:
- `isSolToken` upper-cases the quote address and compares it with the SOL
  mint, which contains lower-case letters. That comparison can never
  succeed, so SOL detection depends on the symbol alone
  (`Normalizer.UpperIsNeverSolMint`, `Normalizer.SolTokenBySymbolOnly`).
- A missing creation time, or one that is not in the past, gives an
  infinite age. Such a pair is never a "fresh launch".
- A reported USD liquidity of zero or less always raises "FDV/liquidity
  skewed", even when the FDV is zero.
- Both ratios divide by the reported USD liquidity, not by the USD
  liquidity that `deriveLiquidity` reconstructs.

## Model

| member | source | states |
|---|---|---|
| Config.CacheTtlMs | popup.js:4 | definition: `cacheTtlMs`, 10 000 ms; no contract |
| Config.MinLiquiditySol | popup.js:5 | definition: `minLiquiditySol`, 2; no contract |
| Config.MaxFdvToLiquidity | popup.js:6 | definition: `maxFdvToLiquidity`, 50; no contract |
| Config.MinTransactions5m | popup.js:7 | definition: `minTransactions5m`, 10; no contract |
| Config.MinVolume5mUsd | popup.js:8 | definition: `minVolume5mUsd`, 500; no contract |
| Config.RecentLimit | popup.js:9 | definition: `recentLimit`, 8; no contract |
| Config.DefaultSolPriceUsd | popup.js:10 | definition: `defaultSolPriceUsd`, 150; no contract |
| Config.MinPairAgeHours | popup.js:11 | definition: `minPairAgeHours`, 12; no contract |
| Config.VolumeLiquidityAlert | popup.js:12 | definition: `volumeLiquidityAlert`, 1.5; no contract |
| Config.SellPressureRatio | popup.js:13 | definition: `sellPressureRatio`, 0.7; no contract |
| Config.MinTradesForPressure | popup.js:14 | definition: `minTradesForPressure`, 20; no contract |
| Config.SolMint | popup.js:18 | definition: `SOL_MINT`, spelled as the popup spells it; no contract |
| Config.CacheKeyPrefix | popup.js:19 | definition: `CACHE_KEY_PREFIX`; no contract |
| Config.MsPerHour | popup.js:159 | definition: the 3 600 000 divisor of the pair age, also the hour of `timeAgo`'s buckets; no contract |
| Text.ToUpper | popup.js:229-230 | `toUpperCase` on the characters the comparisons meet: the result holds no lower-case ASCII letter |
| Text.Trim | popup.js:63 | definition of `trim`; the result is no longer than the input and neither starts nor ends with whitespace |
| Text.Join | popup.js:35 | definition of `join`; no contract, its properties are the lemmas below |
| Text.ToUpperIdempotent | popup.js:229-230 | upper-casing an already upper-cased quote symbol or address changes nothing |
| Text.TrimWithoutWhitespace | popup.js:63 | `trim` leaves a string with no whitespace unchanged |
| Text.JoinLength | popup.js:35 | the joined text is all parts plus one separator between each two neighbours |
| Text.TotalLengthConcat | popup.js:35 | the summed length of the parts is additive over concatenation |
| Text.OffsetStep | popup.js:35 | part i+1 starts one part and one separator after part i |
| Text.OffsetTail | popup.js:35 | an offset past the first part is the tail's offset shifted by the first part and one separator |
| Text.JoinPlacesParts | popup.js:35 | the joined text holds part i at its offset, followed by the separator unless it is the last part |
| Text.ParseNatToString | popup.js:476-483 | the decimal count rendered in a template literal reads back as the same number |
| Normalizer.IsSolToken | popup.js:289-298 | definition of `isSolToken`, branch for branch; no contract, see the two lemmas below |
| Normalizer.UpperIsNeverSolMint | popup.js:291-293 | no upper-cased address equals the SOL mint, so the address branch of `isSolToken` never succeeds |
| Normalizer.SolTokenBySymbolOnly | popup.js:289-298 | `isSolToken` holds exactly when the upper-cased symbol is SOL or WSOL, whatever the address |
| Normalizer.IsSolPool | popup.js:229-236 | definition: `isSolToken` on the upper-cased quote address and symbol; no contract, see `SolPoolBySymbol` |
| Normalizer.SolPoolBySymbol | popup.js:229-236 | the pool is SOL-quoted exactly when the quote symbol, upper-cased, is SOL or WSOL |
| Normalizer.SolPriceUsd | popup.js:238-242 | the SOL price divisor is always positive, and is either the quote token's price or the 150 USD default |
| Normalizer.EstimatedQuoteAmount | popup.js:244-249 | the quote amount is non-negative, and positive exactly when a quote amount, or a base amount with a native price, is reported |
| Normalizer.UsdLiquidity | popup.js:251-257 | USD liquidity is non-negative, and positive exactly when one of the three fallbacks has positive inputs |
| Normalizer.SolEstimate | popup.js:259-269 | the SOL estimate of the fallback chain is never negative |
| Normalizer.Clamp | popup.js:282-283 | the `> 0 ? x : 0` guard of the two returned amounts: the result is never negative, and is the input or zero |
| Normalizer.Liquidity | popup.js:271-286 | both amounts are at least zero, and the display kind is SOL exactly for a SOL pool |
| Normalizer.DisplaySymbol | popup.js:279 | the display symbol is SOL for a SOL pool, else the upper-cased quote symbol, else USD |
| Normalizer.SolPoolScoresQuoteAmount | popup.js:260-276 | in a SOL pool with a positive quote amount, that amount is both the score figure and the display figure |
| Normalizer.SolEquivalentOfUsd | popup.js:264-269 | when no quote amount is used, the SOL-equivalent times the SOL price gives back the USD liquidity |
| Normalizer.SolForScorePositive | popup.js:259-282 | the SOL-equivalent is positive exactly when a SOL pool has a quote amount or the USD liquidity is positive |
| Normalizer.DeriveLiquidity | popup.js:227-287 | the step-by-step reassignment of `usdLiquidity` and `solEstimate` computes exactly `Liquidity` |
| Scoring.Name | popup.js:166-196 | definition of the seven keys pushed onto `triggers`; no contract, see `TriggerDescribed` |
| Scoring.Weight | popup.js:165-195 | definition of the seven score increments 3, 2, 1, 1, 2, 1, 1; no contract, see `ScoreIsWeightSum` |
| Scoring.EvaluationOrder | popup.js:164-197 | definition of the order of the seven `if` blocks; no contract, see `Rank` and `TriggersOrderedAndDistinct` |
| Scoring.Rank | popup.js:164-197 | every trigger has a position in the evaluation order |
| Scoring.GetLabelMeta | popup.js:300-308 | Rug Vibes exactly from 5, Risky exactly from 3 to 4, Safe exactly below 3 |
| Scoring.LabelMonotone | popup.js:300-308 | a higher score never gives a milder label |
| Scoring.LabelMetaOneToOne | popup.js:300-308 | two scores get the same emoji, and the same badge class, exactly when they get the same label |
| Scoring.PairAgeHours | popup.js:155-159 | the age is finite exactly when a creation time is present and in the past, and then it is positive and equals the elapsed milliseconds over 3 600 000 |
| Scoring.MeasuresOf | popup.js:143-159 | the FDV ratio is infinite exactly when the reported USD liquidity is not positive, the volume ratio is then 0, the sell share is 0 with no trades, and the SOL figure is never negative |
| Scoring.Fires | popup.js:164-197 | definition of the seven test conditions; no contract, see `TriggerPresent` |
| Scoring.Score | popup.js:142-225 | definition of the result as the firing triggers in evaluation order with their weight sum; no contract, see the lemmas below and `ScorePair` |
| Scoring.FiringMembers | popup.js:164-197 | a trigger is kept exactly when it is among the tests and its condition holds |
| Scoring.FiringKeepsOrder | popup.js:164-197 | keeping only the firing triggers preserves evaluation order |
| Scoring.FiringConcat | popup.js:164-197 | filtering a concatenation is concatenating the filtered parts |
| Scoring.PushIfStep | popup.js:164-197 | running one more test extends the filtered triggers by that test and the score by its weight |
| Scoring.SevenTests | popup.js:161-197 | the seven tests run in a row give the filtered evaluation order and the weight of what they found |
| Scoring.FiringWeightBound | popup.js:161-197 | the firing triggers never weigh more than all seven |
| Scoring.WeightOfConcat | popup.js:161-197 | the weight of a concatenation is the sum of the weights |
| Scoring.ScoreIsWeightSum | popup.js:161-197 | the score is the sum of the weights of the triggers present, between 0 and 11 |
| Scoring.TriggersOrderedAndDistinct | popup.js:164-197 | triggers appear in evaluation order and without duplicates |
| Scoring.TriggerPresent | popup.js:164-197 | a trigger is present exactly when its condition holds on the measures |
| Scoring.LabelFromScore | popup.js:300-308 | the result's label is determined by its score through the three thresholds |
| Scoring.ZeroUsdLiquidity | popup.js:152-189 | with no positive reported USD liquidity, the FDV ratio is infinite and flagged, and the volume ratio is 0 and not flagged |
| Scoring.SellPressureCondition | popup.js:151-194 | sell pressure is flagged exactly with at least 20 trades and a sell share above 0.7; with no trades the ratio is 0 |
| Scoring.FreshLaunchCondition | popup.js:155-184 | fresh launch is flagged exactly when the creation time is present and lies less than 12 hours, and more than 0 ms, in the past |
| Scoring.MissingCreationNeverFresh | popup.js:155-159 | a missing or future creation time gives an infinite age and no fresh-launch flag |
| Scoring.EvaluateTriggers | popup.js:161-197 | the seven `if` blocks compute the filtered evaluation order and the sum of its weights |
| Scoring.ScorePair | popup.js:142-225 | the step-by-step scorer computes exactly the declarative `Score` |
| Explain.Description | popup.js:21-29 | definition of the description table; no contract, see `TriggerDescribed` |
| Explain.DescribeTriggers | popup.js:30-36 | definition of `describeTriggers`; no contract, see the two lemmas below |
| Explain.TriggerDescribed | popup.js:21-29 | every trigger key has a description, which is non-empty |
| Explain.NoFlagsExactlyWhenNoTriggers | popup.js:30-36 | for the scorer's keys, the "no red flags" sentence appears exactly when there are no triggers |
| Explain.ExplanationShape | popup.js:34-35 | the explanation's length is the descriptions' lengths plus 2 per gap; the description of key i sits at its offset (the earlier descriptions plus one ", " each), and exactly ", " fills the gap to the next one |
| MintInput.IsBase58Char | popup.js:17 | definition of the pattern's character class; no contract |
| MintInput.IsMintText | popup.js:17 | definition of the whole pattern: 32 to 44 characters of the class; no contract |
| MintInput.ValidateMint | popup.js:62-67 | valid exactly when the trimmed input is 32-44 base58 characters, and the result is then the trimmed input; otherwise the fixed error message |
| MintInput.AmbiguousCharsRejected | popup.js:17 | 0, O, I and l are not base58 characters |
| MintInput.ValidateMintIdempotent | popup.js:62-67 | validating an accepted mint again accepts it unchanged |
| Cache.StorageKeyInjective | popup.js:91-111 | different mints never share a durable key |
| Cache.Lookup | popup.js:85-104 | expired entries count as absent: a returned pair comes from a memory entry or a parsed durable record that is still fresh, nothing is returned exactly when neither tier has a fresh entry, and a fresh memory entry answers first |
| Cache.AfterLookup | popup.js:95-96 | a lookup leaves the durable tier, and the memory entries of other mints, as they were |
| Cache.StoreThenLookup | popup.js:85-109 | a write is read back at every time before its TTL runs out |
| Cache.StoreThenExpired | popup.js:88-111 | once the TTL has run out, a persisted write is returned by neither tier, and the read changes nothing |
| Cache.UnpersistedThenExpired | popup.js:91-114 | after a failed durable write expires, the lookup falls back to what the durable tier held before |
| Cache.StoreLeavesOtherMints | popup.js:106-115 | writing one mint does not change any lookup of another mint |
| Cache.MalformedIsMiss | popup.js:93-103 | a malformed durable record behind a memory miss is a miss, and the state is unchanged |
| Cache.DurableHitPromoted | popup.js:95-97 | a fresh durable hit is copied into memory, which answers for it until it expires even if the durable record changes |
| Cache.LookupIdempotent | popup.js:85-104 | reading twice at the same time gives the same answer and state as reading once |
| Cache.PairCache.constructor | popup.js:20 | a fresh page starts with an empty memory tier and the durable records left by earlier pages |
| Cache.PairCache.GetCachedPair | popup.js:85-104 | the method returns `Lookup` and leaves the state `AfterLookup` |
| Cache.PairCache.SetCachedPair | popup.js:106-115 | the method leaves the state `Store` |
| RecentScans.WithoutMint | popup.js:420 | the filter never lengthens the list; its other properties are the lemmas below |
| RecentScans.WithoutMintMembers | popup.js:420 | an entry survives the filter exactly when it was present and is for another mint |
| RecentScans.WithoutMintCount | popup.js:420 | after the filter no entry for the mint is left |
| RecentScans.WithoutAbsentMint | popup.js:420 | filtering a list that has no entry for the mint leaves it unchanged |
| RecentScans.WithoutMintKeepsOrder | popup.js:420 | the filter keeps the kept entries in their relative order |
| RecentScans.StoredList | popup.js:419 | definition of `Array.isArray(stored) ? stored : []`; no contract, see `SaveRecentScan` |
| RecentScans.Saved | popup.js:419-424 | the saved list starts with the new entry, holds at most 8 entries, and continues with a prefix of the other mints' entries |
| RecentScans.SavedShape | popup.js:419-424 | the new entry's mint appears exactly once, the length is the smaller of 8 and one plus the other mints' entries, and the old order is kept |
| RecentScans.SaveTwice | popup.js:417-427 | saving the same scan twice is saving it once |
| RecentScans.SaveRecentScan | popup.js:418-424 | filter, unshift and slice rebind the list to exactly `Saved` |
| RecentScans.AgeOf | popup.js:473-484 | definition of the buckets by floor division; no contract, see `AgeBuckets` |
| RecentScans.TimeAgo | popup.js:473-484 | definition of the rendered text; no contract, see `TimeAgoReadsBack` |
| RecentScans.AgeBuckets | popup.js:473-484 | each bucket covers the elapsed time its count names: under a minute; 1-59 whole minutes; 1-23 whole hours; whole days |
| RecentScans.TimeAgoReadsBack | popup.js:476-483 | each text other than "just now" is a decimal count, a unit letter and " ago", and the count reads back as the bucket's number |

## Left out

- The user interface, none of which carries stateable logic:
  - DOM access and rendering (`renderResult`, `renderErrorCard`, `renderAnalysis`, `updateRecentList`);
  - toasts, loading state, the event handlers and `init`;
  - clipboard access.
- `fetchPair`'s HTTP request and its handling of Dexscreener's response. This is network I/O. Only the cache around it is modelled.
- The `chrome.storage` promise wrappers and the asynchronous persistence of the recent list. The stored value is a parameter of `RecentScans.SaveRecentScan`, which returns the list the script writes back.
- JSON parsing and `localStorage` exceptions:
  - a durable record that fails to parse, or lacks a numeric expiry, is `Malformed`;
  - a durable write that throws is `persisted == false`, which leaves the durable tier unchanged;
  - a record that parses but has no `data` field is not modelled.
- The number formatters: `formatUsdShort`, `formatTokenAmount`, `formatMultiple`, `formatPercent`, `formatAge` and `formatBuySell`. They depend on floating-point `toFixed`/`Math.round` rendering.
- Floating point: amounts are exact reals, so rounding, overflow to Infinity, and NaN are not modelled. The finiteness tests at popup.js:156 and popup.js:282-283 are therefore always true in the model.
- JavaScript coercions (`Number(x) || 0`, `typeof x === "string"`, and the truthiness and `Number.isFinite` test of the creation time) have already been applied to the input record.
- `Text.ToUpper`: does not model full Unicode upper-casing. It maps ASCII `a`-`z` and U+017F to upper case and leaves every other character alone. That is exact for the comparisons with "SOL" and "WSOL". It is not exact for the upper-cased symbol shown in the display, which is affected only for non-ASCII symbols. In particular the model never changes the length of a string, while `toUpperCase` turns "ß" into "SS".
- `Explain.DescribeTriggers` takes a sequence of keys. An argument that is not an array, and keys that hit inherited properties of the description object (such as "constructor"), are not modelled.
- `RecentScans.AgeOf`: timestamps are integers. A fractional timestamp, and entries stored without a numeric `ts`, are not modelled.
