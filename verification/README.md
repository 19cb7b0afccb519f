# Tor-node signal analyzer, modelled in Dafny

This project models the decision logic of the `CryptoAnalyzer` class of a
crypto dashboard. The analyzer keeps a two-slot window of Bitcoin
peer-network snapshots: the current one and the previous one. A successful
fetch rotates the window. From the two snapshots the analyzer derives these
results:

- the signed change in the number of Tor nodes and its percentage;
- four ordinal confidence factors and an aggregate confidence (LOW, MEDIUM, HIGH);
- a trading signal with its paired bias, chosen from a priority-ordered decision table;
- a separate network-growth signal, based on the change in the total node count.

Modules, one per component:

- `Snapshot` (`snapshot.dfy`) holds the snapshot record and the zero-guarded
  derivation of the Tor percentage and the active ratio.
- `Window` (`window.dfy`) holds the window as a value, its rotation, its
  image in the state file, and the history lemma for a run of fetches.
- `Confidence` (`confidence.dfy`) holds the four factor grades as enumerations,
  the high and medium counts, the aggregate level and its monotonicity.
- `Signals` (`signals.dfy`) holds the guarded percentage change, the decision
  table and the full Tor-signal analysis of a window.
- `Growth` (`growth.dfy`) holds the network-growth signal.
- `Analyzer` (`analyzer.dfy`) holds the `CryptoAnalyzer` class. Its two
  mutable `Option` slots are updated in place by `UpdateNodeData`, and its
  methods read the two analyses off those slots.

Modelling choices:

- Node counts are unbounded `int`s, because they arrive as JSON integers.
  The zero guards keep the source's `> 0` tests, so a negative count is
  handled the same way as zero.
- Python floats (`tor_percentage`, `active_ratio`, `percentage_change`) are
  exact `real`s.
- The source builds the factors as strings and counts them by prefix
  (`LARGE`/`HEALTHY`, `MEDIUM`/`MODERATE`). Here they are the datatype
  `Factor`, with `IsHigh` and `IsMedium` standing for the prefix tests.
- The reasoning text is modelled as a tag. The tag names the branch and
  carries the numbers the text embeds.
- The fetch result is a parameter of type `Option<NodeSnapshot>`.
- The state file, as the constructor reads it, is an `Option<StoredState>`
  parameter. `None` stands for a file that is missing or that cannot be
  parsed.
- Each Streamlit run builds a new analyzer from the state file. The window
  therefore survives from one run to the next only through the state file.
  `Window.Save` proves that loading the saved image gives back the same
  window.
- A `total_change` of 0 is classified as NETWORK SHRINKING. This is how the
  code is written, and the model keeps it (`Growth.GrowthOf`,
  `Growth.ScenarioUnchangedTotal`).

## Model

| member | source | states |
|---|---|---|
| Snapshot.Derive | app.py:68-78 | the snapshot keeps the three counts. With a non-positive total, both the Tor percentage and the active ratio are 0. Otherwise percentage × total = Tor nodes × 100, and ratio × total = active nodes |
| Snapshot.DeriveBounds | app.py:68-69 | when active and Tor counts do not exceed the total, the active ratio lies in [0, 1] and the Tor percentage lies in [0, 100] |
| Window.EmptyWindow | app.py:26-31 | the start window has both slots empty |
| Window.Load | app.py:18-31 | a missing or unparsable file gives the empty window; otherwise the stored current and previous slots are taken as they are |
| Window.Save | app.py:33-42 | the image written holds both slots, and loading it gives back exactly the saved window |
| Window.Rotate | app.py:83-94 | reports success iff the fetch succeeded; a failed fetch leaves the window unchanged; a successful one makes the fetched snapshot current and the old current previous |
| Window.RotateForgetsPrevious | app.py:89-91 | after a successful rotation the old previous slot has no influence on the result |
| Window.ReplayKeepsLastTwo | app.py:83-94 | after any sequence of fetches, the window holds the latest two successful snapshots, falling back on the starting slots when fewer than two fetches succeeded |
| Confidence.GradeTorChange | app.py:122-128 | LARGE iff abs(change) > 50; MEDIUM iff 25 < abs(change) <= 50; SMALL otherwise (strict thresholds) |
| Confidence.GradePercentage | app.py:130-136 | LARGE iff abs(pct) > 5; MEDIUM iff 2.5 < abs(pct) <= 5; SMALL otherwise (strict thresholds) |
| Confidence.GradeNetwork | app.py:138-144 | LARGE iff total > 10000; MEDIUM iff 8000 < total <= 10000; SMALL otherwise (strict thresholds) |
| Confidence.GradeActiveRatio | app.py:146-152 | HEALTHY iff 0.7 <= ratio <= 0.9; MODERATE iff the ratio is in [0.6, 0.95] but outside [0.7, 0.9]; POOR otherwise (inclusive bands) |
| Confidence.Factors | app.py:119-152 | exactly four factors, in the fixed order magnitude, percentage, network size, active ratio. Each position is high or medium exactly at its own thresholds: abs(change) > 50 or in (25, 50]; abs(pct) > 5 or in (2.5, 5]; total > 10000 or in (8000, 10000]; ratio in [0.7, 0.9], or in [0.6, 0.95] outside it |
| Confidence.IsHigh | app.py:155-156 | the LARGE/HEALTHY prefix test holds exactly for the strongest of a dimension's three grades |
| Confidence.IsMedium | app.py:157-158 | the MEDIUM/MODERATE prefix test holds exactly for the middle grade, so a factor is never both medium and high |
| Confidence.HighCount | app.py:155-156 | the number of high factors never exceeds the number of factors |
| Confidence.MediumCount | app.py:157-158 | the number of medium factors never exceeds the number of factors |
| Confidence.CountsCharacterized | app.py:155-158 | each count is 0 exactly when no factor of its kind is present, and equals the length exactly when every factor is of its kind |
| Confidence.CountsBounded | app.py:155-158 | no factor counts as both high and medium, so high + medium never exceeds the number of factors |
| Confidence.LevelOf | app.py:160-165 | the bands are nested: the level is above LOW exactly when high + medium >= 3, and HIGH needs at least three factors |
| Confidence.LevelBands | app.py:160-165 | HIGH iff high >= 3; MEDIUM iff high < 3 and high + medium >= 3; LOW iff high + medium < 3 |
| Confidence.Classify | app.py:119-165 | over the four factors of the inputs: HIGH iff high >= 3; MEDIUM iff high < 3 and high + medium >= 3; LOW iff high + medium < 3. Confidence above LOW needs one of the two change factors at MEDIUM or above; HIGH needs one of them at LARGE. Network size and active ratio cannot raise the confidence alone |
| Confidence.LevelMonotone | app.py:155-165 | raising factor grades position by position never lowers either count, and never lowers the level |
| Confidence.ClassifyMonotone | app.py:119-165 | larger change and percentage magnitudes, with network size and ratio fixed, never give a lower confidence |
| Signals.PercentageChangeOf | app.py:116-117 | with a non-positive previous Tor count the result is 0 (no division); otherwise pct × previous = change × 100 |
| Signals.PercentageSign | app.py:117 | against a positive baseline the percentage change has the sign of the node change |
| Signals.PercentageMonotone | app.py:117 | with a fixed baseline, a larger change in magnitude gives a percentage at least as large in magnitude |
| Signals.BiasOf | app.py:169-202 | bearish biases go exactly with the SELL family and bullish ones exactly with the BUY family. NEUTRAL goes exactly with HOLD, and NEED MORE DATA exactly with INSUFFICIENT_DATA |
| Signals.BiasIdentifiesSignal | app.py:169-202 | each signal has its own fixed bias, and distinct signals have distinct biases |
| Signals.Decide | app.py:167-202 | bias is the one paired with the signal; STRONG signals only at HIGH; SELL/BUY only at MEDIUM or HIGH; each signal implies its row's thresholds; SELL family implies change > 10 and BUY family change < -10; HOLD iff -10 <= change <= 10; the reasoning carries the change. Each signal comes with its own rationale tag (large, moderate or small increase or decrease, minimal change), and the four percentage-gated rows cite the percentage given. Conversely, each row's conditions produce its signal when no earlier row matches: rules 1 and 2 give STRONG SELL/BUY; rules 3 and 4 give SELL/BUY at MEDIUM and STRONG or plain at HIGH; rules 5 and 6 give SLIGHT SELL/BUY when rules 3 and 4 do not apply |
| Signals.StrongSellTakesPriority | app.py:169-192 | when the strong-sell conditions hold, the result is STRONG SELL at HIGH, SELL at MEDIUM and SLIGHT SELL at LOW |
| Signals.LowConfidenceFallsThrough | app.py:188-202 | at LOW confidence any change above 10 gives SLIGHT SELL, any change below -10 gives SLIGHT BUY, and anything else gives HOLD |
| Signals.Compare | app.py:110-216 | for two snapshots: the Tor counts and their signed change, and the guarded percentage change. The factors are `Factors` of those figures and the current snapshot. The confidence is the level of those factors. Signal, bias and reasoning are the decision table's row for change, percentage and confidence |
| Signals.HighConfidenceSignal | app.py:96-216 | INSUFFICIENT_DATA iff a slot is empty. In that case: LOW confidence, NEED MORE DATA, zero change and percentage, and the Tor counts of the filled slots (0 for an empty one). Otherwise the comparison of the current snapshot against the previous one |
| Signals.NoBaselineOnlySlightSignals | app.py:116-186 | with a non-positive previous Tor count, only SLIGHT SELL, SLIGHT BUY or HOLD can result |
| Signals.RaisingChangeNeverLowersConfidence | app.py:110-165 | with the previous count, network size and ratio fixed, a larger Tor change in magnitude never lowers the confidence |
| Signals.ScenarioStrongSell | app.py:110-172 | snapshots derived from counts, 1000 → 1060 Tor nodes, total 9100, ratio 0.8: change +60, +6.0 %, HIGH, STRONG SELL, HIGHLY BEARISH |
| Signals.ScenarioBuy | app.py:110-186 | snapshots derived from counts, 1000 → 970 Tor nodes, total 9100, ratio 0.65: change -30, -3.0 %, MEDIUM, BUY, BULLISH |
| Growth.GrowthOf | app.py:232-240 | STRONG GROWTH iff change > 100; GROWING iff 50 < change <= 100; STABLE iff 0 < change <= 50; SHRINKING iff change <= 0, zero included |
| Growth.GrowthMonotone | app.py:232-240 | a larger total-node change never gives a weaker growth signal |
| Growth.NetworkSignalOf | app.py:218-247 | INSUFFICIENT_DATA iff a slot is empty, with zero change and the totals of the filled slots; otherwise change = current − previous, the signal is the growth band of that change, and SHRINKING iff the total did not grow |
| Growth.ScenarioUnchangedTotal | app.py:228-240 | equal totals of 9000 give a change of 0 and NETWORK SHRINKING, not STABLE |
| Analyzer.CryptoAnalyzer.constructor | app.py:13-31 | the slots are the loaded window, and both are empty when there is no usable file |
| Analyzer.CryptoAnalyzer.SaveNodeData | app.py:33-44 | the image written is the current window and reloads to it |
| Analyzer.CryptoAnalyzer.UpdateNodeData | app.py:83-94 | new slots and result are exactly `Window.Rotate` of the old slots. A failure returns false with both slots unchanged and writes nothing. A success returns true with current = fetched and previous = old current, and writes the save image of the new window, which reloads to it |
| Analyzer.CryptoAnalyzer.CalculateHighConfidenceSignal | app.py:96-216 | the result is the Tor-signal analysis of the two slots, and it is INSUFFICIENT_DATA iff a slot is empty |
| Analyzer.CryptoAnalyzer.CalculateNetworkSignal | app.py:218-247 | the result is the growth analysis of the two slots, and it is INSUFFICIENT_DATA iff a slot is empty |
| Analyzer.RerunsCarryTheWindow | app.py:253-351 | three page runs, each with a new analyzer built from the state file. After the first successful fetch the signal is INSUFFICIENT_DATA, reporting the first Tor count as current and 0 as previous. The failed fetch of the second run writes nothing, so the third run reloads the file the first run wrote. After the second successful fetch the result is exactly the full analysis of the window (second, first) |

## Left out

- The HTTP fetch, JSON decoding and node-counting loop of `fetch_node_data` (app.py:46-66) are network I/O. Tor detection there is a substring test on stringified JSON. The model takes the fetched snapshot, or its absence, as a parameter.
- File I/O in `load_node_data` and `save_node_data` is not modelled. The file's existence and parse outcome become the constructor's `Option<StoredState>` parameter. A save produces the stored image and has no effect on the in-memory window. A failed write, which only displays an error, is not modelled.
- The `timestamp` and `last_updated` fields come from the wall clock. No decision depends on them.
- The display wording of the reasoning strings, with their `:+,` and `:+.1f` formatting, is not modelled. Reasoning is a tag carrying the same numbers.
- IEEE-754 rounding is not modelled, because ratios and percentages are exact reals. A boundary value such as an active ratio of exactly 0.7 is exact here but might not be in Python.
- The Streamlit page (`main`, styling, price widgets, `get_crypto_prices` and the coin display helpers) is UI. It does not influence any signal.
- A state file that parses but holds a slot that is not a full snapshot cannot be represented, because each slot is an `Option<NodeSnapshot>`. Two examples: an empty object `{}`, which Python treats as false, so the analysis reports insufficient data; and an object without `tor_nodes`, for which app.py:110 raises `KeyError`.
- The source does not enforce that active and Tor counts stay within the total. The ratio bounds are therefore proved only for consistent counts.
