# Trade-alert ledger

A Dafny model of the stateful core of a small trading-alert webhook service
(`main.py`). The service receives TradingView-style alerts. Each alert has an
`event` object with a `type` and a `side`, plus a `symbol` and a `price`. The
service keeps two pieces of module-level state:

- `last_trade`: the last ENTRY stored per symbol (its side and price).
- `stats`: the running `wins`, `losses` and `total` counters.

An ENTRY whose price reads as a number and whose side is `BUY` or `SELL` is
stored. It overwrites any earlier entry for the same symbol. A TRAIL whose
price reads as a number is labelled WIN or LOSS against the stored entry and
counted. Prices and other loosely typed fields go through `to_float`, a
coercion that never fails and turns missing or unreadable values into "no
value". The score also decides a display grade.

Files, one module each:

- `wrappers.dfy` (`Wrappers`): the `Option` type.
- `pystr.dfy` (`PyStr`): Python's `str.strip()`, `str.lower()` and `str.upper()`, with lemmas on stripping.
- `decimal.dfy` (`Decimal`): the numeral parser that stands in for `float()`. It comes with a round trip against a rendering of numerals.
- `coercion.dfy` (`Coercion`): `to_float` over a decoded JSON value.
- `grading.dfy` (`Grading`): the score-to-grade rule.
- `ledger.dfy` (`Ledger`): pure step functions for entries, labelling and counting, plus the `TradeLedger` class. The class holds `last_trade` and the counters as fields and updates them in place. Each of its methods is proved against the step functions.
- `history.dfy` (`History`): the ledger over a whole stream of alerts from start-up. It covers what the counters add up to, which entry each symbol holds, and what a TRAIL is judged against.

Behaviour of `main.py` that the model keeps as written:

- trades are keyed by symbol only (main.py:164);
- an exit at the entry price is a LOSS (main.py:108-113);
- entries are never closed or removed; a TRAIL leaves `last_trade` as it was;
- the spellings read as "no value" are `""`, `na`, `n/a` and `null` in any
  letter case (main.py:36). `"none"` gives no value only because it is not a
  numeral.

## Model

| member | source | states |
|---|---|---|
| Coercion.ToFloat | main.py:31-40 | Missing values, booleans and containers give no value. A JSON number gives itself. Text gives what `CoerceText` gives, so the stripping and absent-spelling facts proved of `CoerceText` hold of `to_float`. Every input gets a result, so the function never fails. |
| Coercion.IsAbsentLiteral | main.py:36 | The lower-cased, stripped text counts as "no value" exactly when it is `""`, `na`, `n/a` or `null`. `AbsentSpellings` says which raw texts these are. |
| Coercion.CoerceText | main.py:35-38 | After stripping and lower-casing, the spellings `""`, `na`, `n/a` and `null` give no value. Any value it returns is the parse of the stripped text. |
| Coercion.BoolTextDoesNotCoerce | main.py:35-40 | `str(True)` and `str(False)` do not coerce to a number. |
| Coercion.AbsentSpellings | main.py:36 | The absent check matches a text exactly when it is empty or an ASCII case variant of `na`, `n/a` or `null`. |
| Coercion.AbsentLiteralsDoNotParse | main.py:36-38 | No absent spelling, in any letter case, parses as a number. |
| Coercion.CoerceTextIsParse | main.py:35-38 | Coercing text always equals parsing its stripped form. The absent-spelling check never changes the result. |
| Coercion.CoerceTextSome | main.py:38-40 | Text coerces to `v` exactly when its stripped form renders a well-formed numeral of value `v`. This holds in both directions. Anything else gives no value. |
| Coercion.CoercePadded | main.py:35-38 | Whitespace on either side of the text does not change the coerced value. |
| Coercion.CoerceAbsentExamples | main.py:33-37 | `"N/A"` and `" NULL "` give no value. |
| Coercion.CoercePaddedExample | main.py:35-38 | `"  7 "` and `"7"` both give 7. |
| Decimal.Parse | main.py:38 | A string that parses is non-empty and contains only digits, a point and signs. A string starting with any other character does not parse. |
| Decimal.ParseRender | main.py:38 | Every well-formed numeral (sign, whole digits, optional point and fraction digits) parses back to its value. |
| Decimal.ParseIsRendered | main.py:38 | Every string that parses is the rendering of a well-formed numeral with the parsed value. |
| Decimal.ParseExamples | main.py:38 | `"7"`, `"-3"` and `"12.5"` parse to 7, -3 and 12.5. |
| PyStr.Strip | main.py:35 | `str.strip()`: removes the `IsSpace` characters (those for which `str.isspace()` is true in Python) from both ends. It has no contract of its own. `StripIsSlice` and `StripCutsOnlySpace` together pin its result exactly. |
| PyStr.StripIsSlice | main.py:35 | `strip()` returns the contiguous piece of its input that starts after the leading whitespace. The piece neither starts nor ends with whitespace. |
| PyStr.StripCutsOnlySpace | main.py:35 | Everything `strip()` cuts from either end of its input is whitespace. |
| PyStr.TrimStartShape | main.py:35 | Trimming the front keeps a suffix that does not start with whitespace. Everything it drops is whitespace. |
| PyStr.TrimEndShape | main.py:35 | Trimming the back keeps a prefix that does not end with whitespace. Everything it drops is whitespace. |
| PyStr.StripPadded | main.py:35 | Whitespace added on either side does not change what `strip()` returns. |
| PyStr.StripUnpadded | main.py:35 | A string that neither starts nor ends with whitespace is returned unchanged by `strip()`. |
| PyStr.Lower | main.py:36 | `lower()` keeps the length. Each ASCII capital becomes the matching small letter, at the fixed code-point offset. Other characters are unchanged. |
| PyStr.Upper | main.py:156-157 | `upper()` keeps the length. Each ASCII small letter becomes the matching capital, at the fixed code-point offset. Other characters are unchanged. |
| PyStr.UpperMatches | main.py:156-157 | Two strings upper-case to the same text exactly when they differ only in the case of ASCII letters. |
| PyStr.LowerMatches | main.py:36 | Two strings lower-case to the same text exactly when they differ only in the case of ASCII letters. |
| PyStr.UpperIsWord | main.py:156-157 | `upper()` gives a word without small ASCII letters (such as `ENTRY`) exactly for the case variants of that word. |
| PyStr.LowerIsWord | main.py:36 | `lower()` gives a word without ASCII capitals (such as `null`) exactly for the case variants of that word. |
| Grading.Grade | main.py:62-68 | The grade is `N/A` exactly when there is no score. It is `A` exactly from 80 up and `SKIP` exactly below 50. |
| Grading.GradeReachesThreshold | main.py:64-68 | A score earns a grade of at least C, B or A exactly when it reaches 50, 65 or 80 respectively. |
| Grading.GradeMonotone | main.py:64-68 | A higher score never earns a lower grade. |
| Ledger.Judge | main.py:105-113 | Only a `BUY` or `SELL` side gets a verdict. A BUY wins exactly when the exit is above the entry. A SELL wins exactly when the exit is below it. An exit equal to the entry never wins. |
| Ledger.OutcomeOf | main.py:101-129 | There is a result exactly when an entry is stored for the symbol and its side is `BUY` or `SELL`. The result carries that entry, the exit price and the symbol, plus the verdict for that entry and exit. |
| Ledger.Tally | main.py:115-121 | A result adds one to `total`. A win adds one to `wins`, and the pair `wins + losses` goes up by exactly one. No result leaves the counters alone. `wins + losses == total` is preserved. |
| Ledger.StoresEntry | main.py:163 | An alert is stored exactly when its type is `ENTRY`, its price reads as a number and its side is `BUY` or `SELL`. |
| Ledger.Recorded | main.py:163-168 | A storable ENTRY stores its side and price for its symbol, adding the symbol if it is new. Other symbols keep their entries. Any other alert leaves `last_trade` unchanged. The BUY/SELL-only property of stored sides is preserved. |
| Ledger.Normalize | main.py:155-160 | A missing type reads as `ENTRY`. A missing side and a missing symbol read as `N/A`. A present type and side are upper-cased and a present symbol is kept as it is. The price is the coerced `price` field. |
| Ledger.ReadsAsEntry | main.py:155-163 | An alert reads as an ENTRY exactly when its type is missing or is `entry` in any mix of ASCII letter case. |
| Ledger.ReadsAsTrail | main.py:155-171 | An alert reads as a TRAIL exactly when its type is present and is `trail` in any mix of ASCII letter case. |
| Ledger.ReadsAsTradeSide | main.py:155-163 | The side reads as `BUY` or `SELL` exactly when it is present and is `buy` or `sell` in any mix of ASCII letter case. |
| Ledger.LabelsOutcome | main.py:171 | An alert is labelled exactly when its type is `TRAIL` and its price reads as a number. |
| Ledger.Apply | main.py:162-172 | The new `last_trade` is `Recorded` of the old one: a storable ENTRY is stored, anything else changes nothing. Anything other than a TRAIL with a price leaves `stats` unchanged and labels nothing. A TRAIL with a price is labelled against the stored entry, and the counters move by `Tally` of that outcome. Both invariants are kept. |
| Ledger.Process | main.py:155-172 | The ledger part of `webhook`: read the alert with `Normalize`, then take the step `Apply`. Its facts come from those two members and from the `History` lemmas. |
| Ledger.TradeLedger.constructor | main.py:13-18 | The ledger starts with no entries and all counters at zero. |
| Ledger.TradeLedger.RecordEntry | main.py:163-168 | The new `last_trade` is `Recorded` of the old one. The counters are unchanged. |
| Ledger.TradeLedger.LabelOutcome | main.py:94-129 | Returns `OutcomeOf` the stored entries, which it does not change. It bumps the counters as `Tally` says and keeps `wins + losses == total`. `exitSide` has no effect. |
| Ledger.TradeLedger.Webhook | main.py:155-172 | The new state and the outcome are exactly `Process` (normalize, then `Apply`) of the old state and the alert. |
| History.ReplayCounts | main.py:115-121 | After any stream of alerts, `total` has grown by the number of outcomes produced. `wins` has grown by the number of winning outcomes and `losses` by the rest. |
| History.ReplayBalanced | main.py:14-18 | From the all-zero start, `wins + losses == total` holds after any stream of alerts. |
| History.ReplayLastEntry | main.py:162-168 | From start-up, the entry held for a symbol is the one from the last storable ENTRY alert for that symbol. With no such alert, nothing is held. |
| History.ReplaySidesKnown | main.py:163 | From start-up, every stored entry has side `BUY` or `SELL`. |
| History.TrailUsesLastEntry | main.py:101-113 | After any stream of alerts, a TRAIL with a price is labelled exactly when an ENTRY for its symbol was stored. It is judged against the last such entry. |
| History.TrailRepeats | main.py:101-106 | Labelling does not consume the entry. The same TRAIL twice gives the same outcome twice and counts it twice, and `last_trade` is unchanged. |
| History.TrailSideIgnored | main.py:94 | The side sent with a TRAIL changes neither the outcome nor the ledger. |
| History.NormalizeExample | main.py:156-159 | Lower-case `entry`/`buy`/`trail` are read upper-cased. A missing side reads as `N/A`. |
| History.EntryThenTrail | main.py:162-172 | After an ENTRY and then a TRAIL for the same symbol, the TRAIL is judged against that entry. A BUY wins above its price and a SELL below it. `total` goes up by one, and the entry stays stored. |

## Left out

- Flask routing, request decoding, the JSON responses and the `/`, `/test` and `/stats` routes are transport, not ledger logic.
- `send_telegram` is not modelled. It is an outbound HTTP call.
- Message text is not modelled. This covers `build_message`, `fmt`, the outcome message and the `WIN ✅` / `LOSS ❌` strings; the verdict is the `Verdict` datatype instead.
- The entry timestamp `datetime.utcnow()` is not modelled. It is wall-clock input and is never read back.
- Concurrent requests are not modelled. Each alert is processed to completion, one after another.
- `app.py` is not part of this model. It only formats and forwards alerts and holds no state.
- Decimal.Parse: does not accept everything Python's `float()` accepts. Exponents, `inf`/`nan`, underscores between digits, non-ASCII decimal digits (Python reads `"١٢"` as 12.0) and IEEE rounding and overflow are not modelled, so for example `"1e5"` gives no value here.
- Coercion.ToFloat: a JSON number is taken to come back unchanged through `str()` and `float()`. Rounding and overflow of very large integers are not modelled. Python's `json` also decodes `NaN` and `Infinity` as numbers, which `to_float` returns as they are; `Number(n: real)` cannot hold them, so an ENTRY stored at NaN (against which every TRAIL is a LOSS) is not modelled.
- PyStr.Lower: only ASCII letters change case. Python's `lower()` is Unicode-aware, but no non-ASCII character lower-cases into the ASCII spellings `na`, `n/a` or `null`.
- PyStr.Upper: only ASCII letters change case. Python's `upper()` also maps some non-ASCII letters to ASCII (for example `ſ` to `S`), so such spellings of `SELL` or `ENTRY` are not recognised here.
- Ledger.Normalize: the `type`, `side` and `symbol` fields are taken as the text `str()` gives them. For a non-string JSON value, the caller passes that rendering (for example `None` for null).
- Grading.Grade: a NaN score is not modelled. In Python it fails every comparison and grades `SKIP`.
