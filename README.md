# FiberPI contamination estimate — a Dafny model

FiberPI decides whether a fibre-optic link between two switch transceivers is
contaminated. It reads each switch's transceiver table over its CLI, picks the
line of the port of interest, extracts the transmit and receive powers, and
compares the observed insertion loss with the loss expected from the fibre and
the transceivers' accuracy. This project models that logic of
`FiberPI/FiberPI.py` and proves properties of it:

- `errors.dfy` (`Errors`): the Python exceptions the code raises (KeyError,
  IndexError, UnboundLocalError, ZeroDivisionError) carried in `Result`.
- `text.dfy` (`Text`): the string operations used — `s.split('\n')`,
  `s.split()` (Python's full `str.isspace` set) and `sub in s`.
- `scanner.dfy` (`Scanner`): `strtofloat`, a scanner for the first match of the
  regular expression `-?\d+\.?\d*`, the exact decimal value of the match, and
  the per-unit fallback (0 for mW, -40 for dBm).
- `estimator.dfy` (`Estimator`): `dBmtomw`, `getCS` and the two cross-wired
  `getCS` calls of `DetectContamination` combined by OR.
- `drivers.dfy` (`Drivers`): the `device_driver` table and the `node` record.
- `link.dfy` (`Link`): the `connection` class — its constructor state,
  `calculateAttenuation` (which updates `delta`) and `DetectContamination`
  (a loop over the output lines keeping the last matching line, then the
  verdict record kept in `dic`).

Python's `10**x` is not computed. Every member that needs it takes a function
`pow: real -> real`, and the lemmas assume only `IsPow10(pow)`: `pow(0) = 1`,
`pow(x) > 0`, and `pow` strictly increasing. This abstracts Python's float
exponent; `StandInPowIsPow10` shows that the assumption can be met. All other
arithmetic is exact over `real`.

The model follows the code as written: `strtofloat` raises
UnboundLocalError when the text has no number and the unit is neither `mW`
nor `dBm`; the normalisation in `getCS` divides by zero exactly when the
transmit power is 0 (with exact reals this is the same as `Tx == alpha`); and
the verdict compares the unrounded, floored score with the unrounded
threshold.

## Model

| member | source | states |
|---|---|---|
| `Text.Split` | FiberPI/FiberPI.py:216-217 | `split('\n')` yields at least one piece and no piece contains a newline |
| `Text.JoinSplit` | FiberPI/FiberPI.py:216-217 | joining the pieces with newlines gives back the original output |
| `Text.SplitJoin` | FiberPI/FiberPI.py:216-217 | splitting a newline-join of newline-free pieces gives back the pieces |
| `Text.Words` | FiberPI/FiberPI.py:222 | `split()` yields non-empty words containing no whitespace |
| `Text.WordsKeepText` | FiberPI/FiberPI.py:222 | the words, concatenated, are the line with all whitespace removed |
| `Text.WordsOfSpaced` | FiberPI/FiberPI.py:222 | words joined by single spaces are split back into the same words |
| `Text.WordsSkipSpace` | FiberPI/FiberPI.py:222 | a whitespace character in front of the text contributes no word, so runs of any length and leading whitespace are skipped |
| `Text.WordsOfWordThen` | FiberPI/FiberPI.py:222 | a non-empty whitespace-free word followed by whitespace or the end of the text is cut off exactly as the first word; with `WordsSkipSpace` this fixes every cut that `split()` makes |
| `Text.Contains` | FiberPI/FiberPI.py:221 | Python's `key in line`: the key occurs at some position of the line; `ContainsIffSubstring` restates it as a slice |
| `Text.ContainsIffSubstring` | FiberPI/FiberPI.py:221 | a restatement of the definition of `Contains`: `key in line` holds exactly when some slice `line[i..j]` equals the key |
| `Scanner.FirstStart` | FiberPI/FiberPI.py:50-53 | the leftmost position where a match can begin: a digit, or a `-` directly followed by a digit |
| `Scanner.FindNumber` | FiberPI/FiberPI.py:50-53 | a match exists exactly when the text contains a decimal digit |
| `Scanner.FindNumberIsLeftmostLongest` | FiberPI/FiberPI.py:50-53 | the reported span is in the language of `-?\d+\.?\d*`, no match starts further left, it cannot be extended to the right, and with no span the pattern occurs nowhere |
| `Scanner.UnsignedValueBounds` | FiberPI/FiberPI.py:58 | the value of an unsigned token lies in [integer part, integer part + 1) |
| `Scanner.NumeralValue` | FiberPI/FiberPI.py:58 | `float(token)`: a token with a leading `-` has a non-positive value, any other a non-negative one |
| `Scanner.StrToFloat` | FiberPI/FiberPI.py:41-58 | without a digit: 0 for mW, -40 for dBm, UnboundLocalError for any other unit; it fails in no other case |
| `Scanner.StrToFloatIgnoresUnitsOnMatch` | FiberPI/FiberPI.py:52-53 | when the text has a digit the unit does not affect the result, which is a success |
| `Scanner.StrToFloatOfFirstNumeral` | FiberPI/FiberPI.py:50-58 | when the text has a digit, the result is the value of the leftmost match of `-?\d+\.?\d*` that cannot be extended, under every unit |
| `Scanner.FirstNumberWins` | FiberPI/FiberPI.py:50-53 | `"Temp: 25 Voltage: -3.14"` gives 25 |
| `Scanner.MinusNeedsDigit` | FiberPI/FiberPI.py:50-53 | `"a--5"` gives -5 |
| `Scanner.SecondDotEndsMatch` | FiberPI/FiberPI.py:50-53 | `"1.2.3"` gives 1.2 |
| `Scanner.NegativeFraction` | FiberPI/FiberPI.py:50-58 | `"-3.14"` gives -3.14 |
| `Scanner.NoNumberSentinels` | FiberPI/FiberPI.py:54-57 | `"no data"` gives 0 in mW and -40 in dBm; an unknown unit raises |
| `Estimator.DbmToMw` | FiberPI/FiberPI.py:30-38 | the milliwatt value is positive, and 0 dBm is 1 mW |
| `Estimator.DbmToMwIncreasing` | FiberPI/FiberPI.py:38 | the conversion preserves and reflects the order of dBm readings |
| `Estimator.Alpha` | FiberPI/FiberPI.py:74 | `alpha = Tx * (1 - 10**(-delta/10))`, computed with the abstract power; its bounds are `AlphaBounds` |
| `Estimator.AlphaBounds` | FiberPI/FiberPI.py:74 | for Tx > 0: alpha is 0 without a fibre loss, and strictly between 0 and Tx for a positive loss |
| `Estimator.PowerThresh` | FiberPI/FiberPI.py:75 | `PowerThresh`, alpha widened by both accuracies; its monotonicity is `PowerThreshNonDecreasingInTxAcc` |
| `Estimator.CCDenominator` | FiberPI/FiberPI.py:76 | the denominator `10**(5*(Tx-alpha)) - 1` of CC; its sign is `CCDenominatorSign` |
| `Estimator.GetCS` | FiberPI/FiberPI.py:61-80 | only ZeroDivisionError; power lost is max(0, Tx-Rx) and never negative; the score is never negative; the verdict is score >= threshold, so it is true whenever the threshold is at most 0 |
| `Estimator.CCDenominatorSign` | FiberPI/FiberPI.py:74-76 | the denominator of CC is 0 exactly when Tx = 0 and positive exactly when Tx > 0 |
| `Estimator.GetCSFailsIffTxZero` | FiberPI/FiberPI.py:74-76 | `getCS` raises exactly when Tx = 0 |
| `Estimator.VerdictMeaning` | FiberPI/FiberPI.py:73-80 | for Tx > 0: contaminated iff the insertion loss reaches PowerThresh or PowerThresh is at most alpha |
| `Estimator.ScoreNonIncreasingInRx` | FiberPI/FiberPI.py:73-78 | for Tx > 0, raising Rx never raises the score |
| `Estimator.ThresholdNonDecreasingInTxAcc` | FiberPI/FiberPI.py:75-79 | for Tx > 0, raising TxAcc never lowers the threshold |
| `Estimator.PowerThreshNonDecreasingInTxAcc` | FiberPI/FiberPI.py:75 | for Tx > 0, raising TxAcc never lowers PowerThresh |
| `Estimator.ThresholdNonDecreasingInRxAcc` | FiberPI/FiberPI.py:75-79 | for Tx > 0 and Rx >= 0, raising RxAcc never lowers the threshold |
| `Estimator.PowerLostScenario` | FiberPI/FiberPI.py:73-80 | Tx = 1 mW, Rx = 0.8 mW, delta = 0.75, both accuracies 1: power lost 0.2 |
| `Estimator.AssessLink` | FiberPI/FiberPI.py:240-257 | the link is contaminated iff either direction is; only ZeroDivisionError |
| `Estimator.AssessLinkSymmetric` | FiberPI/FiberPI.py:240-241 | exchanging the two ends exchanges the directions and keeps the verdict |
| `Estimator.AssessLinkFailsIffSilentEnd` | FiberPI/FiberPI.py:240-241 | the assessment fails exactly when either end transmits 0 mW |
| `Estimator.LinkVerdictMeaning` | FiberPI/FiberPI.py:240-257 | for positive transmit powers: contaminated iff one direction's loss reaches its PowerThresh or that threshold is at most its alpha |
| `Drivers.DeviceDriver` | FiberPI/FiberPI.py:15-26 | known exactly for the two models; KeyError otherwise; units are mW or dBm; both map to devtype `ubiquiti_edgeswitch` |
| `Drivers.DeviceTableEntries` | FiberPI/FiberPI.py:23-26 | the two entries field by field |
| `Drivers.KnownUnitsNeverFail` | FiberPI/FiberPI.py:24-25 | with a known model's units, `strtofloat` never raises |
| `Drivers.MakeNode` | FiberPI/FiberPI.py:89-100 | a node has the given name, address and model and its model's driver; KeyError on an unknown model |
| `Link.PortKey` | FiberPI/FiberPI.py:221 | the text `f'/{port}'` searched for in each line |
| `Link.LineReading` | FiberPI/FiberPI.py:222-228 | reading a matching line raises only IndexError (too few words for a position) or strtofloat's UnboundLocalError; on success the reading is strtofloat of the words at the two positions, converted by `dBmtomw` for dBm units |
| `Link.LineReadingFailsIffShort` | FiberPI/FiberPI.py:222-228 | with a known unit, reading a matching line fails exactly when it has too few words, with IndexError |
| `Link.LastMatch` | FiberPI/FiberPI.py:220-221 | the index of the last line containing the key, or none when no line does |
| `Link.FirstFailure` | FiberPI/FiberPI.py:220-224 | the index of the first matching line that raises, or none |
| `Link.PortReading` | FiberPI/FiberPI.py:220-238 | the outcome of one port's loop: the first raising matching line's error, else the last matching line's reading, else nothing |
| `Link.PortReadingMeaning` | FiberPI/FiberPI.py:220-238 | stated by positions: an error is that of a raising matching line with no raising matching line before it, and occurs iff some matching line raises; nothing is read iff no line matches; a reading is that of a matching line with no matching line after it |
| `Link.ScanPort` | FiberPI/FiberPI.py:220-238 | the loop raises the first matching line's error, else returns the reading of the last matching line, or nothing |
| `Link.PortReadingSkipsOtherLines` | FiberPI/FiberPI.py:220-221 | a line without the key does not change the outcome |
| `Link.PortReadingLastLineWins` | FiberPI/FiberPI.py:220-228 | a later matching line overrides the earlier reading unless an earlier line raised |
| `Link.PortTenLineOverridesPortOne` | FiberPI/FiberPI.py:220-224 | with key `/1`, a later `0/10` line wins over the `0/1` line |
| `Link.SampleLinesContainPortOneKey` | FiberPI/FiberPI.py:221 | the key `/1` occurs in both a `0/1` and a `0/10` line |
| `Link.PortReadingNoneIff` | FiberPI/FiberPI.py:220-221 | nothing is read exactly when no line contains the key |
| `Link.Detect` | FiberPI/FiberPI.py:216-262 | a record carries the link's identity and time, non-negative losses and scores, and contaminated iff a direction's score reaches its threshold; the only errors are IndexError, UnboundLocalError of `value`, `n1Tx` or `n2Rx`, and ZeroDivisionError |
| `Link.Record` | FiberPI/FiberPI.py:242-257 | the row of the link's identity, the time and both directions' `getCS` results; its wiring is `DetectWiring` |
| `Link.DetectSucceedsIff` | FiberPI/FiberPI.py:220-241 | a record is produced exactly when both ports have a readable matching line and both transmit powers are non-zero |
| `Link.DetectErrorCause` | FiberPI/FiberPI.py:220-241 | the error raised, in the source's order: port 1's line error, then port 2's, then UnboundLocalError for `n1Tx` when port 1 has no matching line, then for `n2Rx`, then ZeroDivisionError when either transmit power is 0 |
| `Link.DetectWiring` | FiberPI/FiberPI.py:240-257 | in a record, direction 1's loss, score and threshold are `getCS(n1Tx, n2Rx, ...)` and direction 2's are `getCS(n2Tx, n1Rx, ...)` on the last matching lines; losses are max(0, Tx - Rx); contaminated is the OR of the two verdicts |
| `Link.DetectVerdictMeaning` | FiberPI/FiberPI.py:240-257 | for positive transmit powers: the record says contaminated iff a direction's insertion loss reaches its PowerThresh or that threshold is at most its alpha |
| `Link.DetectNeedsPortLines` | FiberPI/FiberPI.py:220-240 | a record is produced only if each output has a line containing its port key |
| `Link.Coefficient` | FiberPI/FiberPI.py:188-191 | defined exactly for SM 1310/1550 and MM 850/1300, positive; KeyError on the mode first, then the wavelength |
| `Link.Attenuation` | FiberPI/FiberPI.py:187-193 | fails exactly when the coefficient lookup does; at least 0.75 for a non-negative length |
| `Link.AttenuationExample` | FiberPI/FiberPI.py:191 | 1000 m of SM fibre at 1310 gives 1.15 |
| `Link.AttenuationIncreasing` | FiberPI/FiberPI.py:191 | a longer fibre gives a strictly larger attenuation |
| `Link.LengthFromAttenuation` | FiberPI/FiberPI.py:191 | the length is recovered from the attenuation and the coefficient |
| `Link.Connection.constructor` | FiberPI/FiberPI.py:158-178 | the fields hold the arguments; defaults delta 0, accuracies 1; no record yet |
| `Link.Connection.CalculateAttenuation` | FiberPI/FiberPI.py:187-193 | returns the attenuation, stores it in `delta` and changes nothing else; on KeyError `delta` is unchanged |
| `Link.Connection.DetectContamination` | FiberPI/FiberPI.py:211-265 | returns `Detect` of the connection's state and keeps a successful record in `dic`, changing nothing else |

## Left out

- SSH and CLI transport (`node.Connect`, `Disconnect`, `sendCommand`, `sendCommandTiming`, `connection.Connect`, `__enter__`, `__exit__`): network I/O through netmiko and paramiko; the command output of each switch is a parameter of `DetectContamination`.
- The node's credentials and netmiko `setup` dictionary: only used by the transport.
- `datetime.now()` and its formatting: the clock; the formatted time is a parameter.
- The pandas DataFrame, its column order and `self.data`: library formatting; the record is kept in `dic`.
- Float numerics: the values of `10**x` (abstracted by `IsPow10`), float overflow of `10**x` and underflow that could make a non-zero Tx give a zero denominator.
- `round(...,3)` in `strtofloat`, `dBmtomw` and on the insertion loss, and `round(...,2)` on the reported score and threshold: exact reals are used throughout, so the reported score is the unrounded one. In floats the -40 dBm fallback becomes 0.0 mW after rounding, which is the Tx = 0 division case.
- Scanner.FindNumber: `\d` is taken as the ASCII digits; Python also matches other Unicode decimal digits.
- Link.LineReading: word positions are natural numbers, since the device table holds only 4 and 5; Python's negative indices are not modelled.
- Ports are modelled by their text form, the `str(port)` that the key `"/" + port` uses.
- `setup.py` (packaging) and `example.py` (a script needing live switches).
