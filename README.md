# FE6 unit scoring — a Dafny model

This project models the scoring engine of a small Fire Emblem (Binding Blade) unit evaluator, together with the input check of its front end.

The engine is `scoring.py`. A unit has an initial, a current and a cap value for each of seven stat channels: HP, POW, SKL, SPD, LCK, DEF and RES. It also has a role, "physical" or anything else (the magical weights). The engine works in these steps:

1. It normalises each current value by its cap, clipped to [0, 1].
2. It computes a growth ratio for each channel: the share of the headroom between the initial value and the cap that has been gained.
3. It picks one of two weight profiles by role.
4. It forms the offense O and defense D weighted means, an offense/defense core K = sqrt(max(1e-6, O) * max(1e-6, D)), a plain mean S, a growth mean G, and C = S.
5. It combines these into a clipped composite, reports the composite as a total out of 100 rounded to two places, and assigns a letter rank A–D.

The input check is `validate` in `app.py`. It loops over the channels and appends one Japanese message per violated condition: a negative cap, an initial value above the cap, or a current value above the cap. `pow_label` picks the POW caption for the role.

Layout:

- `scoring.dfy` (module `Scoring`) covers the channels, `UnitInput`, and the operations `Clip`, `SafeDiv`, `NormByCap`, `Growth` and the loop method `GrowthRatio`.
  - It also holds the weight profiles, `WeightedMean`, `Core`, `Composite`, `Round`, `RankOf` and `ComputeScores`.
  - It proves their range, monotonicity, degenerate-input and worked-example properties.
- `app.dfy` (module `App`) covers `PowLabel` and the loop method `Validate`.
  - `Validate` is proved equal to `Messages(Violations(...))`, a functional list of `Violation` values.
  - Lemmas characterise that list: when it is empty, its members, their order, their number, and the prefix of each message.

Modelling decisions:

- Numbers are exact `real`s.
- A channel dictionary is a `map<Stat, real>`. Every operation requires all seven keys, because a missing key raises `KeyError` in the source.
- The square root in K is a parameter `sqrt` constrained by `IsSqrt`: its result is non-negative and squares back to its argument.
- `round(x, n)` is rounding half up: `Floor(x * 10^n + 1/2) / 10^n`.

## Model

| member | source | states |
|---|---|---|
| Scoring.Clip | scoring.py:16-17 | the result lies in [lo, hi] when lo <= hi; it is x itself when x is already in range; it is lo below the range and hi above it |
| Scoring.ClipMonotone | scoring.py:16-17 | clipping preserves order |
| Scoring.SafeDiv | scoring.py:19-20 | a zero divisor yields the default; otherwise the result times b equals a (the exact quotient) |
| Scoring.CapShare | scoring.py:23 | one channel's normalised entry lies in [0, 1], and a zero cap gives 0 whatever the current value |
| Scoring.NormByCap | scoring.py:22-23 | one entry per channel; every entry in [0, 1]; each entry is the clipped safe quotient of its channel; a zero cap gives 0 |
| Scoring.CapShareExact | scoring.py:22-23 | for 0 <= cur <= cap with cap > 0, the normalised entry is exactly cur / cap |
| Scoring.CapShareMonotone | scoring.py:22-23 | with a non-negative cap, a larger current value never gives a smaller normalised entry |
| Scoring.Growth | scoring.py:25-33 | one entry per channel; every entry in [0, 1]; a channel with cap - init <= 0 gets 0 whatever its current value |
| Scoring.ChannelGrowth | scoring.py:28-32 | one channel's growth entry lies in [0, 1], and it is 0 whenever cap - init <= 0 |
| Scoring.GrowthRatio | scoring.py:25-33 | the loop that fills the dictionary channel by channel returns exactly Growth(init, cur, cap) |
| Scoring.ChannelGrowthExact | scoring.py:28-32 | with headroom and init <= cur <= cap, the growth entry is (cur - init) / (cap - init) |
| Scoring.ChannelGrowthMonotone | scoring.py:28-32 | a larger current value never gives a smaller growth entry |
| Scoring.ProfileFor | scoring.py:41-48 | the physical tables are chosen iff the role is "physical"; every other role string gets the magical tables; the chosen tables are non-negative and each sums to 1 |
| Scoring.ProfilesNormalised | scoring.py:42-48 | all six weight tables have non-negative weights summing to 1, and the two profiles differ |
| Scoring.WeightedMean | scoring.py:50-53 | no ensures of its own: the weighted sum safely divided by the weight sum; its properties are stated by MeanOfNormalised, WeightedMeanInUnit and WeightedMeanMonotone |
| Scoring.MeanOfNormalised | scoring.py:50-53 | for a table summing to 1 the safe division is by 1, so the weighted mean is the plain weighted sum |
| Scoring.WeightedMeanInUnit | scoring.py:50-53 | a weighted mean of [0, 1] values with non-negative weights lies in [0, 1] |
| Scoring.WeightedMeanMonotone | scoring.py:50-53 | raising entries pointwise never lowers a weighted mean with non-negative weights |
| Scoring.StatMean | scoring.py:63 | no ensures of its own: the sum over the seven channels divided by 7; its properties are stated by StatMeanInUnit and StatMeanMonotone |
| Scoring.StatMeanInUnit | scoring.py:63 | S, the plain mean over the seven channels, lies in [0, 1] |
| Scoring.StatMeanMonotone | scoring.py:63 | raising entries pointwise never lowers S |
| Scoring.Core | scoring.py:60 | no ensures of its own: the root of max(1e-6, O) * max(1e-6, D); its properties are stated by CoreInUnit, CoreMonotone and ExampleCore |
| Scoring.CoreInUnit | scoring.py:60 | K lies in [0, 1] whenever O and D are at most 1 |
| Scoring.CoreMonotone | scoring.py:60 | K never decreases when O or D increases |
| Scoring.Composite | scoring.py:70-71 | the clipped composite T01 lies in [0, 1] |
| Scoring.CompositeUnclipped | scoring.py:70-71 | for sub-scores in [0, 1] the clip is inactive: T01 = 0.45K + 0.20S + 0.20G + 0.15C |
| Scoring.CompositeMonotone | scoring.py:70-71 | T01 never decreases when any sub-score increases |
| Scoring.Round | scoring.py:73-86 | no ensures of its own: rounding half up to a number of decimal places; its properties are stated by RoundClose, RoundMonotone, RoundWithin, RoundsToZero and RoundsToFortyFive |
| Scoring.RoundClose | scoring.py:73 | the rounded value is within half a unit in the last place of the exact value |
| Scoring.RoundMonotone | scoring.py:73 | rounding preserves order |
| Scoring.RoundWithin | scoring.py:73 | rounding a value in [0, m] stays in [0, m] for whole m |
| Scoring.RankOf | scoring.py:74-77 | rank A iff total >= 80, B iff 60 <= total < 80, C iff 40 <= total < 60, D iff total < 40 |
| Scoring.RankMonotone | scoring.py:74-77 | a higher total never gets a worse rank |
| Scoring.RawScores | scoring.py:37-71 | the unrounded O, D, K, S, G, C lie in [0, 1], the total in [0, 100], and C equals S |
| Scoring.Rounded | scoring.py:79-87 | no ensures of its own: O, D, K, S, G and C rounded to four places and the total to two; its properties are stated by RoundedInRange and RoundedMonotone |
| Scoring.RoundedInRange | scoring.py:79-86 | rounding every field to four places and the total to two keeps them all in range |
| Scoring.RoundedMonotone | scoring.py:79-87 | rounding every field preserves a fieldwise order between two score records |
| Scoring.ComputeScores | scoring.py:35-88 | every reported score lies in [0, 1] and the total in [0, 100]; C equals S; the rank is the band of the rounded total, in both directions |
| Scoring.RoleOnlySelectsWeights | scoring.py:37-48 | changing the role leaves S and C unchanged; every role other than "physical" scores exactly as "magical" |
| Scoring.RawScoresMonotone | scoring.py:22-71 | with a non-negative cap, raising one current value never lowers any unrounded score |
| Scoring.RaisingCurrentNeverLowersScores | scoring.py:56-77 | with a non-negative cap, raising one current value never lowers any reported score, the total or the rank |
| Scoring.NoHeadroomNoGrowth | scoring.py:25-84 | when cap <= init on every channel, the reported growth score G is 0 |
| Scoring.AllCapsZero | scoring.py:22-88 | when every cap is 0 (and init >= 0), every reported score is 0 (K = 1e-6 rounds to 0) and the rank is D |
| Scoring.ExampleCore | scoring.py:60 | on the worked example's offense and defense, K lies in [0.5129, 0.51295] |
| Scoring.RoundsToFortyFive | scoring.py:73 | every total in [45, 45.004] is reported as exactly 45.00 |
| Scoring.ExampleRanksC | scoring.py:35-88 | the worked physical example (init, current and cap tables in the model) is reported with total exactly 45.00 and rank C |
| App.PowLabel | app.py:7-8 | the physical label iff the role is "physical"; the magical label for every other role string |
| App.PowLabelMatchesProfile | app.py:7-8 | the label shown is the physical one exactly when the scoring engine picks the physical weight profile |
| App.Message | app.py:62-67 | no ensures of its own: the channel key, ": " and the text of the failed check; MessageKeyed states its prefix |
| App.MessageKeyed | app.py:62-67 | every message starts with its channel's key followed by ": " |
| App.Messages | app.py:60-68 | no ensures of its own: one message per violation in order; MessagesAppend states that it distributes over concatenation |
| App.MessagesAppend | app.py:60-68 | the messages of two reports in sequence are the messages of the first followed by those of the second |
| App.ChannelViolations | app.py:62-67 | no ensures of its own: the failed checks of one channel in check order; ChannelViolationsSpec states its properties |
| App.ChannelViolationsSpec | app.py:62-67 | a channel's report holds a violation iff its condition fails; it is empty iff the channel has cap >= 0, init <= cap and cur <= cap; it has at most three entries, in cap, init, cur order |
| App.Violations | app.py:61-67 | no ensures of its own: the channel reports concatenated in channel order; ViolationsMembers, NoViolationsIffConsistent, ViolationsCount and ViolationsOrdered state its properties |
| App.Validate | app.py:59-68 | the loop over the channels returns exactly the messages of Violations(init, cur, cap, STATS), in order |
| App.ViolationsMembers | app.py:61-67 | a violation is reported iff its channel is checked and its condition fails (cap < 0, init > cap, cur > cap) |
| App.NoViolationsIffConsistent | app.py:61-67 | no violation over a channel list iff every listed channel has cap >= 0, init <= cap and cur <= cap |
| App.ValidateAcceptsIffConsistent | app.py:59-68 | validate returns the empty list iff every channel has cap >= 0, init <= cap and cur <= cap |
| App.ViolationsCount | app.py:61-67 | the report over a channel list has at most three times as many entries as the list has channels |
| App.ViolationsOrdered | app.py:61-67 | violations are ordered by channel, and within a channel the cap check precedes the init check, which precedes the cur check |
| App.ValidateReportsEachOnce | app.py:61-67 | validate's violations are in that order, number at most 21, and none is repeated |
| App.ValidateMessagesKeyed | app.py:62-67 | each message starts with the key of the channel that caused it followed by ": ", and its condition does fail |
| App.AcceptedSharesExact | app.py:59-68 | on input that validate accepts, a channel with a positive cap and non-negative current value is normalised to exactly cur / cap |

## Left out

- Streamlit page setup, sidebar, number-input widgets and the rendering of metrics and captions (app.py:11-56, 70-99): user interface only.
- The OpenAI advisory call, its environment-variable lookup, prompt building and exception fallback (app.py:101-141): network and foreign-library code.
- IEEE-754 floating point: all arithmetic is on exact reals.
- Scoring.Round: Python's `round` rounds half to even on binary floats; the model rounds half up on exact reals, so results can differ on exact ties.
- Scoring.Core: the square root is a parameter characterised by `IsSqrt` rather than computed, so no numeric value of K is derived beyond the bounds proved.
- `UnitInput.name` and `UnitInput.level` (scoring.py:9-10) are never read by the scoring logic and are not modelled.
- Scoring.SafeDiv: the `b is None` case is not modelled, because every operand in the model is a real number.
- Scoring.ComputeScores: the result dictionary keyed by "O_offense" … "TOTAL_100" is modelled as the `Scores` datatype with one field per key, and the rank letter as the `Rank` datatype.
- Role: the type comment at scoring.py:11 names only "physical" and "magical", but the code treats every string other than "physical" as magical; the model follows the code (see Scoring.ProfileFor and Scoring.RoleOnlySelectsWeights).
- A missing channel key (a `KeyError` in the source) is excluded by the `Covers` preconditions rather than modelled as an error result.
