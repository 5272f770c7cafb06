# MoodTrade stress metrics: a Dafny model

MoodTrade is a React Native dashboard. It shows simulated biometric signals and a stress level from 0 to 10, and maps that stress level to suggested trading limits. It also keeps a trade journal. Almost all of the app is layout. This project models its small amount of logic:

- **Telemetry simulator** (`hooks/useBiometricData.ts`): a reading of six values. A 3-second timer replaces the reading with a bounded random-walk step that clamps each field to a fixed interval. The step is modelled as the pure function `Biometrics.Step(prev, draws)`. `Math.random()` becomes a `Draws` parameter. The hook's state cell becomes the class `Biometrics.BiometricMonitor`, and one timer tick becomes one call of its method `Tick`. `Walk` is a run of any number of ticks. Lemmas prove that every field stays in bounds after any number of ticks, and that one tick moves a field by at most half its amplitude.
- **Journal store** (`hooks/useJournal.ts`): an in-memory list, newest first, seeded with three entries. `addEntry` is its only operation. `Journal.NewEntry` builds the entry and fills in the defaults. `Journal.JournalStore.AddEntry` prepends it. The id, the timestamp and the three random emotion draws are parameters. A ghost history shows that the seeded entries are never removed or edited.
- **Stress tiers and risk formulas** (`components/StressIndicator.tsx`, `components/TradingStatus.tsx`, `components/TradingParameterCard.tsx`): each component has its own if-chain for the three tiers (level ≤ 3, ≤ 6, otherwise). Each chain is modelled as written, and its contract ties it to the one shared classifier, `StressTiers.TierOf`, and `Surfaces.SurfacesAgree` shows that the three components never disagree. `TradingStatus` also has two clamp formulas: position size and risk level. `StressIndicator` has the progress-bar fill and its markers at 30 % and 60 %. `TradingParameterCard` has the `disabled` default, the greyed value and the PAUSED overlay.

JavaScript numbers are modelled as `real`. Timestamps are integers in milliseconds. Strings are `seq<char>`.

Files: `numbers.dfy` (Math.max/min, Option), `biometrics.dfy`, `journal.dfy`, `stress_tiers.dfy`, `trading_status.dfy`, `stress_indicator.dfy`, `trading_parameter_card.dfy`, `surfaces.dfy`.

## Model

| member | source | states |
|---|---|---|
| Biometrics.Initial | hooks/useBiometricData.ts:13-20 | The initial reading (72, 45, 4.2, 8.5, 1200, 7.5) lies within every field's clamp bounds |
| Biometrics.Step | hooks/useBiometricData.ts:25-32 | After one step every field is within its bounds, whatever the previous reading and whatever the draws |
| Biometrics.StepFieldwise | hooks/useBiometricData.ts:26-31 | Each field's next value is max(lo, min(hi, prev + (draw − 0.5)·amplitude)) with that field's own bounds and amplitude |
| Biometrics.StepFieldsIndependent | hooks/useBiometricData.ts:25-32 | A field's next value depends only on its own previous value and its own draw |
| Biometrics.StepUnclampedInside | hooks/useBiometricData.ts:26-31 | If prev + delta is already inside the bounds, the clamp leaves it unchanged |
| Biometrics.StepMovesAtMostHalfAmplitude | hooks/useBiometricData.ts:26-31 | With draws in [0,1) and an in-bounds previous reading, each field moves by at most half its amplitude (2, 3, 0.4, 0.6, 100, 0.1) |
| Biometrics.WalkSnoc | hooks/useBiometricData.ts:24-33 | A run of n+1 ticks is a run of n ticks followed by one Step |
| Biometrics.WalkInBounds | hooks/useBiometricData.ts:24-33 | Starting in bounds, every field stays in bounds after any number of ticks, proved by induction on the run |
| Biometrics.WalkDrift | hooks/useBiometricData.ts:24-33 | After n ticks with draws in [0,1), each field is at most n times half its amplitude from its starting value |
| Biometrics.BiometricMonitor.constructor | hooks/useBiometricData.ts:13-20 | The state cell starts at the initial reading, with no ticks taken |
| Biometrics.BiometricMonitor.Tick | hooks/useBiometricData.ts:24-33 | A timer tick replaces the reading with Step of the previous one and keeps it equal to the walk from the initial reading |
| Biometrics.BiometricMonitor.Current | hooks/useBiometricData.ts:38 | The reading the hook returns is the current one, and it is always in bounds |
| StressTiers.TierOf | components/StressIndicator.tsx:10-26 | The shared classifier: Low iff level ≤ 3, Moderate iff 3 < level ≤ 6, High iff level > 6 |
| StressTiers.TierOfMonotone | components/StressIndicator.tsx:10-26 | A higher level never yields a lower tier |
| StressTiers.TierColor | components/StressIndicator.tsx:10-14 | Each tier's colour is one of #10B981, #F59E0B, #EF4444 |
| StressTiers.TierColorInjective | components/StressIndicator.tsx:10-14 | Different tiers have different colours, so the colour determines the tier |
| StressIndicator.StressColor | components/StressIndicator.tsx:10-14 | getStressColor gives the colour of the tier TierOf picks |
| StressIndicator.StressIcon | components/StressIndicator.tsx:16-20 | getStressIcon gives the 24-pixel icon of the tier TierOf picks (CheckCircle, AlertCircle, AlertTriangle), in the same colour as getStressColor |
| StressIndicator.StressLabel | components/StressIndicator.tsx:22-26 | getStressLabel gives the label of the tier TierOf picks (Low, Moderate, High Stress) |
| StressIndicator.IndicatorThresholds | components/StressIndicator.tsx:10-26 | Level ≤ 3 iff #10B981 / Low Stress; 3 < level ≤ 6 iff #F59E0B / Moderate Stress; level > 6 iff #EF4444 / High Stress |
| StressIndicator.IndicatorMonotone | components/StressIndicator.tsx:22-26 | A higher level never shows a calmer label |
| StressIndicator.FillPercent | components/StressIndicator.tsx:52 | The progress-fill width, stress·10 %, lies in [0,100] for stress in [0,10] |
| StressIndicator.MarkersAtThresholds | components/StressIndicator.tsx:52-60 | The 30 % and 60 % markers are the fill widths at levels 3 and 6; the fill is at or left of the first marker iff the tier is Low, and past the second iff it is High |
| TradingStatus.StatusColor | components/TradingStatus.tsx:10-14 | getStatusColor gives the colour of the tier TierOf picks |
| TradingStatus.StatusText | components/TradingStatus.tsx:16-20 | getStatusText gives the text of the tier TierOf picks (Optimal, Cautious Trading, Trading Paused) |
| TradingStatus.StatusIcon | components/TradingStatus.tsx:22-26 | getStatusIcon gives the 20-pixel icon of the tier TierOf picks (Activity, Shield, AlertTriangle), in the same colour as getStatusColor |
| TradingStatus.StatusTextThresholds | components/TradingStatus.tsx:16-20 | Level ≤ 3 iff 'Optimal Trading'; 3 < level ≤ 6 iff 'Cautious Trading'; level > 6 iff 'Trading Paused' |
| TradingStatus.StatusMonotone | components/TradingStatus.tsx:16-20 | A higher level never shows a calmer status |
| TradingStatus.PositionSize | components/TradingStatus.tsx:29 | max(20, 100 − 20·stress) is at least 20, at most 100 for stress ≥ 0, and equals 20 exactly when stress ≥ 4 |
| TradingStatus.PositionSizeMonotone | components/TradingStatus.tsx:29 | Position size is non-increasing in stress |
| TradingStatus.PositionSizeLinearBelowFour | components/TradingStatus.tsx:29 | For stress ≤ 4 the floor is not reached and the size is 100 − 20·stress |
| TradingStatus.RiskLevel | components/TradingStatus.tsx:30 | min(0.5·stress, 5) never exceeds 5, is non-negative for stress ≥ 0, and equals 5 exactly when stress ≥ 10 |
| TradingStatus.RiskLevelMonotone | components/TradingStatus.tsx:30 | Risk level is non-decreasing in stress |
| TradingStatus.RiskLevelOnScale | components/TradingStatus.tsx:30 | For stress in [0,10] the risk level is stress/2, inside [0,5] |
| TradingParameterCard.StressIndicator | components/TradingParameterCard.tsx:23-27 | getStressIndicator gives the badge of the tier TierOf picks, so its boundaries match the other two components |
| TradingParameterCard.IndicatorThresholds | components/TradingParameterCard.tsx:24-26 | Stress ≤ 3 iff Optimal; 3 < stress ≤ 6 iff Cautious; stress > 6 iff High Risk; so exactly one indicator is returned for every level |
| TradingParameterCard.IndicatorMonotone | components/TradingParameterCard.tsx:23-27 | A higher stress never shows a calmer indicator |
| TradingParameterCard.IsDisabled | components/TradingParameterCard.tsx:21 | An omitted `disabled` means false; a supplied one is used as given |
| TradingParameterCard.Render | components/TradingParameterCard.tsx:44-52 | The badge follows the stress tier; the value is #6B7280 when disabled and the `color` prop otherwise; the PAUSED overlay is shown iff disabled; title and description are dimmed iff disabled |
| TradingParameterCard.RenderDefaultEnabled | components/TradingParameterCard.tsx:21 | A card whose `disabled` is omitted shows its value in its own colour, undimmed, with no PAUSED overlay |
| Surfaces.SurfacesAgree | components/TradingParameterCard.tsx:23-27 | The stress indicator, the status badge and the parameter card show the same colour for every level, and that colour belongs to no tier but TierOf(level) |
| Journal.SeedEntries | hooks/useJournal.ts:22-68 | The seed list has three entries with ids '1','2','3'; each timestamp is its own clock read minus 2h, 4h and 6h |
| Journal.SeedNewestFirst | hooks/useJournal.ts:22-68 | When the three clock reads do not go backwards and span under two hours, the seed timestamps strictly decrease (newest first), all before the first read |
| Journal.SeedOrderNeedsCloseReads | hooks/useJournal.ts:25-42 | With clock reads three hours apart the second seeded entry is newer than the first, so the order depends on the reads being close |
| Journal.SeedEmotionsOnScale | hooks/useJournal.ts:22-68 | Every seeded entry has emotion scores in [0,10) |
| Journal.NewEntry | hooks/useJournal.ts:71-82 | The new entry takes the given id and timestamp and always has emotions; with no emotions supplied and draws in [0,1), each default score is in [0,10) |
| Journal.NewEntryDefaults | hooks/useJournal.ts:74-81 | Missing text becomes ''; missing type becomes manual and a supplied type is kept; trade is copied through (absent stays absent); supplied emotions are kept verbatim |
| Journal.NewestFirstSnoc | hooks/useJournal.ts:84 | Adding an entry to the history puts it in front of the newest-first list |
| Journal.NewestFirstAt | hooks/useJournal.ts:84 | The newest-first list holds the added entries in reverse order of addition |
| Journal.JournalStore.constructor | hooks/useJournal.ts:22-68 | The store starts with exactly the seed list built from three clock reads, and nothing added |
| Journal.JournalStore.AddEntry | hooks/useJournal.ts:70-85 | The new entry is at index 0, the length grows by exactly one, and the previous entries follow unchanged and in order |
| Journal.JournalStore.Entries | hooks/useJournal.ts:87-90 | The list is the added entries, newest first, followed by the unchanged seed: no operation removes or edits an entry |

## Left out

- The `setInterval`/`clearInterval` timer and React's `useState`/`useEffect`. A tick is an explicit `Tick` call, and each state cell is a class field.
- `Math.random()`, `Date.now()` and `new Date()` are parameters: the `Draws`, the `EmotionDraws`, the id and the timestamp. The model does not claim that ids are unique. The source builds the id from one clock read and the timestamp from a second, so the model keeps them as two separate parameters.
- IEEE-754 floating point. Numbers are reals, so rounding, NaN and infinities are not modelled.
- `toFixed`, `toLocaleTimeString` and `toLocaleDateString` formatting. JSX layout, StyleSheet objects and the rendering of the card's `icon` prop.
- Journal.EntryDraft: the `id` and `timestamp` of the `Partial<JournalEntry>` argument are not modelled, because `addEntry` ignores them. `addEntry` returns nothing in the source, so `AddEntry` returns nothing too.
- The risk formulas of `app/(tabs)/trading.tsx` (max leverage, stop-loss range, take-profit ratio, paused when stress > 8) are not part of this model. Note that this screen pauses trading only above 8, while TradingStatus already shows "Trading Paused" above 6. The model follows each component as written.
- components/CorrelationChart.tsx, components/TradeEntry.tsx, components/BiometricCard.tsx and components/PerformanceMetric.tsx: display only.
