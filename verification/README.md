# OSAGO premium calculator: a Dafny model

This project models the pricing engine of a Telegram bot that quotes Russian
compulsory motor insurance (OSAGO), and proves properties of that model. It
has three parts.

- **Coefficient tables and resolvers** (`tables.dfy`, `coefficients.dfy`)
  - The six tables:
    - territory KT by city;
    - policy period KC by months;
    - driver experience and age KBS, by whole years of experience and a half-open age band;
    - holder category KO;
    - bonus-malus KBM, by accident-history period and accident count;
    - engine power KM, by horsepower threshold.
  - A total resolver for each table:
    - KO, KT and KC look the key up and fall back to 1, 1.5 and 1.
    - KBM needs an exact `(period, accidents)` pair and falls back to the worst case 3.92.
    - KBS caps experience at 20, truncates it to whole years and scans for the row whose age band holds the age, falling back to 1.5.
    - KM scans the ascending thresholds and takes the first one at least the power. Above 150 hp it returns 1.6.
- **Premium formula** (`premium.dfy`)
  - The minimum and maximum premium are `int(1646·Π)` and `int(3535·Π)`, where Π is the product of the six coefficients.
  - The quote echoes all six coefficients.
- **Conversation** (`session.dfy`, `conversation.dfy`)
  - Nine waiting states. Each has an answer handler that either records the answer and asks the next question, or refuses it and changes nothing.
  - A "yes" to the novice question fixes KBM at 1.17 and goes straight to the calculation.
  - A "no" leads to the accident count, then to the accident period, which resolves KBM from the table.
  - The calculation always removes the session's state and answers. When nothing is recorded it reports that instead of computing.
  - A session store is keyed by conversation.
  - `Handle` processes one message and `Run` processes a sequence of them.
  - The store invariant `WellFormed` says that every waiting session has answers consistent with its question. Handling preserves it. Under it, no handler fails, every calculation receives a complete record, and every quote is an ordered range of non-negative sums.

`scenarios.dfy` holds two complete conversations, evaluated end to end:
- an experienced individual in Moscow, quoted 11684 to 25093 roubles;
- a novice legal entity in Moscow, quoted 3380 to 7259 roubles.

Other modelling choices:
- Coefficients are exact `real` literals.
- Python's `int()` on a number is modelled as truncation toward zero (`Coefficients.Truncate`).
- Power and experience are `real`. Age, period, accident count and accident period are `int`.
- An incoming message carries its text together with the result of parsing it as a decimal number and as an integer (`Session.Message`). Each result is `None` when the text does not parse.

Points where the code behaves differently from what a reader might expect:
- **Unknown city.** `get_city` refuses any city not in the table (`main.py:310`), so no conversation reaches the default KT 1.5. The unknown-city quote is proved on the formula alone (`Pricing.ScenarioIndividualUnknownCity`).
- **Experience clamping.** Experience is only capped above (`int(min(experience, 20))`), and a negative value truncates toward zero. The experience handler never accepts a negative value.
- **Missing-value defaults.** The calculation's fallback for a missing KT is 1 (`main.py:520`), not the resolver's 1.5. The model keeps both. A complete record uses neither (`Conversation.Calculate`).
- **Power default.** `km_coef`'s final `return 1` is unreachable, because every power up to 150 meets a threshold. `Coefficients.KmCoef` keeps that branch and proves that it never decides the result.

## Model

| member | source | states |
|---|---|---|
| Coefficients.Truncate | main.py:537-538 | `int()` of a non-negative number is the greatest whole number not above it; of a negative number, the least whole number not below it |
| Coefficients.KoCoef | main.py:157-158 | a listed holder category gets its table value, any other gets 1; the result lies in [1, 3.16] |
| Coefficients.KtCoef | main.py:166-167 | a listed city gets its table value, any other 1.5; the result lies in [1.08, 1.8] |
| Coefficients.KcCoef | main.py:176-177 | the period table has exactly the keys 3..12; a listed period gets its value, any other 1; the result lies in [0.5, 1] |
| Coefficients.KcLongerPeriod | main.py:47-51 | a longer policy period never has a smaller period coefficient |
| Coefficients.KbmRowShape | main.py:122-135 | each period's line of the bonus-malus table lies in [0.46, 3.92], rises with the accident count, exists exactly for periods 1..12 and ends in 3.92 |
| Coefficients.KbmTableKeys | main.py:122-135 | the bonus-malus table has an entry for a pair exactly when the period is 1..12 and the accident count is within that period's line |
| Coefficients.KbmCoef | main.py:160-164 | an exact `(period, accidents)` entry gives its cell; any other pair gives 3.92; the result always lies in [0.46, 3.92] |
| Coefficients.KbmNoNearestCell | main.py:160-164 | pairs next to the table, (1,2), (13,0) and (0,0), get 3.92 and not a neighbouring cell |
| Coefficients.KbmExactCells | main.py:125-134 | the pairs (3,0) and (12,0) get their own cells 1 and 0.46 |
| Coefficients.KbmMoreAccidents | main.py:122-135 | over the same period, more accidents never lower the coefficient |
| Coefficients.KbmRowsDescend | main.py:123-134 | each period's line is at least as long as the previous one and pointwise no higher |
| Coefficients.KbmNextPeriod | main.py:122-135 | the same accident count over one more year never raises the coefficient |
| Coefficients.KbmLongerHistory | main.py:122-135 | the same accident count over any longer period in 1..12 never raises the coefficient |
| Coefficients.ClampExperience | main.py:170 | experience of 20 or more becomes 20; below 20 a non-negative experience becomes its whole years; a negative one truncates toward zero (the integer k with k - 1 < experience <= k, at most 0) |
| Coefficients.FirstMatch | main.py:171-174 | the scan finds nothing exactly when no row applies, and otherwise returns the coefficient of the first row that applies |
| Coefficients.KbsBandsShape | main.py:53-114 | the band list of every experience year has disjoint increasing bands within ages 18..149 and coefficients in [0.83, 2.27] |
| Coefficients.KbsBandsBanded | main.py:53-114 | within each experience year the age bands are non-empty and pairwise disjoint, in increasing order |
| Coefficients.KbsBandsAges | main.py:53-114 | every age band lies within ages 18..149 |
| Coefficients.KbsBandsRange | main.py:53-114 | every experience/age coefficient lies in [0.83, 2.27] |
| Coefficients.KbsTableContent | main.py:53-114 | a triple is in the table exactly when its year is 0..20 and its band is in that year's band list |
| Coefficients.KbsAtMostOneMatch | main.py:171-173 | for any experience and age at most one row of the table applies |
| Coefficients.KbsCoef | main.py:169-174 | the result is the coefficient of every row that applies to the capped whole years and the age, so the scan order does not matter; with no such row it is 1.5; it always lies in [0.83, 2.27] |
| Coefficients.KbsByBand | main.py:169-173 | the age band of the capped experience year that holds the age gives the coefficient |
| Coefficients.KbsNoBand | main.py:174 | with no band of the capped experience year holding the age, the coefficient is 1.5 |
| Coefficients.KbsCapsAtTwenty | main.py:170 | any experience of 20 or more is rated exactly as 20 |
| Coefficients.KbsWholeYears | main.py:170 | a fractional experience is rated as its whole years |
| Coefficients.KbsAgeOutOfTable | main.py:53-114 | ages below 18 or from 150 have no row at any experience, so the coefficient is 1.5 |
| Coefficients.KbsSevenToNineYoung | main.py:80-89 | 7 to 9 years of experience below age 22 has no row, so the coefficient is 1.5 |
| Coefficients.KbsTenToFourteenYoung | main.py:90-100 | 10 to 14 years of experience below age 25 has no row, so the coefficient is 1.5 |
| Coefficients.KbsFifteenPlusYoung | main.py:101-113 | 15 or more years of experience below age 30 has no row, so the coefficient is 1.5 |
| Coefficients.KmThresholdsSorted | main.py:137-139 | the thresholds scanned are exactly the keys of the power table, strictly increasing, with values in [0.6, 1.4] |
| Coefficients.FirstAtLeast | main.py:180-182 | the scan finds nothing exactly when every threshold is below the power; otherwise it returns a threshold at least the power with every earlier one below it |
| Coefficients.KmCoef | main.py:179-185 | the result is the value of the smallest threshold at least the power; such a threshold exists exactly when the power is at most 150; above 150 the result is 1.6; it always lies in [0.6, 1.6] |
| Coefficients.KmBracket | main.py:180-182 | a power above one threshold and at most the next is rated by the next threshold's value |
| Coefficients.KmBrackets | main.py:137-139 | each bracket has its value, and a boundary power belongs to the lower bracket (50 gives 0.6, 70 gives 1, 150 gives 1.4); above 150 gives 1.6 |
| Coefficients.KmMonotone | main.py:179-185 | more power never gives a smaller coefficient |
| Pricing.Factor | main.py:537-538 | the product of six positive coefficients is positive |
| Pricing.Cost | main.py:537 | the cost of a non-negative tariff and factor is the whole number of roubles of their product, fractions dropped |
| Pricing.QuoteOf | main.py:533-538 | a quote carries the six coefficients unchanged; with positive coefficients its two sums are the truncated products with 1646 and 3535 |
| Pricing.QuoteOrdered | main.py:533-538 | with positive coefficients the two sums satisfy 0 <= minimum <= maximum |
| Pricing.UnknownCityLookups | main.py:157-177 | an individual in an unrated city with a 10-month policy gets the category, territory and period coefficients 3.16, 1.5 and 1 |
| Pricing.UnknownCityScans | main.py:160-185 | 5 years of experience at 30, no accidents in 3 years and 105 hp get the coefficients 1.04, 1 and 1.2 |
| Pricing.ScenarioIndividualUnknownCity | main.py:519-538 | an individual in an unrated city, 105 hp, 5 years at 30, 10 months and no accidents in 3 years is quoted 9736 to 20911 roubles |
| Session.InsuranceTypesAreKoKeys | main.py:281-283 | the accepted holder categories are exactly the keys of the holder-category table |
| Session.GetInsuranceType | main.py:279-302 | an answer is refused with "choose a listed option" exactly when it is not a listed category; otherwise the category and its coefficient are recorded and the city is asked |
| Session.GetCity | main.py:308-321 | an answer is refused exactly when it is not a listed city; otherwise the city and its coefficient are recorded and the power is asked |
| Session.GetPower | main.py:327-341 | an answer is refused exactly when it is not a number greater than 0, with a complaint that tells the two cases apart; otherwise the power is recorded and the experience is asked |
| Session.GetExperience | main.py:347-361 | an answer is refused exactly when it is not a number of at least 0, with separate complaints for a non-number and a negative number; otherwise the experience is recorded and the age is asked |
| Session.GetAge | main.py:367-390 | an answer is refused exactly when it is not an integer of at least 18, with separate complaints; otherwise the age is recorded and the period is asked |
| Session.GetPeriod | main.py:396-417 | an answer is refused exactly when it is not an integer in 3..12, with separate complaints; otherwise the period and its coefficient are recorded and the novice question is asked |
| Session.GetNovice | main.py:423-452 | an answer is refused exactly when it is neither "Да" nor "Нет"; "Да" records a novice with bonus-malus 1.17 and calculates; "Нет" records a non-novice and asks the accident count |
| Session.GetAccidents | main.py:458-484 | an answer is refused exactly when it is not an integer of at least 0, with separate complaints; otherwise the count is recorded and the accident period is asked |
| Session.GetAccidentPeriod | main.py:490-506 | an answer is refused exactly when it is not an integer in 1..12; otherwise it never asks another question, records the period and calculates with the table bonus-malus of that period and the recorded count (0 if none) |
| Session.AnswerFollowsTable | main.py:278-509 | in every state an answer is refused exactly when the validation rule of that state rejects it; an accepted answer moves to the next question in the fixed order, or calculates after a "Да" to the novice question or a valid accident period |
| Session.NoAnswersConsistent | main.py:234 | a freshly started session with nothing recorded is consistent with the first question |
| Session.AnswerKeepsConsistent | main.py:278-509 | from a record consistent with its question, an accepted answer leaves a record consistent with the next question, and a calculation always receives a complete record |
| Session.CompleteNotEmpty | main.py:513-516 | a complete record is never the empty record, so a finished session never takes the "no data" path |
| Conversation.StartCalculation | main.py:231-247 | starting a calculation opens the session with nothing recorded, waiting on the holder category; other sessions are untouched and the store stays well formed |
| Conversation.Teardown | main.py:580-587 | after teardown the key has neither state nor answers; other sessions are untouched and the store stays well formed |
| Conversation.Calculate | main.py:519-538 | for a complete record the quote is the formula applied to the resolvers' values for the recorded answers, with the recorded bonus-malus, and 0 <= minimum <= maximum |
| Conversation.CompleteCoefficients | main.py:519-526 | the coefficients stored in a complete record equal the resolvers' values for its answers, never a default, and all are positive |
| Conversation.PerformCalculation | main.py:511-587 | the session's state and answers are always gone afterwards and other sessions are untouched; the reply is "no data" exactly when nothing was recorded, and otherwise the quote of the record |
| Conversation.Handle | main.py:278-509 | a message without a waiting state is ignored; a refused, failed or ignored message leaves the store unchanged; an answer is refused exactly when the state's rule rejects it; a new question is always the successor of the old one; a quote is the premium of the record the final answer completes; a quote or "no data" ends the session; other sessions are untouched |
| Conversation.HandleAdvances | main.py:278-509 | an accepted answer that moves the session on stores exactly the handler's new record and the next state, and asks the next question |
| Conversation.HandleKeepsWellFormed | main.py:278-509 | handling keeps the store well formed, never fails for lack of a record, never reports "no data", and every quote has 0 <= minimum <= maximum |
| Conversation.NoviceSkipsAccidents | main.py:425-432 | a "Да" to the novice question is quoted with bonus-malus 1.17 and ends the session without any accident question |
| Conversation.ExperiencedAsksAccidents | main.py:433-450 | a "Нет" to the novice question records a non-novice and asks for the accident count |
| Conversation.AccidentsOnlyAfterNo | main.py:429-450 | the accident-count question is only ever reached by a "Нет" to the novice question |
| Conversation.AccidentPeriodSetsKbm | main.py:492-502 | a valid accident period ends the session with a quote whose bonus-malus is the table value for that period and the recorded count |
| Conversation.Run | main.py:278-509 | a sequence of messages keeps the store well formed and never ends in a failure or "no data" |
| Scenarios.ExperiencedQuote | main.py:519-538 | the experienced driver's complete record is quoted 11684 to 25093 roubles with coefficients 3.16, 1.8, 1.04, 1, 1, 1.2 |
| Scenarios.ExperiencedDriver | main.py:231-509 | the nine answers of the experienced driver, from a fresh start, end in that quote and an empty store |
| Scenarios.NoviceQuote | main.py:519-538 | the novice's complete record is quoted 3380 to 7259 roubles with coefficients 1.97, 1.8, 1.65, 0.5, 1.17, 0.6 |
| Scenarios.NoviceDriver | main.py:423-432 | the seven answers of the novice, from a fresh start, end in that quote and an empty store, with no accident question asked |
| Scenarios.UnderageRefused | main.py:369-388 | an age of 17 is refused with the under-18 complaint and the store is unchanged |

## Left out

- The Telegram transport: sending messages, reply keyboards, the HTML result text, the `/start`, `/help` and `/calc` commands, the instructions and help texts, the catch-all reply and the callback handler (`main.py:187-275`, `main.py:541-625`). These are user-interface I/O. Restarting a calculation is kept as `Conversation.StartCalculation`.
- Routing priority: `/start`, `/help`, `/calc` and the buttons "📚 Помощь", "👋 Начать расчет" and "ℹ️ Какие данные нужны?" are registered before the state handlers (`main.py:188-254`), so those texts sent mid-session go to their own handlers and are not answers. `Conversation.Handle` treats every message from a waiting session as an answer. For "👋 Начать новый расчет" (`main.py:589-591`) and the catch-all handler (`main.py:594`) this matches the code, because they are registered after the state handlers.
- Logging and loading the bot token from the environment (`main.py:11-34`). These are side effects with no behaviour to state.
- Parsing of numbers from text: CPython's `float()` and `int()`, including whitespace, underscores and the comma-to-point replacement. Each message carries its parse results instead (`Session.Message`).
- `inf` and `nan`: exact reals have neither. In the code a `nan` power or experience is refused by its comparison, and an infinite power is accepted and rated 1.6.
- Floating-point rounding of the coefficient product: the model multiplies exact reals. A product that lands within float error of a whole number could truncate one rouble differently in CPython.
- Exceptions other than a missing record: a failed send can leave an answer recorded without the state advancing. The model covers only the missing-record path, as the reply `Failure` with nothing changed. The calculation itself cannot fail in the model, and teardown happens in either case.
- Keying: the code keys the waiting state by user and the answers by chat. The model uses one key per session.
- Conversation.Calculate: its contract speaks only of complete records. The defaults for missing answers (`main.py:519-526`) are in its body but no contract states them, because `Conversation.HandleKeepsWellFormed` shows that no session reaches the calculation with an incomplete record.
- The period default of 10 and the `is_novice`/accident lines of the result text (`main.py:524`, `main.py:560-564`). They only affect the displayed text.
