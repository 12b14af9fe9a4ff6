# FreshService CLI ticket triage engine, in Dafny

This project models the triage core of the FreshService command-line tool in
its three released versions, and proves what each version does to a list of
helpdesk tickets.

- **v1.0.5** (`releases/fscommander.py`). A fixed 76-entry policy table
  (`SCORING_MAP`) gives each ticket a score. An escalated ticket is looked up
  by `(tier, 'escalated', environment)`. Any other ticket is looked up by
  `(tier, priority, environment, ticket_type)`. A missing or null tier
  becomes `'C'` and a missing or null environment becomes `'Production'`,
  each with a warning naming the ticket. A key the table lacks scores 0.
  `sort_tickets` stores `score` and `sort_key` on every ticket. It then sorts
  the list in place, stably, by `(-score, created_at)`.
- **v1.0.3** (`fscommander-1.0.3.py`, and the same file under `releases/`).
  Same table, but tier and environment are read by indexing. A missing key
  is a KeyError and a null value scores 0. Nothing is stored on the tickets.
- **v1.0.2** (`fscommander-1.0.2.py`, and the same file under `releases/`).
  No table. The sort key is `(tier_value, priority, -is_escalated,
  type_value, created_at)`. After sorting, `main` drops the tickets whose
  status is 4, 5, 13 or 14.
- **All versions** relabel status and priority codes in place with two
  fixed tables, with "Unknown Status" / "Unknown Priority" as fallbacks.
- **v1.0.5 display**: subject and company name are cut to 50 and 30
  characters, with a trailing "...".

Modules:

- `Keys`: Python tuple ordering, proved to be a total order.
- `StableSort`: the specification of a stable sort (`StableSorted`), proved
  to be the only sorted arrangement that keeps equal keys in input order.
  It also holds the in-place insertion sort proved to compute it.
- `Tickets`: the ticket record. JSON values are `Null | Int | Str`, and a
  custom field is `Absent | Present(value)`.
- `Scoring`: the policy table and the lookup.
- `Readable`: the relabelling.
- `Ranker` (v1.0.5), `RankerV103` and `RankerV102`: the three rankers and
  each version's `main` pipeline.
- `Display`: the truncation rule.

The ticket list is an `array<Ticket>` that the methods reorder and overwrite
in place, as the Python code does with its list.

The table also ranks escalated tier-E tickets:
`('E', 'escalated', 'Production'): 30` and `('E', 'escalated', 'Lab'): 29`
(releases/fscommander.py:315-316).

## Model

| member | source | states |
|---|---|---|
| Tickets.Field.Get | releases/fscommander.py:349-350 | `custom_fields.get` gives None exactly when the key is missing or its value is null, and otherwise the stored value |
| Scoring.Table | releases/fscommander.py:268-345 | every entry of the policy table scores between 1 and 76 |
| Scoring.EntryWithScoreInvertsTable | releases/fscommander.py:268-345 | an entry's score reads back to that entry, so no two entries share a score |
| Scoring.TableInvertsEntryWithScore | releases/fscommander.py:268-345 | every score from 1 to 76 names an entry that holds exactly that score |
| Scoring.TableIsInjective | releases/fscommander.py:268-345 | two keys with the same score are the same key |
| Scoring.TableCoversScores | releases/fscommander.py:268-345 | the scores held by the table are exactly 1..76, with none missing |
| Scoring.UnrankedCombinations | releases/fscommander.py:268-345 | among the named tiers, priorities 1-4, environments and types, only priority-4 service requests and D/E priority-3 service requests are missing; every escalated tier/environment pair is listed |
| Scoring.TableExtremes | releases/fscommander.py:269-344 | A/4/Production/incident is the one entry scoring 76; E/1/Lab/service request is the one scoring 1 |
| Scoring.TierOf | releases/fscommander.py:268-345 | a raw tier matches table tier A, B, C, D or E exactly when it is that string |
| Scoring.EnvironmentOf | releases/fscommander.py:268-345 | a raw environment matches only "Production" or "Lab" exactly |
| Scoring.TicketTypeOf | releases/fscommander.py:268-345 | a raw type matches only "Incident or Problem" or "Service request" exactly |
| Scoring.TierName | releases/fscommander.py:268-345 | the table's string for each tier reads back to that tier |
| Scoring.EnvironmentName | releases/fscommander.py:268-345 | the table's string for each environment reads back to that environment |
| Scoring.TicketTypeName | releases/fscommander.py:268-345 | the table's string for each ticket type reads back to that type |
| Scoring.LiteralKey | releases/fscommander.py:268-345 | each policy key has its literal tuple, a 3-tuple exactly for the escalated entries |
| Scoring.PolicyKeyOf | releases/fscommander.py:363-370 | a raw key matches a policy entry only when it is exactly that entry's literal tuple: a 3-tuple for an escalated entry, and for a normal entry the same strings and an integer priority equal to the entry's |
| Scoring.Score | releases/fscommander.py:370 | the score is within 0..76, and 0 exactly when the key has no table entry |
| Scoring.ScoreIsTableLookup | releases/fscommander.py:363-370 | `SCORING_MAP.get(key, 0)` over all keys: a raw key matches a policy key exactly when it is that key's literal tuple, and that tuple scores the table's entry, or 0 when unlisted |
| Scoring.ScoreOfLiteralKeys | releases/fscommander.py:269-344 | literal keys score as the table says: 76, 1, escalated A/Lab 65, C/2/Production/incident 38, and 0 for the two unlisted service requests |
| Scoring.UnlistedValuesScoreZero | releases/fscommander.py:370 | a key with an unknown tier, environment or type, or a non-integer priority, scores 0 |
| Ranker.EffectiveTier | releases/fscommander.py:349-358 | a missing or null tier reads as "C"; any other value is used as stored |
| Ranker.EffectiveEnvironment | releases/fscommander.py:350-361 | a missing or null environment reads as "Production"; any other value is used as stored |
| Ranker.ScoreKeyOf | releases/fscommander.py:347-367 | the key is the escalated 3-tuple exactly when the ticket is escalated; its tier and environment are the defaulted values, and a normal key carries the ticket's own priority and type |
| Ranker.TicketScore | releases/fscommander.py:347-372 | a ticket's score lies in 0..76 |
| Ranker.CalculateSortKey | releases/fscommander.py:347-372 | the key is a pair: the negated score, between -76 and 0, then the ticket's `created_at` |
| Ranker.DiagnosticsNameMissingFields | releases/fscommander.py:355-361 | `Diagnostics` logs one warning naming the ticket per missing or null field, exactly as many as there are such fields, the tier warning first, and no other warning |
| Ranker.AllDiagnosticsNameListTickets | releases/fscommander.py:355-379 | a warning is logged for the list exactly when it is a warning of one of its tickets: none lost, none invented |
| Ranker.SortKeyOrder | releases/fscommander.py:372 | comparing two sort keys orders by higher score first, then by earlier `created_at` |
| Ranker.Annotate | releases/fscommander.py:378-381 | after annotation, the stored `score` is the ticket's table score and the stored `sort_key` is `calculate_sort_key(ticket)`, so `sort_key[0] == -score`, and no other field changes |
| Ranker.AnnotateKeepsScore | releases/fscommander.py:347-381 | storing `score` and `sort_key` does not change the ticket's table score or its sort key |
| Ranker.AnnotateAll | releases/fscommander.py:378-381 | every ticket of the list is annotated, in place and in order |
| Ranker.Ranked | releases/fscommander.py:376-384 | the ranked list is a permutation of the annotated input |
| Ranker.AnnotateTickets | releases/fscommander.py:378-381 | the loop stores the annotation on every ticket in place, and logs each ticket's warnings in list order |
| Ranker.SortTickets | releases/fscommander.py:376-391 | the array ends as the stable sort of the annotated input, and the warnings are those of every ticket, in list order |
| Ranker.RankedTicketsAreAnnotated | releases/fscommander.py:378-384 | every ranked ticket is an annotated input ticket whose stored score is its table score, and its sort key equals `(-score, created_at)` |
| Ranker.RankedOrder | releases/fscommander.py:347-384 | the ranked list has non-increasing table scores, and equal scores have non-decreasing `created_at` |
| Ranker.RankedKeepsFullTies | releases/fscommander.py:384 | tickets tying on score and `created_at` keep their input order |
| Ranker.AnnotateIdempotent | releases/fscommander.py:378-381 | annotating twice stores the same score and key as annotating once |
| Ranker.RankedListIsAnnotated | releases/fscommander.py:378-384 | annotating the ranked list again changes nothing |
| Ranker.RankedIdempotent | releases/fscommander.py:376-384 | ranking a ranked list leaves it unchanged |
| Ranker.MissingFieldsTakeDefaults | releases/fscommander.py:349-361 | a ticket with no tier and no environment scores as tier C in Production, logs both warnings, and keeps its custom fields |
| Ranker.EscalatedScoreIgnoresPriorityAndType | releases/fscommander.py:364-365 | escalated tickets with the same tier and environment score alike; escalated A/Lab scores 65 |
| Ranker.TopScore | releases/fscommander.py:269 | a ticket scores 76 exactly when it is a non-escalated, priority-4, tier-A incident in Production |
| Ranker.EarlierCreatedRanksFirst | releases/fscommander.py:372-384 | of two ranked tickets with equal scores, the one created strictly earlier comes first |
| Ranker.Triage | releases/fscommander.py:583-586 | `main` leaves the list ranked and then relabelled, and returns the warnings |
| Readable.StatusLabel | releases/fscommander.py:237-262 | a status gets "Unknown Status" exactly when it is not an integer code 2..14 |
| Readable.PriorityLabel | releases/fscommander.py:253-263 | a priority gets "Unknown Priority" exactly when it is not an integer code 1..4 |
| Readable.StatusCode | releases/fscommander.py:237-251 | a status label reads back only to a code in 2..14 |
| Readable.PriorityCode | releases/fscommander.py:253-258 | a priority label reads back only to a code in 1..4 |
| Readable.StatusLabelRoundTrip | releases/fscommander.py:237-262 | the 13 status labels are distinct, each reading back to its code, and the fallback reads back to none |
| Readable.PriorityLabelRoundTrip | releases/fscommander.py:253-263 | the 4 priority labels are distinct, each reading back to its code, and the fallback reads back to none |
| Readable.Relabel | releases/fscommander.py:235-265 | status becomes its status label and priority its priority label, and nothing else on the ticket changes |
| Readable.RelabelTwiceForgetsLabels | releases/fscommander.py:261-263 | a second relabelling turns every label into the "Unknown" fallback |
| Readable.MakeStatusPriorityReadable | fscommander-1.0.2.py:248-278 | every ticket is relabelled in place; length and order are unchanged |
| RankerV103.ScoreKeyOf | fscommander-1.0.3.py:266-276 | the key is the escalated 3-tuple exactly when the ticket is escalated; its tier and environment are the stored values with null kept (no defaulting), and a normal key carries the ticket's own priority and type |
| RankerV103.TicketScore | fscommander-1.0.3.py:186-279 | a ticket's score lies in 0..76 |
| RankerV103.CalculateSortKey | fscommander-1.0.3.py:184-282 | the key is a pair: the negated score, between -76 and 0, then the ticket's `created_at`; a null tier or environment gives the first part 0, as nothing is defaulted |
| RankerV103.SortKeyOrder | fscommander-1.0.3.py:282 | comparing two sort keys orders by higher score first, then by earlier `created_at` |
| RankerV103.SortTickets | fscommander-1.0.3.py:283-294 | when every ticket has a tier and an environment key, the array ends as the stable sort by `(-score, created_at)`, with tickets unchanged |
| RankerV103.SortedOrder | releases/fscommander-1.0.3.py:282-285 | the sorted list is a permutation of the input, scores do not increase, and equal scores keep `created_at` ascending |
| RankerV103.SortedKeepsFullTies | fscommander-1.0.3.py:285 | tickets tying on score and `created_at` keep their input order |
| RankerV103.NullFieldScoresZero | releases/fscommander-1.0.3.py:266-279 | a tier or environment that is present but null scores 0 |
| RankerV103.EscalatedScoreIgnoresPriorityAndType | fscommander-1.0.3.py:273-276 | escalated tickets with the same tier and environment score alike |
| RankerV103.AgreesWithLaterVersion | fscommander-1.0.3.py:266-279 | with non-null tier and environment the score equals v1.0.5's; with a null one it is 0 |
| RankerV103.RelabelledTicketScoresZero | fscommander-1.0.3.py:398-401 | a non-escalated ticket scored after relabelling would score 0, which is why `main` sorts first |
| RankerV103.Triage | releases/fscommander-1.0.3.py:397-401 | `main` leaves the list sorted by score and then relabelled |
| RankerV102.TierValue | fscommander-1.0.2.py:191-192 | A..E rank 1..5, and any other tier, null included, ranks 6 |
| RankerV102.TypeValue | fscommander-1.0.2.py:195 | the type rank is 1 exactly for "Incident or Problem", and 2 otherwise |
| RankerV102.EscalationValue | fscommander-1.0.2.py:201 | escalated tickets get the smaller value |
| RankerV102.SortingKey | fscommander-1.0.2.py:183-204 | the key has five parts: tier rank 1..6, the integer priority, -1 exactly for escalated tickets, 1 exactly for incidents, then `created_at` |
| RankerV102.SortingKeyOrder | fscommander-1.0.2.py:198-204 | key comparison is tier rank, then lower priority code, then escalated first, then incidents first, then older `created_at` |
| RankerV102.EnvironmentIgnored | fscommander-1.0.2.py:183-204 | changing the environment does not change the key |
| RankerV102.SortTickets | fscommander-1.0.2.py:206-207 | when every ticket has a tier key and an integer priority, the array ends as the stable sort by the key |
| RankerV102.SortedOrder | releases/fscommander-1.0.2.py:198-206 | the sorted list is a permutation in which every earlier ticket ranks before every later one |
| RankerV102.SortedKeepsTies | releases/fscommander-1.0.2.py:206 | tickets with equal keys keep their input order |
| RankerV102.UnknownTierSortsLast | releases/fscommander-1.0.2.py:191-192 | after sorting, every ticket of a known tier comes before every ticket of an unknown or null tier |
| RankerV102.EscalatedFirstWithinTierAndPriority | fscommander-1.0.2.py:201 | within one tier rank and priority, escalated tickets come before non-escalated ones |
| RankerV102.IsClosedStatus | fscommander-1.0.2.py:314 | a status is dropped exactly when its label is "Resolved", "Closed", "Rejected" or "Duplicate" |
| RankerV102.OpenTickets | fscommander-1.0.2.py:314 | no ticket with status 4, 5, 13 or 14 survives the filter |
| RankerV102.OpenTicketsAppend | fscommander-1.0.2.py:314 | the filter distributes over concatenation |
| RankerV102.OpenTicketsExact | releases/fscommander-1.0.2.py:314 | the filter keeps every ticket without a closed status, as many times as it occurs, and drops the rest |
| RankerV102.OpenTicketsMembership | fscommander-1.0.2.py:314 | a ticket survives exactly when it was in the list and its status is not closed |
| RankerV102.OpenTicketsKeepOrder | fscommander-1.0.2.py:314 | the filter keeps relative order, so a sorted list stays sorted |
| RankerV102.OpenTicketsIdempotent | fscommander-1.0.2.py:314 | filtering twice is filtering once |
| RankerV102.Triage | fscommander-1.0.2.py:310-317 | `main` sorts the list in place, then returns a new list holding the open tickets in sorted order, relabelled |
| StableSort.StableSorted | releases/fscommander.py:384 | the reference stable sort inserts the elements in input order and returns as many as it was given; the lemmas below prove it sorted, a permutation, stable and unique |
| StableSort.StableSortedPermutes | releases/fscommander.py:384 | the stable sort returns a permutation of its input |
| StableSort.StableSortedIsSorted | releases/fscommander.py:384 | the stable sort's result is ordered by the key |
| StableSort.StableSortedKeepsTies | releases/fscommander.py:384 | the stable sort keeps every group of equal keys in input order |
| StableSort.StableSortedCharacterized | releases/fscommander.py:384 | an arrangement is the stable sort exactly when it is sorted and keeps every tie group in input order |
| StableSort.StableSortedIdempotent | releases/fscommander.py:384 | sorting a sorted list again changes nothing |
| StableSort.InsertionSortBy | fscommander-1.0.3.py:285 | the in-place sort leaves the array equal to the stable sort of its old contents |
| Keys.KeyLtTrichotomy | releases/fscommander.py:372 | exactly one of a < b, a == b, b < a holds for two tuple keys |
| Keys.StrLeTransitive | releases/fscommander.py:372 | string comparison of `created_at` is transitive |
| Keys.KeyLeTransitive | releases/fscommander.py:372 | tuple comparison is transitive |
| Keys.PairOrder | releases/fscommander.py:372 | a `(int, str)` key compares by the number, then by the string |
| Display.Shorten | releases/fscommander.py:415 | a text that fits is kept; a longer one becomes its first `width - 3` characters plus "...", exactly `width` long |
| Display.SubjectCell | releases/fscommander.py:415 | a subject is at most 50 characters, cut to 47 plus "..." when longer |
| Display.CompanyName | releases/fscommander.py:418 | the department's company name, or "Unknown" when the lookup lacks it |
| Display.CompanyCell | releases/fscommander.py:418-419 | a company name is at most 30 characters, cut to 27 plus "..." when longer, and "Unknown" for an unknown department |
| Display.ShortenCollisions | releases/fscommander.py:415-419 | two texts display the same exactly when they are equal, both cut with a common prefix, or one fits and equals the other cut |
| Display.LongSubjectHasTwin | releases/fscommander.py:415 | every subject longer than 50 characters displays exactly like some other subject of the same length |

## Left out

- HTTP transport, authentication, rate limiting, the ticket and company
  fetchers, environment loading, argument parsing, logging setup, signal
  handling and `read_json_file`. These are I/O. The tickets and the company
  lookup are parameters.
- The JSON, table and HTML printing. Only the truncation rule is modelled.
  The `strptime`/`strftime` reformatting of `created_at` is a foreign library
  and is left out.
- The debug-only logging loops after each sort. They only produce output.
  In v1.0.5 that loop indexes `custom_fields['account_tier']` directly
  (releases/fscommander.py:389), so it would raise KeyError on a ticket
  without a tier, but only at debug level.
- `app.py` is not part of this model.
- JSON floats and booleans as status, priority or tier values. The model's
  values are null, integers and strings. In Python `True == 1`, so a boolean
  priority would match integer entries.
- Ranker.SortTickets, RankerV103.SortTickets, RankerV102.SortTickets: the
  model sorts by insertion sort, not Timsort. `StableSortedCharacterized`
  shows that any stable sort gives the same result, so only the cost differs.
- Aliasing: Python tickets are shared dictionaries. In v1.0.2 the filtered
  list holds the same dictionaries as the sorted list, so relabelling also
  changes the sorted list. RankerV102.Triage: tickets are values here, so
  the sorted array keeps the numeric codes.
- RankerV103.SortTickets, RankerV102.SortTickets: KeyError and TypeError
  are preconditions, not modelled error paths. v1.0.3 requires tier and
  environment keys. v1.0.2 requires a tier key and an integer priority on
  every ticket. That is enough for the sort not to raise, but more than
  Python needs: Python raises TypeError only when a comparison actually sets
  `None` or a string against an integer, so a single ticket with a null
  priority, or a list whose priorities are all strings, sorts without error.
- Keys.PartLt: an integer is put before a string. Python would raise
  TypeError, but the rankers never build keys that compare the two.
- Every version indexes `custom_fields['ticket_type']` directly. The model's
  ticket always has that entry, so a missing one (a KeyError) is not modelled.
- v1.0.3 and v1.0.5 build the same 76-entry table. The model defines it once
  and both rankers use it.
