# Support assistant: a verified model

A support ticket is classified, an agent gathers data through tools, a reply is rendered from
the facts gathered, the finished text is checked against those facts, and the ticket ends
either replied to or handed to a human, together with a trace of how it got there. This
project models that pipeline and proves what it promises.

## How the model is laid out

| part | modules |
|---|---|
| ASCII text, a backtracking regex engine, and the tokenizers the patterns amount to | `Text`, `Regex`, `Scanners`, `Joints` |
| Amounts: printing, scanning, parsing | `Decimals` |
| Records, decisions, failures | `Wrappers`, `Domain` |
| Facts and the grounding checker | `FactSets`, `Grounding` |
| Templates, the letters they render, and when those pass the check | `Templates`, `Letters`, `ProseFacts`, `Pieces`, `Agreement`, `OddNames` |
| Trace steps, clock, recorder, summaries | `Trace` |
| The bounded loop, its trace grammar, and what outcomes owe to traces | `Orchestrator`, `TraceGrammar`, `GenuineTraces`, `RunFacts`, `Details` |
| Fixture tools and the deterministic agent | `Sorting`, `Loaders`, `Keywords`, `FakeLLM`, `FakeRuns`, `Truthful` |
| The row codec and the two ticket stores | `Codec`, `Tickets`, `Stores`, `StoreRefinement`, `StoreRuns` |
| Counters, histograms and the fold of finished runs | `Metrics`, `MetricFacts`, `RunMetrics` |
| One run from store to store, and the service as interleaved steps | `Pipeline`, `Service`, `ServiceCounts` |

**What is arbitrary.** The model, the tools, the templates and (where its verdict does not
matter) the checker are fields of a `World`: functions that may return anything or raise, at
every call, and may answer differently from one iteration to the next. Statements about "every
run" quantify over all of them. `Genuine` restricts the checker to the real one, and
`FakeWorld` is the deterministic agent over a fixture database.

**What is imperative.** The recorder, the clock, the orchestrator's loop, the verdict loop, the
projection, the two stores, the counters and histograms are classes and loops as in the source.
Each is proved against a specification function, and the theorems are about that function.

**What was found on the way.**

- Each handoff reason is documented as having a single origin
  (`src/support_assistant/enums.py:66-72`), but a model's own handoff step carries any reason it
  likes (`RunFacts.ModelHandoffBorrowsReason` is a run). The exact condition is
  `RunFacts.ReasonAgreesWithEvidence`: a reason can be read off its trace if and only if the
  trace holds no such handoff, or the handoff gave `TOOL_ERROR`, and the run met no exception
  that passes for another: no typed tool failure raised outside the tools, and no other
  exception of a tool under the name of one.
- The ticket validator and the table CHECK are documented as identical
  (`src/support_assistant/domain.py:265-271`), and differ for an empty reply:
  `Tickets.ChecksDiffer`, `StoreRefinement.FinalisePartsExactly`, `StoreRefinement.GetFailsExactly`.
- The two stores read the clock differently when an id is unknown: `StoreRuns.StoresAnswerAlike`
  gives the drift exactly.
- A station name can withhold an honest reply. With a station called `2` the rendered reply
  about `42.10` kWh is refused (`OddNames.NameInsideAmount`), and so it is with one called
  `10 kWh`, which is masked across the edge of `42.10 kWh` (`OddNames.NameAcrossEdge`); with one
  called `42.10` it passes (`OddNames.NameIsAmount`). The exact condition is in
  `Agreement.LayersAgree`: the identifiers of each interpolated field, and all that masking the
  whole letter leaves of it, must be sourced. For names that stand across no field edge it comes down to the
  amounts, each by itself (`Agreement.FieldsHoldByAmounts`).
- The trace automaton accepts verdicts the checker cannot reach (`GenuineTraces.UnearnedVerdict`);
  `GenuineTraces.TracesOfRuns` says exactly which traces runs leave.
- With an empty station name each digit is scanned alone, so what counts is whether each single
  digit is an allowed number (`OddNames.EmptyNameReads`, and `OddNames.EmptyNameVerdict` for any
  text): `42.10` is withheld (`OddNames.EmptyNameWithholds`), `1.00` kWh for `0.00` passes
  (`OddNames.EmptyNamePasses`).
- An amount that is not a whole number of hundredths is written as another number:
  `Decimals.AmountRoundTrip` and `Agreement.AmountsHoldByRounding` say exactly when a reply
  survives it.

## Model

| member | source | states |
|---|---|---|
| Scanners.IdentifierMatchesWords | src/support_assistant/guardrails/grounding.py:30 | At every position, the identifier pattern matches exactly if a maximal word starts there and has the shape `inv_`, `sess_` or `u_` followed by something, and then matches the whole word |
| Scanners.IdentifierShapes | src/support_assistant/guardrails/grounding.py:30 | An identifier is a word that starts with `inv_`, `sess_` or `u_` and goes on |
| Scanners.NumberMatch | src/support_assistant/guardrails/grounding.py:31 | The number pattern matches at a position exactly if a digit stands there, and takes the longest numeral, with its decimal part if one follows |
| Scanners.NumberFindsNumerals | src/support_assistant/guardrails/grounding.py:31 | The number scan of a text returns its numerals, left to right, and nothing else |
| Scanners.WholeWordMatchesWords | src/support_assistant/llm/fake.py:41-43 | The `\b(?:...)\b` alternation, with or without case folding, matches exactly the maximal words that belong to the vocabulary |
| Scanners.WholeScan | src/support_assistant/guardrails/grounding.py:102-107 | For any pattern that matches whole words, `findall` filters the words of the text and `sub` replaces exactly those words by a space |
| Scanners.AnyLongestFirstMasks | src/support_assistant/guardrails/grounding.py:34-36 | Masking depends on the set of spans only: every longest-first listing, whatever it does among equal lengths, replaces what leftmost-longest masking replaces |
| Scanners.MaskMatch | src/support_assistant/guardrails/grounding.py:83-87 | At each position the alternation takes the longest span that stands there, and misses if none does |
| Scanners.OccurrenceMasked | src/support_assistant/guardrails/grounding.py:83-87 | An occurrence of a span that no earlier match reaches into is covered whole by a match that starts where it starts |
| Regex.SpansAreMatches | src/support_assistant/guardrails/grounding.py:102-107 | Every span a scan reports is a match of the pattern at its own position |
| Regex.BlankKeepsUncovered | src/support_assistant/guardrails/grounding.py:87 | A substitution loses no character outside its matches: each is in the output, at its computed position |
| Joints.MaskedWordInside | src/support_assistant/guardrails/grounding.py:83-87 | Masking makes no new words: every word of the masked text stands contiguously in the original |
| Joints.MaskedNumeralInside | src/support_assistant/guardrails/grounding.py:83-87 | Masking makes no new numerals: every numeral of the masked text stands contiguously in the original |
| Joints.EmptySpanIsolates | src/support_assistant/guardrails/grounding.py:83-87 | With an empty span among the sourced ones, every digit and every word character masking leaves is scanned on its own |
| Decimals.AmountRoundTrip | src/support_assistant/domain.py:64-71 | Printing an amount, scanning it and parsing it gives one literal, whose value is the nearest hundredth, ties to even; for a non-negative amount it equals the original exactly when that is a whole number of hundredths; a sign is written exactly for a negative one |
| Decimals.AmountInText | src/support_assistant/guardrails/grounding.py:31 | Between neighbours that do not run into it, a printed amount is scanned as one numeral and the text around it as it would be alone |
| Decimals.SpellingsAgree | src/support_assistant/guardrails/grounding.py:76-80 | Comma, point and a trailing zero give the same number |
| Decimals.WholeNumerals | src/support_assistant/guardrails/grounding.py:76-80 | A numeral without a fraction has the value of its digits, and `.0` or `,0` behind it changes nothing |
| Decimals.NumeralParses | src/support_assistant/guardrails/grounding.py:76-80 | Every scanned numeral parses |
| Decimals.RoundHalfEven | src/support_assistant/domain.py:64-71 | Rounding to two places picks a nearest value, and the even one of two |
| FactSets.Collect | src/support_assistant/guardrails/factset.py:62-101 | The projection loop computes the facts of the history |
| FactSets.CollectNumbers | src/support_assistant/guardrails/factset.py:103-116 | The loop gathers exactly the amounts, kWh, costs and row counts |
| FactSets.FactsAreObserved | src/support_assistant/guardrails/factset.py:62-101 | Every fact is a field of a record some observation holds |
| FactSets.FactsKeepRows | src/support_assistant/guardrails/factset.py:71-94 | The facts of a history hold every invoice and every session of all its results, once per occurrence and in order |
| FactSets.FactsKeepLastUser | src/support_assistant/guardrails/factset.py:71-75 | The customer is the last user observed, and there is none exactly if no user was |
| FactSets.AllowedNumbersExact | src/support_assistant/guardrails/factset.py:103-116 | A number is allowed if and only if it is an amount, kWh or cost of an observed record, or the number of invoices or of sessions observed |
| FactSets.AllowedStatusesExact | src/support_assistant/guardrails/factset.py:139-143 | A status word is allowed if and only if it is the status of an observed record |
| FactSets.AllowedIdentifiersExact | src/support_assistant/guardrails/factset.py:118-124 | An identifier is allowed if and only if it is the id of an observed invoice or session, or the customer's own |
| FactSets.AllowedEntitiesExact | src/support_assistant/guardrails/factset.py:126-137 | A name is masked if and only if it is an observed station, or the customer's name |
| Grounding.Verify | src/support_assistant/guardrails/grounding.py:110-151 | One pass returns the literals and their verdict as specified |
| Grounding.Judge | src/support_assistant/guardrails/grounding.py:129-151 | The verdict loop computes the list of unsourced literals |
| Grounding.ViolationsAreUngrounded | src/support_assistant/guardrails/grounding.py:129-151 | The violations are the subsequence of the ungrounded literals: none added, lost or reordered |
| Grounding.ExtractTokenizes | src/support_assistant/guardrails/grounding.py:93-108 | What the three scans extract, with no regex left: the identifier words, then the numerals and the status words of the blanked and masked text |
| Grounding.MaskedIsMask | src/support_assistant/guardrails/grounding.py:83-105 | The text the number and status scans see is the identifier-blanked reply with the sourced names masked leftmost-longest |
| Grounding.StatusFindsWords | src/support_assistant/guardrails/grounding.py:39-42 | The status scan finds exactly the words that are, up to case, the word of a member of one of the two status enumerations |
| Grounding.StatusVocabulary | src/support_assistant/enums.py:50-64 | Those are `paid`, `pending`, `failed`, `completed` and `interrupted`, and the vocabulary of the pattern has no other |
| Text.FoldsCase | src/support_assistant/guardrails/grounding.py:39-47 | Two texts fold to the same exactly if they differ in the case of letters only |
| Grounding.NoDigitEscapes | src/support_assistant/guardrails/grounding.py:93-151 | With no violations every digit of the reply is in a sourced identifier, in a sourced name of the blanked text, or in a numeral of the masked text whose value is allowed |
| Grounding.NoWordEscapes | src/support_assistant/guardrails/grounding.py:93-151 | With no violations every identifier of the reply is sourced, and so is every word of the masked text that is a status of an invoice or of a session |
| Grounding.SafeListDropsNumbersOnly | src/support_assistant/guardrails/grounding.py:118-127 | Enlarging the safe list deletes from the violations exactly the number literals whose value it names, and touches no identifier or status violation |
| Templates.RendersExactlyWhen | src/support_assistant/llm/templates.py:41-122 | Each template renders exactly if the name is there and not empty and the record it speaks about exists |
| Templates.First | src/support_assistant/llm/templates.py:80-87 | The first invoice of the status, or an error exactly if there is none |
| Templates.Name | src/support_assistant/llm/templates.py:72-77 | The name, or an error exactly if it is missing or empty |
| Letters.AllPaidRendered | src/support_assistant/llm/templates.py:130-139 | With a name, the all-paid template renders, and is this text about the account |
| Letters.FailedRendered | src/support_assistant/llm/templates.py:142-153 | With a name and a failed invoice, the failed-payment template renders, and is this text: the id, amount and currency of the first failed invoice, each in its place |
| Letters.PendingRendered | src/support_assistant/llm/templates.py:155-166 | The same for the pending template and the first pending invoice |
| Letters.CompletedRendered | src/support_assistant/llm/templates.py:168-178 | With a name and a session, the completed template renders, and is this text: the station, the kWh delivered and the cost charged, of the first session |
| Letters.EndedEarlyRendered | src/support_assistant/llm/templates.py:180-192 | The same for the ended-early template, with the status of the session |
| Pieces.CleanVerdict | src/support_assistant/guardrails/grounding.py:93-151 | A text of silent prose and arbitrary fields passes if and only if, field by field, the identifiers in it are sourced and so is every numeral and status word in what masking the whole text leaves of it |
| Agreement.LayersAgree | src/support_assistant/llm/templates.py:130-210 | For every template and all facts that call for it, whatever the names, ids and currency in them, the rendered reply passes its own check if and only if its fields hold: the identifiers of each are sourced, and what masking the whole letter leaves of each is. The prose never matters |
| Agreement.FieldsHoldByAmounts | src/support_assistant/llm/templates.py:41-52 | With fixture-shaped ids, plain currency and names that hold no id and stand across no field edge, the fields hold if and only if the amounts do, each masked by itself |
| Agreement.AmountsHoldByRounding | src/support_assistant/domain.py:64-71 | Where no name stands inside an amount, the amounts hold if and only if each, as written with two decimals, is an allowed number |
| Agreement.HonestReplyPasses | src/support_assistant/llm/templates.py:41-52 | With non-negative amounts of whole hundredths the rendered reply passes if and only if every field holds but the amounts masking leaves as they are, which need no check; so it passes with well-shaped names that stand across no edge and inside no amount |
| Agreement.SafeNumbersExact | src/support_assistant/llm/templates.py:194-210 | Three is the only number a template declares for itself, and the pending letter the only one that does |
| Agreement.OrdinaryNamesKeepToFields | src/support_assistant/guardrails/grounding.py:83-87 | A name stands across no field edge if it is a single token, or if the two characters that meet at an edge nowhere stand together in it |
| Agreement.OrdinaryReplyPasses | src/support_assistant/llm/templates.py:130-210 | With such names, each holding a character amounts are not written with, the rendered reply passes if and only if its amounts survive rounding |
| OddNames.NameInsideAmount | src/support_assistant/guardrails/grounding.py:83-87 | A rendered reply that meets every other condition is refused: the station `2` is masked out of `42.10` and a lone `4` remains |
| OddNames.NameAcrossEdge | src/support_assistant/guardrails/grounding.py:83-87 | A rendered reply is refused though its amounts are honest, no name stands inside them and each reads true by itself: the station `10 kWh` is masked across the edge of `42.10 kWh` and leaves `42` |
| OddNames.NameIsAmount | src/support_assistant/guardrails/grounding.py:83-87 | The same reply passes with a station called `42.10`, which masks the amount whole |
| OddNames.EmptyNameReads | src/support_assistant/domain.py:101-109 | With an empty name an amount reads true if and only if each digit the names leave of it is, alone, an allowed number |
| OddNames.EmptyNameVerdict | src/support_assistant/guardrails/grounding.py:83-151 | With an empty name any reply passes if and only if its identifiers are sourced and each digit the names leave of it is, alone, an allowed number |
| OddNames.EmptyNameWithholds | src/support_assistant/domain.py:101-109 | So the rendered reply about `42.10` at a station without a name is refused |
| OddNames.EmptyNamePasses | src/support_assistant/domain.py:101-109 | And the rendered reply about `1.00` kWh for `0.00` there passes |
| Trace.FrozenClock.Now | src/support_assistant/clock.py:51-54 | Returns the next instant and advances by one tick |
| Trace.TraceRecorder.Record | src/support_assistant/tracing/recorder.py:62-69 | Takes a number and a reading, then appends the step, or raises for an incoherent one and leaves a gap; numbers stay 1, 2, 3, ... while no step raises |
| Trace.CountByStatus | src/support_assistant/tracing/summarise.py:62-65 | The counting loop computes, for each status present, how many records have it |
| Trace.CollectionSummarised | src/support_assistant/tracing/summarise.py:55-71 | What the summary of a collection says: the number of its rows; for each status some row has, and no other, how many rows have it, adding up to all; and the id of each row, in order |
| Trace.SummarisedExactly | src/support_assistant/tracing/summarise.py:28-43 | There is a summary exactly if the first record of `get_user` is a user, or the rows of a collection are all of its kind; that of a user says `found` and the plan |
| Trace.SummaryReferencesRows | src/support_assistant/tracing/summarise.py:55-71 | A collection summary lists the id of every row it summarises, and no other id |
| Orchestrator.DecideTicket | src/support_assistant/pipeline/orchestrator.py:137-212 | Classify and loop: returns the specified outcome, and the recorder ends with exactly the specified events, numbered and timed |
| Orchestrator.RunLoop | src/support_assistant/pipeline/orchestrator.py:166-203 | The bounded loop takes the specified turns until one ends the run or the cap is reached |
| Orchestrator.Iterate | src/support_assistant/pipeline/orchestrator.py:167-197 | One iteration: decision recorded, then the call, the draft or the handoff, with the tool in flight named in a failure |
| Orchestrator.CallAndRecord | src/support_assistant/pipeline/orchestrator.py:173-190 | The guarded region: the call and its result are both recorded, whether the tool or its summary raises or not |
| Orchestrator.GroundReply | src/support_assistant/pipeline/orchestrator.py:215-235 | Project, render and check with one template; nothing is recorded if resolving or rendering raises |
| Orchestrator.OutcomesArePaired | src/support_assistant/pipeline/orchestrator.py:59-79 | Every run ends with a reply and no reason, or with a reason, its detail and no reply |
| TraceGrammar.EveryRunIsAccepted | src/support_assistant/pipeline/orchestrator.py:112-212 | Whatever the model, tools, templates and checker do, the trace is accepted by the trace automaton |
| TraceGrammar.AcceptedLayout | src/support_assistant/pipeline/orchestrator.py:112-128 | Every accepted trace: classification first, rounds of three, iterations 1, 2, 3, ..., a failed result only just before the end, one final decision, last, and at most 3 * max + 2 steps |
| TraceGrammar.EveryAcceptedTraceHappens | src/support_assistant/pipeline/orchestrator.py:137-212 | The automaton is exact for an arbitrary checker: each trace it accepts is left by some run if the checker may say anything |
| GenuineTraces.TracesOfRuns | src/support_assistant/pipeline/orchestrator.py:215-235 | With the one checker the service has: a trace is left by some run if and only if the automaton accepts it and its grounding verdict, if it has one, is what the checker says of some reply over results with the recorded summaries |
| GenuineTraces.UnearnedVerdict | src/support_assistant/guardrails/grounding.py:129-151 | The second condition counts: a verdict with a violation among no literals is accepted and left by no run |
| RunFacts.RunHistory | src/support_assistant/pipeline/orchestrator.py:173-191 | The observations of a run are its successful tool results, one for one: the k-th is what the tool answered at iteration k + 1, recorded under its summary |
| RunFacts.RepliesAreGrounded | src/support_assistant/pipeline/orchestrator.py:215-235 | End to end: in every replied run every digit of the reply is accounted for, and every allowed number is an amount, kWh, cost or row count of records behind the run's successful tool results |
| RunFacts.RepliesNameOnlyReturned | src/support_assistant/guardrails/factset.py:118-143 | In every replied run each identifier of the reply and each status word of its masked text is a field of a record behind a successful tool result, and so is each masked name |
| RunFacts.RepliesAreTraceable | src/support_assistant/tracing/summarise.py:55-71 | Over registry-shaped results each identifier of a reply is the projected user id or is listed by a successful tool result of the same trace |
| RunFacts.ReasonAgreesWithEvidence | src/support_assistant/pipeline/orchestrator.py:158-212 | Over every run, each reason, and a reply, holds exactly if the trace shows its evidence, if and only if the trace has no model handoff under another reason than `TOOL_ERROR` and no call outside the tools raised a typed tool failure, nor a tool an untyped one under such a name |
| RunFacts.ModelHandoffBorrowsReason | src/support_assistant/pipeline/orchestrator.py:195-196 | A run that ends in a model handoff is reported ungrounded though nothing was checked |
| Details.DetailsExplain | src/support_assistant/pipeline/orchestrator.py:238-266 | In every trace the detail of the final decision follows from the step before it, as text: the failing tool and its message, the unsourced literals with their classes, the reason the model gave, the ambiguous keywords, or the cap |
| Sorting.SortByCorrect | src/support_assistant/tools/loaders.py:93 | Sorting orders by key, keeps the elements, and keeps elements of equal key in order |
| Sorting.StableSortUnique | src/support_assistant/storage/memory.py:55 | Nothing else is a stable arrangement in key order |
| Loaders.FiledRows | src/support_assistant/tools/loaders.py:117-120 | The rows found are exactly the rows filed under the user, each once and in the order of the table |
| Loaders.GetUserExact | src/support_assistant/tools/loaders.py:46-51 | A user is found exactly if the table can be read and the first row filed under the id validates, and then has the name, language and plan of that row; otherwise the first of three reasons is raised |
| Loaders.CollectionExact | src/support_assistant/tools/loaders.py:70-93 | A collection call fails for the first of these reasons that holds, and otherwise returns: the user is not on file, the table cannot be read, no row is theirs, a row of theirs is malformed; what it returns is all of their records, at least one, newest first and stable |
| Loaders.AnswerUnique | src/support_assistant/tools/loaders.py:70-93 | Whatever meets that description of the records is what the call returns |
| Loaders.RegistryAnswers | src/support_assistant/tools/registry.py:55-72 | Each registered tool answers from its own table and under its own name, as described |
| Loaders.RegistryRefuses | src/support_assistant/tools/registry.py:55-68 | An unknown tool, or anything but one non-empty `user_id`, is an execution error |
| Loaders.CollectionIsolated | src/support_assistant/tools/loaders.py:70-93 | Two tables that agree on the user's own rows give the same answer, malformed rows of others included |
| Loaders.RegistryIsolated | src/support_assistant/tools/registry.py:55-72 | The same for every tool through the registry |
| Loaders.OthersAreFilteredOut | src/support_assistant/tools/loaders.py:117-120 | A row of another user never matters, wherever it stands |
| Keywords.HitsAreWords | src/support_assistant/llm/fake.py:73-75 | A category's hits are the words of the text that are its keywords |
| Keywords.ClassifyJudgesWords | src/support_assistant/llm/fake.py:73-81 | The classification is a vote over the union of the words of subject and body: repeating, permuting or moving words changes nothing |
| Keywords.ClassifyExact | src/support_assistant/llm/fake.py:59-81 | The intent follows the larger number of distinct keywords, a tie is unknown without evidence, and the evidence is the winner's keywords in strictly ascending order |
| Keywords.OneWordTicket | src/support_assistant/llm/fake.py:31-38 | A ticket of any single word: the twelve words of one category, the nine of the other, and everything else |
| Keywords.EvidenceUnique | src/support_assistant/llm/fake.py:67-68 | No other list is the evidence of the same ticket |
| Text.LexExact | src/support_assistant/llm/fake.py:67-68 | The order of the evidence: a text comes before another if it is a start of it, or has the smaller character at the first place they differ |
| FakeRuns.TemplatePicked | src/support_assistant/llm/fake.py:109-122 | The template is the one the statuses call for: failed before pending before paid; completed exactly if the first session is |
| FakeLLM.ResultFor | src/support_assistant/llm/fake.py:124-129 | The result used is that of the first call of the tool, and there is none exactly if it was not called |
| FakeRuns.FakeRun | src/support_assistant/llm/fake.py:83-99 | Given three iterations the agent never reaches the cap: one decision per successful fetch and one more, and an outcome settled by the classification, the two fetches and the check |
| Truthful.FakeRepliesAreTrue | src/support_assistant/llm/fake.py:109-122 | Over every database and request, a reply is, word for word, the letter about the requesting user's own records, under the name in the first row filed under their id: all paid only if every invoice is; a newest failed invoice; a newest pending one only if none failed; a session that started last, with what it delivered, what it cost and how it ended |
| Truthful.FakeRepliesAreGrounded | src/support_assistant/pipeline/orchestrator.py:215-235 | Every digit of an agent reply is accounted for by its own fetches and the safe list of the shipped template that rendered it, and every identifier is the requesting user's or listed in the trace |
| Truthful.FakeAnswers | src/support_assistant/llm/templates.py:72-122 | With the user on file and their data found, in terms of the tables, the run is a tool error exactly if the name on file is empty, and otherwise replies exactly if the fields of the letter hold |
| Truthful.FakeReasons | src/support_assistant/tools/loaders.py:46-93 | The user is reported missing exactly if no row of the user table is filed under their id, the data exactly if the user is on file and no row of the intent's table is theirs; the cap is never the reason |
| Codec.RowRoundTrip | src/support_assistant/storage/sqlite.py:224-241 | A step read back from its row is the same step, for all six types, exactly if the step was valid |
| Codec.WrittenIsRead | src/support_assistant/tracing/models.py:43-170 | A step is valid exactly if its number and iteration are positive, it names a tool exactly for a tool call, its literal count is not negative, and it ends a run replied to without a reason or handed off with one |
| Codec.ReadIsFaithful | src/support_assistant/storage/sqlite.py:236-241 | Whatever stands in a row, a step read from it is valid and has its number, time and type, and writing it again gives every field of the row back, with defaults for those left out: no field is lost, altered or unknown |
| Codec.DecisionsStored | src/support_assistant/domain.py:177-204 | The payload of each of the three decisions, with the text it is stored under |
| Codec.RowsStored | src/support_assistant/tracing/models.py:43-170 | The row of a step of each type, field by field, under the names it is stored with |
| Codec.OutcomesStored | src/support_assistant/enums.py:27-90 | The text of each outcome and of each handoff reason |
| Codec.IntentsStored | src/support_assistant/enums.py:15-24 | The text of each intent |
| Codec.ClassesStored | src/support_assistant/enums.py:94-105 | The text of each literal class, in a violation stored under its alias |
| Codec.RowsAreDistinct | src/support_assistant/storage/sqlite.py:224-234 | Distinct steps never share a row |
| Tickets.ChecksDiffer | src/support_assistant/storage/sqlite.py:65-70 | The validator implies the CHECK, and the CHECK allows one thing more: an empty reply |
| Tickets.CoherentExactly | src/support_assistant/domain.py:263-287 | The validator allows exactly an open ticket, one replied to with some text, and one handed off for a reason |
| Tickets.RequestEdges | src/support_assistant/domain.py:230-236 | The bounds of a request, from both sides |
| Stores.MemoryRepository.Create | src/support_assistant/storage/memory.py:25-29 | Stores the ticket without its trace, or refuses a known id and changes nothing |
| Stores.MemoryRepository.Finalise | src/support_assistant/storage/memory.py:35-57 | Replaces state and trace after validation; an unknown id is noticed before the clock is read, and a failure changes nothing |
| Stores.SqliteRepository.Create | src/support_assistant/storage/sqlite.py:132-157 | Inserts the row, or refuses a CHECK violation or a known id and changes nothing |
| Stores.SqliteRepository.Insert | src/support_assistant/storage/sqlite.py:212-216 | The inserts, row by row; on failure the table holds exactly the rows before the first key already there |
| Stores.SqliteRepository.Finalise | src/support_assistant/storage/sqlite.py:188-216 | Update, deletion and inserts all land or none does; the clock is read in any case |
| Stores.Ascend | src/support_assistant/storage/sqlite.py:168-171 | The keys of one ticket, all of them, by strictly ascending number |
| StoreRefinement.InsertAllExact | src/support_assistant/storage/sqlite.py:73-80 | The inserts go through exactly if no number repeats, and then add one row a step and touch no other |
| StoreRefinement.StoredTrace | src/support_assistant/storage/sqlite.py:161-186 | What is read under an id is valid, strictly ascending, and one step for each of its rows |
| StoreRefinement.FinaliseTraces | src/support_assistant/storage/sqlite.py:210-216 | A finalise replaces the ticket's steps by the sorted trace and leaves every other ticket's |
| StoreRefinement.FinaliseSeen | src/support_assistant/storage/sqlite.py:188-216 | After it a reader sees the new state and the sorted trace, or the validator's error if the outcome is not coherent |
| StoreRefinement.GetFailsExactly | src/support_assistant/storage/sqlite.py:173-186 | Reading fails exactly for a ticket replied to with an empty reply |
| StoreRefinement.CreateRefines | src/support_assistant/storage/sqlite.py:132-159 | Create answers alike on both stores and keeps them alike |
| StoreRefinement.FinaliseRefines | src/support_assistant/storage/sqlite.py:188-216 | So does finalise, for coherent outcomes and distinct numbers |
| StoreRefinement.FinalisePartsExactly | src/support_assistant/storage/memory.py:46-57 | For any outcome and trace the two stores agree on success except exactly when a known ticket gets an empty reply with distinct numbers, or a coherent outcome with a repeated number |
| StoreRuns.StoresStayCoherent | src/support_assistant/domain.py:263-287 | After any calls every stored ticket satisfies the rule of its store, and every step row belongs to a ticket and reads back |
| StoreRuns.StoresAnswerAlike | src/support_assistant/storage/protocol.py:32-72 | Over every sequence of proper calls both stores give the same answers up to the time of last change, and entirely the same if no finalise met an unknown id; the clocks drift by one tick for each that did |
| Metrics.Counter.Inc | src/support_assistant/observability/metrics.py:100-103 | One more under the key, all other keys as before |
| Metrics.Observe | src/support_assistant/observability/metrics.py:123-131 | The walk over the bounds adds to the first bucket that holds the value, or to the overflow |
| Metrics.BucketOf | src/support_assistant/observability/metrics.py:124-129 | The first bound the value does not exceed |
| Metrics.Histogram.constructor | src/support_assistant/observability/metrics.py:143-152 | The bounds are put in ascending order, none lost |
| Metrics.Histogram.Add | src/support_assistant/observability/metrics.py:154-157 | One more observation under the label, on a series made at first use |
| Metrics.RenderSeries | src/support_assistant/observability/metrics.py:166-178 | The running count per bound, then `+Inf`, sum and count |
| Metrics.Registry.RecordRun | src/support_assistant/observability/metrics.py:236-270 | Folds a finished run in: exactly its updates, in order |
| Metrics.Registry.constructor | src/support_assistant/observability/metrics.py:190-223 | Everything starts at zero, over the declared bounds |
| MetricFacts.HistogramCorrect | src/support_assistant/observability/metrics.py:159-179 | Each cumulative bucket is the number of observations at or below its bound, the buckets never decrease, `+Inf` equals the count, and the sum is the sum |
| MetricFacts.OrderIrrelevant | src/support_assistant/observability/metrics.py:69-71 | The registry depends on which updates were made and how often, not on their order: every interleaving, family by family, leaves the same |
| MetricFacts.CountersCount | src/support_assistant/observability/metrics.py:100-103 | Each counter is the number of its updates |
| MetricFacts.IterationsTally | src/support_assistant/observability/metrics.py:154-157 | The iterations series is the tally of the values observed |
| MetricFacts.DurationsTally | src/support_assistant/observability/metrics.py:154-157 | Each duration series is the tally of the values observed under its outcome |
| MetricFacts.SecondsOf | src/support_assistant/observability/metrics.py:268-270 | Durations are observed in seconds |
| RunMetrics.RunsSettle | src/support_assistant/pipeline/orchestrator.py:166-190 | Every run ends terminal with a reason exactly if handed off, has a result for every call, and takes no more decisions than the cap |
| RunMetrics.RunTakenIn | src/support_assistant/observability/metrics.py:236-270 | Whatever the registry held, folding a run in adds one to its status and its reason, the violations and tool results of its trace to theirs, its number of decisions to the iterations, and its seconds, under its own status, to the durations; and nothing else |
| RunMetrics.MetricsConserve | src/support_assistant/observability/metrics.py:236-270 | After any runs, in any order and interleaving: tickets by status are the runs by status, handoffs are the handed-off runs, tool calls are the `tool_call` steps of the traces, violations those recorded |
| RunMetrics.IterationsBounded | src/support_assistant/observability/metrics.py:253-255 | Each run adds one observation of iterations, and the bucket of the cap holds them all |
| RunMetrics.DurationOfRun | src/support_assistant/observability/metrics.py:268-270 | On a ticking clock a run's duration is one tick for each step after the first |
| Pipeline.RunPipeline | src/support_assistant/pipeline/orchestrator.py:82-134 | Read, decide, write once, count: an unknown id is refused, a stored ticket gets one run, and whatever fails leaves store and registry as they were |
| Pipeline.RunLeaves | src/support_assistant/pipeline/orchestrator.py:108-134 | On a well-kept store every run succeeds: its ticket reads back as the request with the outcome and the complete trace (or cannot be read, for an empty reply), every other ticket as before, and the registry has taken in exactly this one run |
| Pipeline.DecideAndRecord | src/support_assistant/pipeline/orchestrator.py:112-126 | The run and its final decision, recorded last, on consecutive readings of the clock |
| Pipeline.WritesAreProper | src/support_assistant/pipeline/orchestrator.py:124-128 | What a run passes to the store satisfies the CHECK, has valid steps and distinct numbers, and satisfies the validator unless the reply is empty |
| Pipeline.RunReadsBack | src/support_assistant/storage/sqlite.py:161-216 | The write of a run on a stored ticket succeeds; reading the ticket then returns its request, the outcome and the complete trace, unless the reply is empty, which cannot be read; every other ticket reads as before |
| Service.MoveKeeps | src/support_assistant/api/routes.py:50-63 | Post, schedule, run, write, failing write, count and death of the process each keep the invariant of the service |
| Service.TicketsAreWhole | src/support_assistant/pipeline/orchestrator.py:108-134 | In every state of every interleaving a stored ticket is either untouched, with no step, or carries the outcome and the complete trace of one and the same run |
| Service.StoredRepliesAreGrounded | src/support_assistant/pipeline/orchestrator.py:215-235 | In every such state, behind each stored reply is one run whose trace is stored with it, that sent this very reply, accounts for every digit of it, and takes its allowed numbers, identifiers, status words and masked names from records its tools returned |
| Service.CountersMatchStore | src/support_assistant/observability/metrics.py:243-248 | A ticket counter never exceeds the stored tickets in its status, and equals them when no run is in flight and no process has died |
| ServiceCounts.MoveBalances | src/support_assistant/observability/metrics.py:236-270 | Every move keeps the balance: the registry is the sum of the updates made, and these with those still to be made are the updates of the written runs |
| ServiceCounts.RegistryMatchesStore | src/support_assistant/observability/metrics.py:236-270 | With no run in flight and no process lost, tickets, handoffs, tool calls and violations counted are those of the stored tickets and their traces, and each stored run was observed once for its iterations |
| Service.FinishedIsFinal | src/support_assistant/enums.py:31-36 | No later step changes a finished ticket or its trace |
| Service.StrandedStays | src/support_assistant/pipeline/orchestrator.py:96-107 | A stored ticket without a job is touched by no move and taken up by none |
| Service.FailureStrands | src/support_assistant/pipeline/orchestrator.py:96-107 | A failing write, and the death of the process, leave tickets like that, with the store untouched; the one counts nothing, the other forgets every count |
| Service.TicketCanRun | src/support_assistant/api/routes.py:50-63 | Whatever else is under way, a posted ticket can be scheduled and run, by any model, tools and templates |
| Service.TicketCanFinish | src/support_assistant/pipeline/orchestrator.py:108-134 | And then written and counted; it holds the outcome and the trace of that run, its job is gone, and the registry has grown by exactly that run |
| Service.PostedIsFound | src/support_assistant/api/routes.py:45-63 | The ticket is stored, and can be read, before its run is scheduled |

## Left out

- Unicode: text is ASCII; word and digit classes, case folding and string order beyond it are not modelled.
- Decimals: finite and exact; exponents, signs inside a literal, NaN and infinities, and spellings such as `5.` or `.5` in a safe list are not modelled.
- The `repr` of an exception, the detail of a `TOOL_ERROR`, is carried as given; how Python spells it is not modelled.
- A negative amount that rounds to zero is written `-0.00`; the model writes it so, and the round trip is stated for non-negative amounts.
- JSON: `dumps` and `loads` are taken to be inverse; key order and lax coercions of the validators (a number given as text, a violation keyed by its field name instead of its alias) are not modelled.
- Fixture files: the loaders start from parsed rows that validate or do not; which field of a row is malformed is not modelled, nor the text of validation messages.
- Labels of metrics are typed values instead of tuples of strings; the text format, its escaping and number formatting are not modelled, and an unlabelled histogram without data is the empty tally.
- The series of a histogram are values in the family's dictionary instead of separate objects, so sharing of a series between families is not modelled.
- Metrics.Registry.RecordRun: sums are exact reals; the order-dependent rounding of floating point is not modelled.
- Rendering a registry while runs are being counted: only states between updates are considered.
- Stores.SqliteRepository.Finalise: locking, pragmas and foreign-key cascades are not modelled; an operation is atomic and its transaction is restored from a copy.
- Pipeline.RunPipeline: store and recorder share one clock, as the application wires them.
- The step hook, logging, and exceptions outside `Exception` (which the catch-all does not catch) are not modelled.
- HTTP transport, request schemas, the demo page, the network model, ticket-id randomness and environment settings carry no property beyond the create-then-schedule order.
- Semantic truth of free prose and invented names: the checker itself does not cover them.
