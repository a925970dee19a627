# sibei-flow, modelled and proved in Dafny

sibei-flow turns a failed dbt run into a proposed fix. A brain (Rust) records each failure as a row
of one Postgres table; workers (Python) claim rows under a lease and let a language model draft an
edit through a few guarded tools; a compile gate decides what may be proposed; the brain's poller
opens a pull request for what was. This project models that pipeline's own logic and proves what
it keeps on every run.

Run `dafny verify dfyconfig.toml` in this directory.

## How the model is laid out

| file | what it models |
|---|---|
| `Basics`, `Text` | optional values; Python's line splitting, stripping and decimal numerals |
| `JobQueue`, `JobTable` | the `repair_jobs` rows, each SQL statement as a step on them, and the table as a mutable object |
| `QueueSystem`, `QueueSafety`, `QueueOrder` | every interleaving of deliveries, workers, brain restarts and pollers, with a clock, crashes and lapsed leases; what all of them keep |
| `LeaseProtocol`, `LeaseExactness`, `PrOpener`, `PollerTurns`, `Dedup` | the lease and exactly when it suffices, the PR claim with its 300 s limit, a poller's turn, and the idempotency key with migration 0003 |
| `UnifiedDiff`, `DiffRoundTrip`, `DiffExactness`, `DiffIdentity`, `DiffSize` | printing a unified diff, reading and applying it, when that is exact, what its text determines, and what the size guard counts |
| `Diffing`, `WorkingCopy` | the working copy of (original, current) texts: replacement, diffs, counting |
| `SqlColumns`, `SqlLists`, `SchemaDelta` | the output columns of a model's final SELECT, writing such a list and reading it back, and which edits of it are reported |
| `AgentTools`, `ToolContext`, `ToolReplies`, `GuardRules`, `EditSafety` | the tools as functions, as methods on the shared context, what each call is answered, what the diff guard refuses, and the invariants of every call sequence |
| `Scoring`, `CompileGate`, `GateModel` | the confidence and risk rubric; evidence, the gate and the verdict on a draft; which model its run compiled |
| `History`, `RepairLoop`, `RepairSafety`, `RepairStory`, `RepairOutcome`, `OpenAiHistory` | the conversation, the bounded loop, its guarantees, what its transcript and its result tell, and the translation for OpenAI-compatible providers |
| `RunJournal`, `SatayCandidate`, `SatayRun`, `SatayPort`, `ForkReplay` | durable calls and their journal, the candidate as a step machine and as loops, its equality with the plain loop, and fork-replay |
| `FanOut`, `Judge`, `UsageReport` | N interleaved candidates over one dictionary of contexts and one warehouse, the verdict among them, and what they cost |
| `JournalDecode`, `JournalEncode` | reading tagged JSON with values spilled to blobs, and the tagged form it is the inverse of |
| `CliConfig`, `CliFiles` | the TOML writer and loader, and files written by hand |

## Conventions

- The outside is arbitrary. The model provider, the sandbox, the warehouse, the source checkout and
  the git host are functions or nondeterministic steps; a call that raises returns nothing. The n-th
  provider call and the n-th sandbox run may answer differently from earlier ones. difflib is any
  function that returns an edit script from the old lines to the new ones, in the order difflib
  prints it. Facts about one job hold for every choice of these.
- A method that changes state is proved equal to a function of the old state; the properties are
  lemmas about those functions and about runs of them.
- `QueueSystem.Sys.tally` and `acks`, `Ctx.checks` and `State.effects` are histories: they record what
  happened and decide nothing.
- Confidence is in exact thousandths; times are whole seconds.
- A SKIP LOCKED select chooses among the rows outside an arbitrary set of locked ones.

## Where the code and its documentation differ

The model follows the code.

- The `edit_file` description asks for an `old_string` that matches exactly once; `str.count` counts
  matches without overlap. `Diffing.UnambiguousIffUnbordered` says for which strings the two agree.
- `changed_line_count` is documented to count all content lines, but it skips a removed line that
  starts with `--`, so every deleted SQL comment, and an added line that starts with `++`.
  `DiffSize.SurelyCountedIff` says for which newline-terminated texts the count is the number of changed lines whatever
  difflib prints; `EditSafety.DeletedCommentsPass` deletes any number of lines within any limit.
- difflib prints no marker for a missing final newline, so such a line runs into what follows:
  `WorkingCopy.LastLineIsLost`. `WorkingCopy.SurelyGivenBackIff` says for which working copies the
  diff can be applied whatever difflib prints.
- `write_back` checks neither owner nor lease. `QueueSafety.LateWriteBackContradictsPr` is a run in
  which a late worker leaves a recorded PR beside a result that proposes none. The single-writer facts
  are proved for the runs in which no worker outlives its lease; `LeaseExactness.SafeIffOnTime` shows
  that from any state with one that did, steps that take no time break each of them.
- The idempotency key joins its fields with `|`, so it identifies a failure exactly when no field
  holds one: `Dedup.KeyIdentifiesIffPipeFree`.
- The sandbox cache is keyed by the diff's text and not by the selected model, so what the gate
  guarantees is about the contents that were compiled, not about which model was selected.
  `GateModel.ProposedUncompiled` is a run that proposes a fix for a model that was never compiled, and
  `GateModel.ProposalCompiledJobModelIff` the exact condition under which the job's model was.
- `_to_openai` sends a tool's answer without its error flag, which the history holds.
- The TOML writer escapes backslashes and quotes only, so a value with another control character
  makes a file that cannot be read back: `CliConfig.ConfigRoundTrips`.

## Model

| member | source | states |
|---|---|---|
| JobTable.Jobs.ClaimOne | worker/sbflow_worker/claim.py:28-66 | takes the oldest claimable unlocked row, puts it to work under a lease of the given seconds from now, and keeps its age, result and PR; takes none exactly when there is none; changes no other row |
| JobTable.Jobs.WriteBack | worker/sbflow_worker/claim.py:46-72 | the row ends done with this result, whatever its state or owner; its lease, PR claim and link and every other row stay |
| JobTable.Jobs.ReconcileOrphans | brain/src/lib.rs:82-103 | a row is queued without a lease afterwards exactly if it was claimed or verifying without a running lease, and is otherwise as before; the count is that of the rows that changed |
| JobTable.Jobs.Receive | brain/src/webhook.rs:69-171 | answers with the key's owner and changes nothing, or inserts a row created now: queued if the failure is in scope, else done as out of scope; keys stay unique |
| JobTable.Jobs.CollapseDuplicates | brain/migrations/0003_dedup.sql:14-26 | leaves one row of each key, the one created first, with the least id among those; rows without a key and survivors are unchanged |
| JobTable.Jobs.FetchCandidates | brain/src/pr/mod.rs:96-122 | stamps the least recently updated candidates with the claim time, at most 20, and all of them when fewer; their work and links, and every other row, stay |
| JobTable.Jobs.ReleaseClaim | brain/src/pr/mod.rs:126-138 | a row without a link loses its claim, and can be fetched again at once exactly if it is a finished proposal; a row with one and every other row stay |
| JobTable.Jobs.RecordPr | brain/src/pr/mod.rs:186-207 | the link is written exactly when the row had none; a row that had one keeps both its link and branch; the job's work and every other row stay |
| JobTable.OneTable | brain/src/pr/mod.rs:126-207 | what the methods that claim, fetch, write back, requeue, release and record promise leaves one possible table each |
| JobTable.StepsAreStatements | worker/sbflow_worker/claim.py:28-72 | every step of the interleaved system changes the table just as the statement it stands for |
| QueueSystem.GoodStep | worker/sbflow_worker/claim.py:28-85 | every enabled step of any actor keeps rows, keys, workers and tickets well-formed |
| QueueSafety.GoodRuns | brain/src/pr/mod.rs:66-138 | so does every run |
| QueueSafety.RowsEvolve | worker/sbflow_worker/claim.py:28-52 | over any run no row disappears, `done` is absorbing, and a recorded link is never rewritten |
| QueueSafety.OutOfScopeUntouched | brain/src/webhook.rs:71-116 | over any run an out-of-scope row is never claimed, changed, written back or opened |
| QueueSafety.ClaimsBounded | worker/sbflow_worker/claim.py:28-66 | over any run a job is claimed at most once more than its lease lapsed |
| QueueSafety.NeverStranded | worker/sbflow_worker/claim.py:28-36 | after any run every unfinished row becomes claimable by waiting out its lease |
| QueueOrder.FirstComeFirstServed | worker/sbflow_worker/claim.py:28-36 | over any run no job is claimed before an earlier delivered one that could have been, deliveries of the same second aside |
| QueueOrder.ProposalNeverLost | brain/src/pr/mod.rs:85-122 | after any run, crashes included, an unlinked proposal can be fetched once its claim is 300 seconds old |
| QueueSafety.LinkWrittenOnce | brain/src/pr/mod.rs:186-200 | over any run, crashes included, a job's link is written at most once |
| QueueSafety.SameJobIffSameKey | brain/src/webhook.rs:90-170 | over any run two deliveries were given the same job exactly when their keys agree |
| QueueSafety.LateWriteBackContradictsPr | worker/sbflow_worker/claim.py:46-52 | a run in which a late write-back leaves a link beside a result that proposes no PR |
| LeaseProtocol.SingleWriterRuns | worker/sbflow_worker/claim.py:28-85 | while no worker outlives its lease, every run keeps the single-writer invariant |
| LeaseProtocol.OneHolder | worker/sbflow_worker/claim.py:38-66 | on such runs at most one live worker holds a job, under the row's own lease |
| LeaseProtocol.ResultWrittenOnce | worker/sbflow_worker/claim.py:46-72 | on such runs a result is written at most once, stays, and a link implies it proposes a PR |
| LeaseProtocol.OpensTheStoredDiff | brain/src/pr/mod.rs:140-184 | on such runs a poller opens the diff that is stored on the job at that moment |
| LeaseExactness.SafeIffOnTime | worker/sbflow_worker/claim.py:28-85 | one holder, one write, and links only beside proposals each survive everything that can happen before the clock moves exactly when no worker is past its lease |
| LeaseExactness.RunSafeIffPunctual | worker/sbflow_worker/claim.py:28-85 | a run is always in such a state exactly when no worker ever outlives its lease in it |
| PrOpener.NotReclaimable | brain/src/pr/mod.rs:67-122 | with turns of at most 15 s no row of a batch is claimable again before its turn ends |
| PrOpener.ExclusiveRuns | brain/src/pr/mod.rs:67-138 | with such turns every run keeps the batches disjoint and their stamps in place |
| PrOpener.OnePollerPerJob | brain/src/pr/mod.rs:67-138 | at most one poller is ever working on a job |
| PrOpener.OnePrPerJob | brain/src/pr/mod.rs:140-207 | barring crashes and failed records at most one PR is opened per job |
| PollerTurns.FailedOpenIsRetried | brain/src/pr/mod.rs:66-138 | a failed opening leaves the job to be fetched again at once |
| PollerTurns.LostRecordOpensTwice | brain/src/pr/mod.rs:140-200 | from any opened PR, a failed record and a release lead to a second one |
| Dedup.KeyIdentifiesIffPipeFree | brain/src/webhook.rs:222-231 | with an injective hash a failure shares its key with no other exactly when no field holds a pipe |
| Dedup.SameJobIffSameFailure | brain/src/webhook.rs:90-231 | over any run two pipe-free deliveries share a job exactly when their four fields agree |
| Dedup.MigrationKeepsTheOldest | brain/migrations/0003_dedup.sql:14-19 | of each key one row survives: none was created before it, and none with a smaller id at the same time |
| Dedup.MigrationEstablishesUniqueKeys | brain/migrations/0003_dedup.sql:14-26 | keys become unique, no key is lost, keyless rows and survivors are unchanged |
| WorkingCopy.WorkingFiles.Load | worker/sbflow_worker/agent/diffing.py:26-29 | the first load of a path wins |
| WorkingCopy.WorkingFiles.ApplyReplace | worker/sbflow_worker/agent/diffing.py:40-55 | replaces the one counted match, or changes nothing and says why |
| Diffing.ReplacedText | worker/sbflow_worker/agent/diffing.py:45-55 | an accepted edit replaces the first occurrence and nothing else |
| Diffing.CountIsGreatest | worker/sbflow_worker/agent/diffing.py:46-53 | the count is the greatest number of occurrences that do not overlap |
| Diffing.AcceptedIffOnceWithoutOverlap | worker/sbflow_worker/agent/diffing.py:46-53 | an edit is accepted exactly when no occurrence follows the first without overlapping it |
| Diffing.UnambiguousIffUnbordered | worker/sbflow_worker/agent/diffing.py:46-53 | counting once means occurring once, for every text, exactly when the string has no border |
| Diffing.ChangedLineCount | worker/sbflow_worker/agent/diffing.py:80-88 | the loop counts the diff's counted lines |
| Diffing.EmptyDiffIffUnchanged | worker/sbflow_worker/agent/diffing.py:57-67 | the diff is empty exactly when no file is changed |
| DiffSize.CountedLines | worker/sbflow_worker/agent/diffing.py:70-88 | on newline-terminated texts the guard counts the script's changed lines but for removed `--` and added `++` lines |
| DiffSize.CountIsExactIff | worker/sbflow_worker/agent/diffing.py:70-88 | on newline-terminated texts the guard's count of a file's diff falls short of its changed lines by the skipped ones, and is exact exactly when no removed line starts with `--` and no added one with `++` |
| DiffSize.SurelyCountedIff | worker/sbflow_worker/agent/diffing.py:70-88 | on such texts the count is exact whatever scripts difflib prints exactly when no old line starts with `--` and no new one with `++` |
| DiffRoundTrip.DiffRoundTrips | worker/sbflow_worker/agent/diffing.py:66-77 | for any scripts, parsing and applying the diff of newline-terminated texts gives the new lines of every file |
| WorkingCopy.FullDiffRoundTrips | worker/sbflow_worker/agent/diffing.py:57-77 | when changed files end in newlines, the working copy's diff, read and applied line by line, names every changed file and turns its original text into its current one |
| WorkingCopy.SurelyGivenBackIff | worker/sbflow_worker/agent/diffing.py:57-77 | whatever scripts difflib prints the diff gives back every changed file, exactly when each of them ends in a newline before and after |
| WorkingCopy.LastLineIsLost | worker/sbflow_worker/agent/diffing.py:70-77 | a copy whose diff is unusable under every script |
| DiffIdentity.DiffTextDeterminesContents | worker/sbflow_worker/agent/diffing.py:57-77 | over the same originals equal diff texts mean equal contents, newlines or not |
| ToolContext.AgentContext.EditFile | worker/sbflow_worker/agent/tools.py:123-142 | loads, applies, guards and reverts as the specification says, on the shared context |
| ToolContext.AgentContext.VerifyCurrent | worker/sbflow_worker/agent/tools.py:164-169 | runs the sandbox on the current copy and caches the run with that copy's diff |
| ToolContext.AgentContext.RunSandbox | worker/sbflow_worker/agent/tools.py:144-162 | refuses without sandbox, edit or model, else verifies the chosen model |
| ToolContext.AgentContext.Dispatch | worker/sbflow_worker/agent/tools.py:172-191 | every call ends in a reply: missing arguments and raised errors included |
| ToolReplies.LacksAnswer | worker/sbflow_worker/agent/tools.py:172-191 | a call that lacks an argument does nothing and is told the first it lacks |
| ToolReplies.ReadAnswer | worker/sbflow_worker/agent/tools.py:109-115 | a readable file is shown as it is in the checkout, and loaded unless it was before |
| ToolReplies.SchemaAnswer | worker/sbflow_worker/agent/tools.py:117-121 | the source's columns as the warehouse gives them, or why not; nothing changes |
| ToolReplies.SandboxAnswer | worker/sbflow_worker/agent/tools.py:144-169 | one run, on the changed files as they are and the model the call names or else the job's, cached with its diff if it answers; or the first reason there is none |
| GuardRules.GuardAnswers | worker/sbflow_worker/agent/diffguard.py:21-56 | every answer of the guard and exactly when it is given, on the two texts: scope, then change, size, and blanks only |
| GuardRules.BlankEditIsRefused | worker/sbflow_worker/agent/diffguard.py:43-56 | replacing a text by one that differs in blanks only, in a file not edited yet, is refused and changes nothing |
| Text.OnlySpaceGoes | worker/sbflow_worker/agent/diffguard.py:53-56 | what is compared has no white space left, and any blank stretch counts for nothing |
| Text.SameInkIff | worker/sbflow_worker/agent/diffguard.py:43-56 | it is equal exactly when the texts agree with blanks skipped on either side |
| EditSafety.EditIsAtomic | worker/sbflow_worker/agent/tools.py:133-142 | an edit is refused and leaves everything as it was, or replaces one text that the guard passes; and when each |
| EditSafety.CallsKeep | worker/sbflow_worker/agent/tools.py:110-169 | over any call sequence originals stay, changed files stay changed, every edit is guarded, and the cache is sound |
| EditSafety.ErrorsChangeNothing | worker/sbflow_worker/agent/tools.py:172-191 | a call that ends in an error changes no draft and leaves the cache alone |
| EditSafety.EveryEditPassed | worker/sbflow_worker/agent/tools.py:123-142 | after any call sequence each file is as it was read, or in scope, differs in more than blanks, and changes at most the limit's script lines besides those the count skips |
| EditSafety.DeletedCommentsPass | worker/sbflow_worker/agent/diffguard.py:21-50 | an edit that deletes any number of SQL comment lines passes the guard under every limit |
| EditSafety.SameDiffSameContents | worker/sbflow_worker/agent/tools.py:164-169 | an earlier copy with the same diff text has the same changed files with the same contents |
| EditSafety.CacheHitIsExact | worker/sbflow_worker/agent/loop.py:240-241 | a cached run that the gate reuses was made on exactly the contents at hand |
| Scoring.ComputeScore | worker/sbflow_worker/agent/score.py:96-162 | the accumulating rubric computes the score, and its confidence is the rounded sum of its factors |
| Scoring.WorthInNumbers | worker/sbflow_worker/agent/score.py:84-156 | what each signal and each further attempt is worth, in thousandths |
| Scoring.ConfidenceIsNearest | worker/sbflow_worker/agent/score.py:157-157 | confidence is that sum to the nearest hundredth, within 0 and 1 |
| Scoring.RiskIff | worker/sbflow_worker/agent/score.py:165-194 | low takes everything in order and one attempt; any red flag makes high |
| Scoring.ScoreIsMonotone | worker/sbflow_worker/agent/score.py:96-194 | worsening any signals never raises confidence, keeps it in range, and never lowers risk |
| Scoring.NeverATie | worker/sbflow_worker/agent/score.py:96-162 | the exact value is never half-way between two hundredths |
| Scoring.LowRiskConfidence | worker/sbflow_worker/agent/score.py:165-194 | low risk means 0.85, or 1.00 after a passed fork-replay; 1.00 means low risk |
| SqlColumns.SplitTopLevelParts | worker/sbflow_worker/sandbox/evidence.py:184-200 | the loop computes the specified split |
| SqlColumns.SplitInvertsJoin | worker/sbflow_worker/sandbox/evidence.py:184-200 | splitting undoes comma-joining of balanced parts without a top-level comma, but for a blank one at the end, which it drops |
| SqlColumns.CallIsOnePart | worker/sbflow_worker/sandbox/evidence.py:184-200 | commas between parentheses do not split |
| SqlColumns.FinalColumns | worker/sbflow_worker/sandbox/evidence.py:156-181 | the columns found, or none, as specified |
| SqlLists.ColumnName | worker/sbflow_worker/sandbox/evidence.py:203-213 | bare, dotted, aliased and quoted columns go by their names, whatever blanks stand around them |
| SqlLists.Unnamed | worker/sbflow_worker/sandbox/evidence.py:203-213 | a star, or an unaliased expression that ends in no name, hides the columns |
| SqlLists.ListReplaced | worker/sbflow_worker/sandbox/evidence.py:166-175 | a list without keywords, written in the final list's place, is found there again |
| SqlLists.WrittenPartsRead | worker/sbflow_worker/sandbox/evidence.py:156-181 | parts written in its place are read back in order |
| SchemaDelta.AliasKeepsColumns | worker/sbflow_worker/sandbox/evidence.py:156-213 | rewriting a bare column `c` to `d as c`, in any letter case, keeps the final SELECT's columns |
| SchemaDelta.AliasReportsNoChange | worker/sbflow_worker/sandbox/evidence.py:123-148 | so the output-schema check of that edit answers unchanged |
| SchemaDelta.ReportedIff | worker/sbflow_worker/sandbox/evidence.py:123-148 | however an edit rewrites the list, it goes unreported exactly when the same columns stand in the same places |
| SchemaDelta.RewrittenColumnIff | worker/sbflow_worker/sandbox/evidence.py:123-213 | putting one column in another's place, in any of their shapes, is reported exactly when its name differs |
| SchemaDelta.RenameIsReported | worker/sbflow_worker/sandbox/evidence.py:123-148 | renaming a bare column is reported, by another column or by an alias |
| SchemaDelta.CountChangeIsReported | worker/sbflow_worker/sandbox/evidence.py:123-148 | so is dropping or adding columns |
| SchemaDelta.ExchangeIsReported | worker/sbflow_worker/sandbox/evidence.py:123-148 | and exchanging two |
| RepairLoop.Repair.CallTools | worker/sbflow_worker/agent/loop.py:116-138 | a turn's calls run in order and their results enter the history together |
| RepairLoop.Repair.DraftTurns | worker/sbflow_worker/agent/loop.py:96-138 | the turn loop, bounded by `max_turns`, as the specification says |
| RepairLoop.Repair.VerifyAndGate | worker/sbflow_worker/agent/loop.py:228-289 | one sandbox run and the gate's verdict on it |
| RepairLoop.Repair.Run | worker/sbflow_worker/agent/loop.py:80-184 | the whole loop ends in the specified state and result |
| RepairSafety.HistoryIsWellFormed | worker/sbflow_worker/agent/loop.py:88-138 | the provider is only ever asked with a history in which each turn's calls are answered, same ids, same order |
| RepairSafety.ProposalCompiled | worker/sbflow_worker/agent/loop.py:169-289 | with a sandbox, a proposed fix ships the copy's whole diff, and the last sandbox run that answered passed tier-1 on exactly its contents, cached or not |
| GateModel.GateCompilesJobModelIff | worker/sbflow_worker/agent/loop.py:228-289 | the run behind a proposal selected the job's model exactly when the gate found no cached run of this diff, or the last run that answered had selected it |
| GateModel.ProposalCompiledJobModelIff | worker/sbflow_worker/agent/loop.py:169-289 | the same over whole runs, on the state in which drafting ends |
| GateModel.FaithfulAgentCompilesJobModel | worker/sbflow_worker/agent/tools.py:144-169 | an agent that asks for no other model gets no proposal whose own model was not compiled |
| GateModel.ProposedUncompiled | worker/sbflow_worker/agent/loop.py:240-241 | a run that proposes a fix for `orders` while its only sandbox run compiled another model |
| RepairSafety.ProposalIsGuarded | worker/sbflow_worker/agent/diffguard.py:21-50 | every file a run ends up changing is in scope, differs in more than blanks, and is within the limit in script lines but for those the count skips |
| RepairSafety.TranscriptIsFaithful | worker/sbflow_worker/agent/loop.py:96-138 | over any run the transcript names exactly the tool calls made, in order, and the edit counter is their number of edits |
| RepairSafety.LowRiskProposalIff | worker/sbflow_worker/agent/loop.py:96-289 | a run's proposal is low-risk exactly when it compiled, its sample run passed, its columns are unchanged, one file and 15 counted lines at most changed, and the run called `edit_file` at most once |
| RepairSafety.ProdActionWins | worker/sbflow_worker/agent/loop.py:140-225 | a run ends in the drift rule's advice and no fix exactly when the rule, asked with the failing model's text and its source's columns of today, gives one |
| RepairOutcome.RunIsExplained | worker/sbflow_worker/agent/loop.py:140-184 | which outcome a run has, with which diff, evidence and words: the last the agent said, or the stock phrase |
| RepairOutcome.RunIsScored | worker/sbflow_worker/agent/loop.py:228-289 | every score shown is the rubric's in numbers, for the evidence shown, the diff drafted and the edits tried; high risk is a red flag among them |
| RepairOutcome.GateComparesFirstChanged | worker/sbflow_worker/agent/loop.py:238-246 | the columns compared are those of the first changed file in loading order |
| RepairStory.ConversationIsTheDialogue | worker/sbflow_worker/agent/loop.py:88-138 | each assistant message tells just what the provider answered to all before it, and every history it was asked with begins the one conversation |
| RepairStory.TranscriptReplays | worker/sbflow_worker/agent/loop.py:96-138 | making the transcript's calls from the start leaves the run's working copy and gets the replies it shows |
| OpenAiHistory.ToOpenAi | worker/sbflow_worker/llm/openai_compat.py:95-140 | one pass over the blocks computes the translation |
| OpenAiHistory.TranslationIsWellFormed | worker/sbflow_worker/llm/openai_compat.py:95-140 | each assistant message is followed at once by its calls' tool messages; no text, call, id, answer or order is lost, only the error flags |
| OpenAiHistory.TurnIsSaid | worker/sbflow_worker/llm/openai_compat.py:95-125 | a turn's message becomes one assistant message with the turn's text and calls |
| OpenAiHistory.EveryChatIsAccepted | worker/sbflow_worker/llm/openai_compat.py:34-40 | so it is for every history the loop has a provider complete |
| RunJournal.ForkRecords | worker/sbflow_worker/agent/satay_loop.py:704-721 | a fork finds exactly the results recorded up to and including the fork point |
| RunJournal.Locate | worker/sbflow_worker/agent/satay_loop.py:724-805 | finds the last successful `get_schema` call before any edit, with its completion event, or none exactly when there is none |
| SatayRun.CandidateRun.Run | worker/sbflow_worker/agent/satay_loop.py:442-575 | the candidate's loops end where the step machine ends, on a new or a forked journal |
| SatayRun.CandidateRun.ApplyOverrideAndVerify | worker/sbflow_worker/agent/satay_loop.py:645-700 | the fork's tail: substituted texts, then at most one verification and the gate |
| SatayPort.PortRefines | worker/sbflow_worker/agent/satay_loop.py:442-639 | a new durable run makes the plain loop's calls, in order and on the same arguments, with the same context and result, or raises when it does |
| ForkReplay.ForkStaysInRecording | worker/sbflow_worker/agent/satay_loop.py:906-969 | a fork into any context calls neither provider nor tool, stops right after the located call, and verifies the substituted fix at most once |
| ForkReplay.ForkReachesTheCut | worker/sbflow_worker/agent/satay_loop.py:489-547 | the state in which a fork leaves the recording: nothing called, nothing edited, context untouched |
| ForkReplay.SubstitutedHolds | worker/sbflow_worker/agent/satay_loop.py:670-673 | the copy that is verified holds every substituted text |
| ForkReplay.Tier3VerdictIsEarned | worker/sbflow_worker/agent/satay_loop.py:885-903 | the tier-3 verdict is the compile result on the substituted copy, undetermined exactly without change or sandbox, scored as a first attempt |
| FanOut.SchemasDiffer | worker/sbflow_worker/agent/satay_loop.py:1156-1191 | no two candidates share a key or a warehouse schema |
| FanOut.ClonesAreSeparate | worker/sbflow_worker/agent/satay_loop.py:1156-1191 | so a fan-out's clones do not: each has its own provider and a sandbox on its own schema, and all else is shared |
| FanOut.ScheduleIndependent | worker/sbflow_worker/agent/satay_loop.py:1014-1070 | with distinct keys and schemas, under any interleaving of steps that reach their context through the shared dictionary, a finished candidate has the copy, cache, journal and result of its solo run |
| FanOut.SharedKeyLeaksDraft | worker/sbflow_worker/agent/satay_loop.py:1014-1070 | under one key for two candidates the order of their steps decides whether one that edited nothing gives up or proposes the other's draft |
| FanOut.ScheduleCompletes | worker/sbflow_worker/agent/satay_loop.py:1034-1070 | every schedule extends to one in which all candidates are over |
| FanOut.SharedSchemaClashes | worker/sbflow_worker/agent/satay_loop.py:1156-1191 | with one schema for two candidates a schedule exists in which a candidate that is low-risk alone ends high-risk |
| FanOut.OutcomesIndependent | worker/sbflow_worker/agent/satay_loop.py:1034-1070 | any two complete schedules give the judge the same outcomes |
| Judge.FirstBest | worker/sbflow_worker/agent/satay_loop.py:1122-1138 | the first of a class's results that none of its class outscores; a score beats none |
| Judge.JudgePicksTheBest | worker/sbflow_worker/agent/satay_loop.py:1079-1153 | the verdict is a candidate's own result under its own key, none ranks above it, and it is synthesized only when all raised |
| Judge.WinnerIsMostConfident | worker/sbflow_worker/agent/satay_loop.py:1073-1138 | no result with the winner's outcome has a higher confidence and no earlier one an equal one; the winner lacks a score only if all of them do |
| Judge.ProposesIffSomeDid | worker/sbflow_worker/agent/satay_loop.py:1122-1125 | a PR is proposed exactly when some candidate proposed one |
| Judge.ProdActionIsUnanimous | worker/sbflow_worker/agent/satay_loop.py:1127-1130 | if one settled candidate recommends a production action, all do and so does the verdict |
| Judge.OutcomeIsPlainRuns | worker/sbflow_worker/agent/satay_loop.py:1014-1070 | what the judge is given for a candidate is the plain loop's result on that candidate's own clone |
| Judge.VerdictIndependent | worker/sbflow_worker/agent/satay_loop.py:1034-1070 | the verdict of a fan-out does not depend on the schedule |
| Judge.VerdictIsCosted | worker/sbflow_worker/agent/satay_loop.py:1324-1353 | the winner's key leads to the winner's run, and the transcript built on it costs every candidate of the fan-out once |
| UsageReport.ResolveChildRunId | worker/sbflow_worker/agent/satay_loop.py:1272-1298 | the first child started under the key, or the parent when there is none |
| UsageReport.AllChildRunIds | worker/sbflow_worker/agent/satay_loop.py:1301-1321 | every child's run id in recorded order |
| UsageReport.WinnerIsCosted | worker/sbflow_worker/agent/satay_loop.py:1324-1353 | the winner's key leads to its own run, which is among the ones costed |
| UsageReport.AggregateUsage | brain/src/pr/journal.rs:201-253 | the nested loops compute the totals, the entry count and the models in first-seen order |
| UsageReport.EveryCandidateOnce | brain/src/pr/journal.rs:201-253 | in whatever order children were recorded, each candidate's usage is counted exactly once |
| UsageReport.TranscriptCostsTheJob | brain/src/pr/journal.rs:158-181 | the transcript of a fan-out costs the whole job, the winner included |
| JournalDecode.RanksDoNotMatter | brain/src/pr/journal.rs:452-482 | what is read does not depend on the ranking that shows the reading ends |
| JournalEncode.DecodeInvertsEncode | brain/src/pr/journal.rs:452-482 | plain data, times, enum members and typed instances are read back from their tagged forms, at any depth |
| JournalEncode.RecordReads | brain/src/pr/journal.rs:463-471 | a record is read field by field, its type under `$type` unless a field is named so |
| JournalEncode.SpilledIsReadBack | brain/src/pr/journal.rs:452-516 | and so they are with any parts spilled to blobs |
| JournalEncode.UnreadableBlobShows | brain/src/pr/journal.rs:484-516 | a blob that cannot be read shows as a note with its size, its id and the reason |
| JournalDecode.SpillingIsInvisible | brain/src/pr/journal.rs:452-516 | replacing values at decoded positions, at any depth, by references to blobs that hold them changes nothing read |
| JournalDecode.RawPayloadShows | brain/src/pr/journal.rs:457-458 | inside a datetime a reference is not followed |
| CliConfig.TwoPassIsEscape | worker/sbflow_worker/cli/config.py:114-116 | the two replacement passes are one escape per character |
| CliConfig.ScanInvertsEscape | worker/sbflow_worker/cli/config.py:114-116 | reading a basic string undoes the escape exactly when the value has no control character but tab |
| CliConfig.ToToml | worker/sbflow_worker/cli/config.py:111-159 | writes the document of the settings |
| CliConfig.Load | worker/sbflow_worker/cli/config.py:85-109 | the file's settings, or none for ill-formed TOML, then the environment's |
| CliConfig.ConfigRoundTrips | worker/sbflow_worker/cli/config.py:85-159 | a written file is readable exactly when every setting is clean, then gives back every setting; a secret's key is present exactly when it is set |
| CliFiles.SettingsRead | worker/sbflow_worker/cli/config.py:85-103 | a file of settings in any order is readable exactly when no key comes twice and every value is clean; each setting is then the file's or the default |
| CliFiles.SpacingIsFree | worker/sbflow_worker/cli/config.py:85-92 | a setting's line may be spaced with blanks and tabs and end in a comment |

## Left out

- Docker, dbt, git, HTTP, Postgres and SQLite connections, LISTEN/NOTIFY, file permissions: input and output.
- Authentication, webhook signatures and path checks.
- difflib's choice among edit scripts, and its grouping of hunks beyond what any printed diff has.
- The satay engine beyond recorded calls, hits and prefix copies: no retries, no resuming of a crashed run, no attempt or lifecycle events other than scheduled, completed and failed.
- ForkReplay.ForkStaysInRecording: does not cover forking a run that is itself a fork, because a transcript names only runs on their own new journals.
- The two loops share one definition of evidence, gate and conclusion here; in the code each has a copy with the same text.
- `_detect_prod_action` reads a fixed checkout and fixed upstream columns, and its keyword and regular-expression rule is any function of them.
- Jinja and comment stripping is any function of the text; letter case is folded for ASCII letters only.
- The text of tool replies: a reply carries its data, not its formatting. The transcript is a list of such lines, unclipped.
- Tool arguments that are not strings, and message contents given as one string.
- JournalEncode.DecodeInvertsEncode: requires that no entry under the key `$satay` is itself one of the codec's tag names; the codec that writes the journal is not part of this model.
- RepairSafety.ProposalCompiled: requires a checkout without line boundaries in file names, because a diff header cannot hold one.
- FanOut.ScheduleIndependent: a step without a sandbox run is atomic: it reads its key's context from the dictionary and writes it back; a sandbox run is disturbed when another begins on its relation before it ends, and then answers arbitrarily.
- Usage totals are unbounded integers; the code adds 64-bit ones.
- JSON numbers are integers; objects are unordered.
- TOML values other than basic strings, dotted and quoted keys, CRLF line ends; the wording of the written comments, which may be any text without control characters.
- The webhook's normalization of payloads, the classifier, the rendering of PR bodies and the dashboard: out of scope.
- SHA-256 is any injective function, UUIDs are fresh.
- JobTable.Jobs.Receive: the acknowledgement's state and class fields are not modelled, because they are read back from the row it names.
- Judge.JudgePicksTheBest: the message of the synthesized `no_fix` is a constant, because it only quotes the first failure.
