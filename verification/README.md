# Verification of the durable agent runtime

The runtime executes language-model agents on several workers that share one PostgreSQL database. Every request is a
durable command; every change of a session is one commit, fenced by expiring leases; every external action is recorded
before it is dispatched and its outcome after; histories are compacted under a budget; and identities are digests of
canonical JSON. This project models that behaviour, as the Rust port implements it, and proves what it is meant to keep.

| files | what they model |
|---|---|
| `Ledger`, `LedgerRuns`, `LedgerInvariants`, `LedgerTheorems`, `Leases`, `Store` | database rows and transactions, workers racing over them, the commit chain, exactly-once commands, claims and leases; `Store` is the same database as an object updated in place |
| `Actions`, `ActionRuns`, `ActionTheorems`, `Dispatcher` | logical actions, attempts, the deduplicating recipient, recovery; `Dispatcher` is `dispatch` step by step beside arbitrary other workers |
| `Layers` | a save of the database seen as the commit of a staged tool batch |
| `History`, `Compaction`, `Compactor` | grouping of histories, summaries and what they replace, the compaction loop with its budget |
| `Workflow` | evidence, transitions, deliverables and the run loop |
| `Canonical`, `CanonicalText`, `CanonicalJson`, `CanonicalForm`, `Evidence` | JSON values, RFC 8785 text and what it is as JSON, evidence matching |
| `Text`, `TextLines`, `Decimal`, `Numerals` | text scanning, decimal numerals and their normal forms in the Rust and Go ports |
| `XmlText`, `LedgerXml`, `LedgerGrammar`, `LedgerFixpoint` | the XML form of compaction ledgers: its grammar, its parser, printing and reading back |
| `Tables` | Markdown deliverables |
| `Diagnostics`, `Journal` | the diagnostic journal, its table, pruning and loading |
| `CivilDate` | the calendar computation behind timestamps |

Assumptions, made once: a database transaction is one atomic step, refused as a whole or done as a whole; the database
clock only moves forward, by any amount, also inside a transaction; freshly drawn UUIDs are new; SHA-256 is injective, so
a digest is modelled as what it is taken of; model replies, tool outputs and the network are arbitrary.

Where the repository's own words and its code differ, the code is followed:

- A comment in `compact` (agent-rust/src/engine.rs:2351-2354) says that after a refused summary a later pass summarises a
  smaller prefix. The groups dropped there are local to the pass. The next pass selects the same source again and stops at
  the unchanged-source check; `Compactor.Session.Pass` states that a pass whose source was just refused posts nothing.
- `decimal_equal` is equality of rationals only while the powers fit 64 bits; `Numerals.OverflowIsUnequal` gives a
  numeral beyond that which is unequal to itself, and `Numerals.DecimalEqualDecides` is the exact condition.
- `decimal_canonical` casts the length of the fraction to 32 bits; `Numerals.LongFractionIsMisread` gives a text that it
  turns into another number, and `Numerals.CanonicalKeepsValue` is the exact condition.
- A ledger's text is a fixpoint of validation exactly when the goal consists of XML characters
  (`LedgerFixpoint.LedgerFixpoint`). A goal may also be a control character, U+0001 for one; it is accepted, and the text
  that validation returns for it is refused by validation (`LedgerFixpoint.ControlGoalIsRefused`).

## Model

| member | source | states |
|---|---|---|
| LedgerTheorems.CommitChain | scripts/persistence_ledger.py:38-67 | in every reachable state the receipts of a session are exactly (n-1, n) for n = 1..revision with distinct commit ids; snapshot, context and last-commit anchor agree with the newest; the transcript is numbered 1..m under distinct identities and is what the commits archived, in order |
| LedgerTheorems.ExactlyOnce | agent-rust/src/commands.rs:205-309 | over every interleaving of duplicates, lease expiry, re-claims, crashes and lost acknowledgements a create, message or cancel command has at most one committed effect, and has one exactly when its stored response is a 2xx |
| LedgerTheorems.AnsweredForever | agent-rust/src/commands.rs:300-309 | once a command of any kind has a response, its row never changes again |
| LedgerTheorems.ReplayForever | agent-rust/src/commands.rs:205-230 | once a command is answered, and whatever happens afterwards, a request under its key changes no row; the same request gets the stored response, another one is refused |
| LedgerTheorems.NoServerErrorIsStored | agent-rust/src/commands.rs:259-275 | the stored answer of a client's command, and so whatever is replayed, is never a server error |
| LedgerTheorems.ReplyIsStored | agent-rust/src/commands.rs:259-275 | any other reply of the worker that still holds the claim is stored with the status it has; otherwise the command is left uncertain |
| LeaseTheorems.CommandLifecycle | agent-rust/src/commands.rs:231-275 | in every step of every run a command row begins, stays, is claimed (unanswered, pending or started, its lease absent or expired; under the next fence for 30 seconds), is extended while live, is answered while live, or is given up; and while its claim is live only the worker holding it moves it |
| LeaseTheorems.LiveClaimIsUntouched | agent-rust/src/commands.rs:231-240 | until a claim's lease runs out, nothing that anybody else does, in any order, changes the row |
| LeaseTheorems.LeaseLifecycle | agent-rust/src/main.rs:65-91 | in every step of every run a session's lease stays, is granted over none or an expired one under the next fence, is renewed while live or is released; a live one is changed only by its holder |
| LeaseTheorems.OneHolder | agent-rust/src/main.rs:65-91 | a command row never names the claim of two workers, nor a session the lease of two |
| LedgerTheorems.NoStaleCommit | agent-rust/src/main.rs:65-91 | after a session's fence has reached f, no commit carries a smaller fence |
| LedgerTheorems.CommittedIsImmutable | scripts/persistence_ledger.py:118-128 | receipts, transcript and committed events only ever grow at the end |
| LedgerTheorems.RetryNeverWrites | agent-rust/src/main.rs:1717-1739 | once a commit id has a receipt, nothing proposed under it ever writes again, however much later |
| LedgerTheorems.CommitLandsIff | agent-rust/src/main.rs:1741-1831 | a save lands exactly when no receipt has its commit id, the started row records its claim, live at the end of the transaction, the session row records its lease, live then too, and no other commit moved the revision; the gap and identity checks never refuse a reachable proposal |
| LedgerTheorems.AcknowledgedIsPermanent | agent-rust/src/engine.rs:201-222 | records a worker was told are saved stand in the transcript at the provisional numbers it gave them, for ever, even when the first acknowledgement was lost |
| LedgerTheorems.AcknowledgedIsLevel | agent-rust/src/engine.rs:201-222 | a worker told that its save is committed goes on level with the session and with nothing staged, or replies with the status of the event that ended its work, or, if others committed since, without success |
| LedgerTheorems.RunKeeps | scripts/persistence_ledger.py:38-67 | every run of requests, saves, lease changes, crashes and clock ticks keeps the commit chain, the agreement of command status and response, and the transcript numbering, and only grows the committed rows |
| LedgerInvariants.CommitKeeps | agent-rust/src/main.rs:1691-2074 | one save transaction, landed or refused, keeps the invariant |
| LedgerInvariants.CommitAnswers | agent-rust/src/main.rs:2029-2065 | a commit writes its receipt, event, run row and command row exactly as the event says (the snapshot with 201 or 200, a block, or nothing), touches no other command except an unheld origin of an interrupted run, and continues the transcript numbering; a commit found again changes nothing |
| LedgerInvariants.WrittenRows | agent-rust/src/main.rs:1843-1884 | staged records are refused exactly if one differs from the record stored under its identity; otherwise stored records stay, all staged ones are stored, and new ones are numbered on |
| LedgerInvariants.CancelKeeps | agent-rust/src/main.rs:3428-3447 | a cancellation is committed together with its command's response and keeps the invariant |
| Store.Store.Admit | agent-rust/src/commands.rs:205-240 | a new key with its routed session present is inserted and claimed under fence 1; a known key is claimed, under the next fence and for 30 seconds, exactly if the request is the same, unanswered, pending or started and its lease absent or expired; a live claim, an answer or another request changes nothing and is reported as such |
| Store.Store.Acquire | agent-rust/src/main.rs:65-72 | a lease is granted exactly where the row records none or an expired one, for 30 seconds and under the next fence |
| Store.Store.Renew | agent-rust/src/main.rs:73-87 | a lease is renewed exactly by its live owner and fence |
| Store.Store.Release | agent-rust/src/main.rs:88-91 | only the owner's own lease is given up |
| Store.Store.WriteTranscript | agent-rust/src/main.rs:1843-1884 | the transcript loop skips stored identities, refuses changed ones and numbers new ones on from the maximum |
| Store.Store.Commit | agent-rust/src/main.rs:1691-2065 | the whole save transaction in place equals the transaction of the theorems, including every refusal leaving all rows as they were |
| Store.BrokenIsRefused | agent-rust/src/main.rs:1833-1842 | nothing is written to a session whose transcript has a gap or whose counter is off, however it came about |
| Store.Store.CancelRun | agent-rust/src/main.rs:3378-3457 | a cancellation is done exactly if the session exists and the claim is live; it flags the run if it is a running run of this session, no other, and the answer says so |
| Store.Store.Save | agent-rust/src/main.rs:1643-1689 | at most three attempts under one commit id while the transport fails |
| Store.SaveAtMostOnce | agent-rust/src/main.rs:1643-1689 | one save advances the revision at most once however many acknowledgements are lost, and reports success only for a committed proposal |
| ActionTheorems.AtMostOneEffect | agent-rust/src/actions.rs:293-313 | the recipient holds at most one row for an action's key, with the action's frozen payload |
| ActionTheorems.SettledIsTheRecipientsResult | agent-rust/src/actions.rs:155-201 | an action settled by dispatch or by verification has succeeded and stores the canonical form of the recipient's row |
| ActionTheorems.AttemptLedger | scripts/persistence_ledger.py:104-108 | attempts are numbered 1..k, dispatch attempts equal the counter and stay within the bound, at most one attempt is running and only the newest, and an action has a result exactly when it is terminal, namely the evidence of its newest attempt, as a failure exactly for a reported error |
| ActionTheorems.SettledForever | agent-rust/src/main.rs:2252-2336 | settled attempts, terminal results and recipient rows never change |
| ActionTheorems.CallsWithinBound | agent-rust/src/actions.rs:128-234 | the external calls ever made for an action never exceed its frozen bound; an action to be reconciled is called at most once in its life, and one that relies on a recipient other than the fixture is never called |
| ActionTheorems.AnyBatchGrows | agent-rust/src/main.rs:2231-2340 | whatever a batch asks for, the checks never let it change what is frozen, settled or terminal, lower a counter, exceed the bound or give one number twice |
| ActionTheorems.NeverRefused | agent-rust/src/main.rs:2231-2340 | a worker level with the session is never refused by the action checks, and the recipient never sees two payloads under one key |
| ActionTheorems.RunKeeps | agent-rust/src/actions.rs:55-291 | every run with crashes, takeovers, stale workers and lost answers keeps the action invariants |
| Dispatcher.Tables.WriteToolExecutions | agent-rust/src/main.rs:2231-2340 | the aggregate, then every pending attempt; any refusal rolls back |
| Dispatcher.Tables.Receive | agent-rust/src/actions.rs:293-313 | the recipient inserts once, reads back and refuses another payload |
| Dispatcher.Dispatcher.Checkpoint | agent-rust/src/actions.rs:36-54 | a checkpoint that succeeds committed exactly the staged batch; one that fails leaves it staged |
| Dispatcher.Dispatcher.Dispatch | agent-rust/src/actions.rs:55-291 | from the intent of a new call on, whatever other workers do between its steps, dispatch returns a result only if it is the committed result of the action with this payload; left alone, a level worker returns one exactly when the payload is the frozen one and the result is recorded, or the recipient has it, or a dispatch is still allowed; it calls out once in that last case and never else, and leaves an action that must not be repeated blocked |
| Layers.SaveIsLand | agent-rust/src/main.rs:1643-1689 | a save of a staged tool batch commits in the database exactly when the batch lands in the tool tables, whole; a worker told of success is level with the session again |
| Layers.StaysJoined | agent-rust/src/main.rs:1691-2065 | over any mixture of saves with lost acknowledgements, other workers' steps and other changes, the session's revision and the tool tables' revision agree and the tool side is a run of the action protocol |
| History.ReadingIsUnique | agent-rust/src/context.rs:83-164 | a history can be read as plain messages and complete batches in at most one way |
| History.CheckBatch | agent-rust/src/context.rs:102-151 | the batch checks accept exactly an assistant message with calls followed by one result for each |
| History.InteractionGroups | agent-rust/src/context.rs:83-164 | grouping succeeds exactly when a reading exists, returns it with the positions of its messages, and otherwise reports where it breaks off |
| History.SplitHistory | agent-rust/src/context.rs:169-182 | the tail is the shortest run of whole groups with at least the wanted number of messages, and nothing is lost |
| History.SingleCallWire | agent-rust/src/engine.rs:471-537 | accepts exactly the histories that can be grouped and rewrites each call by call |
| History.WireIsIdempotent | agent-rust/src/engine.rs:471-537 | the rewritten history is a history of single-call batches, and rewriting it again changes nothing |
| History.WireKeepsCallsAndResults | agent-rust/src/engine.rs:471-537 | for every readable history, no call is lost, added or reordered, and exactly the same results are kept |
| History.WireKeepsTexts | agent-rust/src/engine.rs:471-537 | the assistant's text is kept once for each batch, and every other text as it is |
| Compaction.ValidateSummary | agent-rust/src/main.rs:2424-2541 | the server accepts a summary exactly when its sources are archived messages in order, its retained messages exist, its predecessor exists and its fingerprint is that of what they say |
| Compaction.CheckSources | agent-rust/src/main.rs:2430-2473 | source identities are checked for duplicates, presence and order, and resolved to the archived messages |
| Compaction.CheckRetained | agent-rust/src/main.rs:2474-2502 | retained identities are distinct and archived |
| Compaction.PassesIff | agent-rust/src/main.rs:2424-2541 | a summary passes the re-check exactly if its sources stand in the archive in order, its fingerprint is of this goal, of what they say and of the summary it continues, and what it kept is archived, once each |
| Compaction.FitsIsInWindow | agent-rust/src/context.rs:55-82 | a request fits exactly if its bytes, 32 for each message and the margin, with the configured reserve as well as with its own cap, stay within the window |
| Compaction.ProducedSummaryPasses | agent-rust/src/main.rs:2424-2541 | every summary compaction ever produced passes the server's re-check, then and later |
| Compaction.NoGroupIsSplit | agent-rust/src/engine.rs:2084-2142 | the groups of everything ever appended are dealt out whole to the summaries, in order, and to the memory that is kept |
| Compactor.AppendKeeps | agent-rust/src/engine.rs:242-264 | appending keeps: goal, then all summarised sources in order, then the tail, is everything ever appended |
| Compactor.AcceptKeeps | agent-rust/src/engine.rs:2253-2306 | replacing whole groups by their summary keeps it too, and links the summary to the one before |
| Compactor.SelectPrefix | agent-rust/src/engine.rs:2118-2142 | the source is the longest run of whole old groups whose summary request fits; what is dropped joins the tail in order |
| Compactor.Session.AppendMessage | agent-rust/src/engine.rs:242-264 | a message enters memory and transcript under one new identity |
| Compactor.Session.RequestBudget | agent-rust/src/engine.rs:1162-1167 | a request is measured exactly when the history can be grouped |
| Compactor.Session.MakePlan | agent-rust/src/engine.rs:2043-2191 | a summary is planned exactly when some whole old groups are affordable, were not just refused, and either the request does not fit or folding is due, spaced and worthwhile outside a completed workflow; the plan is over the longest affordable run of groups and keeps the configured raw messages |
| Compactor.Session.Attempt | agent-rust/src/engine.rs:2217-2262 | one posted request; its answer is taken exactly if it is whole, validated and lowers the estimate by what is required |
| Compactor.Session.TrySummaries | agent-rust/src/engine.rs:2211-2330 | every posted request is within the window, at most up to the configured attempts; refused proposals leave memory, summary and ledger as they were |
| Compactor.Session.Pass | agent-rust/src/engine.rs:2043-2358 | a pass changes nothing or folds one prefix at a gain; it posts only for a plan that may be made, never a source just refused; another pass follows exactly while the request does not fit, or, after a refusal, while attempts and a smaller source are left |
| Compactor.Session.Compact | agent-rust/src/engine.rs:2039-2366 | success means that the decision request is within the window, refusal for the budget that it is not; every posted request is within it and they stay within the attempt limit; each accepted summary lowers the estimate; the kept memory is a suffix with at least the configured raw messages |
| Compactor.Session.Decide | agent-rust/src/engine.rs:717-763 | a decision request is posted only when it is within the window, with the configured reserve as well as its own cap, and it is the request that was measured |
| Decimal.NormalKeepsValue | agent-rust/src/context.rs:543-554 | stripping zeros keeps the rational denoted |
| Decimal.NormalDecides | agent-rust/src/context.rs:527-559 | two numerals have the same normal form exactly when they denote the same rational |
| Numerals.ReduceInPlace | agent-rust/src/context.rs:543-554 | the digit loops with checked arithmetic compute the normal form or report overflow |
| Numerals.CanonicalKeepsValue | agent-rust/src/context.rs:527-559 | the canonical text denotes the number given exactly when at most 2^31 - 1 digits follow the point, or the number is zero |
| Numerals.LongFractionIsMisread | agent-rust/src/context.rs:549-549 | with 2^32 digits behind the point the cast length is wrong and the text denotes another number |
| Numerals.CanonicalDecimalDecides | agent-rust/src/context.rs:527-559 | two such accepted numerals get the same text exactly when they denote the same rational |
| Numerals.DecimalEqualDecides | agent-rust/src/engine.rs:3063-3103 | `decimal_equal` holds exactly when both sides are numerals with a digit, whose exponent, shifted exponent and power fit 64 bits, and they denote the same rational |
| Numerals.OverflowIsUnequal | agent-rust/src/engine.rs:3089-3097 | a numeral beyond that bound is not even equal to itself |
| Numerals.PlainDenotes | agent-go/internal/agent/context.go:252-263 | the positional layout reads back as the same rational |
| Numerals.ScientificDenotes | agent-rust/src/identity.rs:52-63 | so does the layout with an exponent |
| Numerals.ExactDecimal | agent-go/internal/agent/context.go:225-268 | the Go loops, for exponents within 10000 and no others, yield the positional text of the normal form |
| Numerals.GoTextDecides | agent-go/internal/agent/context.go:225-268 | the Go normal form decides the same equality as the Rust one |
| KeyOrder.LessIsTotal | agent-rust/src/identity.rs:71-72 | comparing UTF-16 units is a strict total order of keys |
| KeyOrder.OrderAtDifference | agent-rust/src/identity.rs:71-72 | it is the order of code points except where the first difference is between a character beyond U+FFFF and one from U+E000 to U+FFFF; there it is reversed |
| CanonicalText.PrintNumber | agent-rust/src/identity.rs:11-64 | the number branch with its digit loops, including the refusal of unsafe integers |
| CanonicalText.UnsafeIsRefused | agent-rust/src/identity.rs:11-16 | exactly the integers beyond 2^53 - 1 in size are refused |
| CanonicalText.NumberTextDenotes | agent-rust/src/identity.rs:11-64 | a printed number reads back as the same rational |
| CanonicalText.NumberTextDecides | agent-rust/src/identity.rs:11-64 | numbers are printed alike exactly when they are equal |
| CanonicalText.LayoutByPoint | agent-rust/src/identity.rs:38-63 | the thresholds 1e-6 and 1e21 choose the layout that section 3.2.2.3 of RFC 8785 prescribes by the place of the point |
| CanonicalJson.QuoteApart | agent-rust/src/identity.rs:9-9 | a quoted string is read back in one way only |
| CanonicalJson.SortSorts | agent-rust/src/identity.rs:71-72 | members come out in increasing key order |
| CanonicalJson.SortedUnique | agent-rust/src/identity.rs:71-86 | there is only one such order of given members |
| CanonicalJson.Apart | agent-rust/src/identity.rs:5-87 | values whose canonical texts begin the same text are the same value |
| CanonicalJson.PrintedAlike | agent-rust/src/identity.rs:5-87 | values equal up to member order and number spelling have the same text |
| CanonicalJson.CanonicalDecides | agent-rust/src/identity.rs:5-87 | two values have the same canonical text exactly when they are equal as JSON |
| CanonicalForm.BodyReads | agent-rust/src/identity.rs:9-9 | a quoted string, read as section 7 of RFC 8259 says, is the string again, and it is written as short as can be |
| CanonicalForm.CanonicalIsText | agent-rust/src/identity.rs:5-87 | the canonical text is a compact JSON text of the value: literals, such strings, numerals that denote the number, items in their order, members in the order of their keys, nothing in between |
| CanonicalJson.ActionKeysDiffer | agent-rust/src/identity.rs:94-96 | action keys coincide exactly for the same namespace, session and execution |
| CanonicalJson.PayloadsDiffer | agent-rust/src/identity.rs:97-99 | payload fingerprints coincide exactly for the same tool and target and equal arguments |
| Evidence.NumbersCompare | agent-rust/src/engine.rs:2977-2981 | stored numbers compare equal exactly when they denote the same rational |
| Evidence.TypedEqualIsSame | agent-rust/src/engine.rs:2977-2991 | `typed_equal` is the same relation as equality of canonical texts |
| Evidence.TypedEqualIsEquivalence | agent-rust/src/engine.rs:2977-2991 | `typed_equal` is reflexive, symmetric and transitive |
| Evidence.ContainsTransitive | agent-rust/src/engine.rs:2965-2976 | evidence matching is transitive through objects and arrays |
| Evidence.ContainsIsPreorder | agent-rust/src/engine.rs:2965-2976 | it is a preorder, implied by equality, and equal values are interchangeable on either side |
| Evidence.ContainsIsCovering | agent-rust/src/engine.rs:2965-2976 | if a value contains another, everything that one holds at any path is found along the same path, of the same type and value, numbers by the rational denoted; without arrays on the asking side that is exactly what containing means |
| Evidence.ArraysItemwise | agent-rust/src/engine.rs:2965-2976 | an array is contained exactly if for each item asked for one element has everything asked of it |
| XmlText.EscapeConcat | agent-rust/src/context.rs:500-505 | the three replacements, in that order, escape character by character |
| XmlText.XmlUnescape | agent-rust/src/context.rs:399-434 | the unescaping loop computes the unescaping function, with its refusals |
| XmlText.UnescapeInvertsEscape | agent-rust/src/context.rs:399-505 | unescaping undoes escaping on every text of XML characters |
| XmlText.UnescapeKeepsXml | agent-rust/src/context.rs:399-434 | only characters section 2.2 of XML 1.0 allows come out |
| XmlText.ReferencesUnescape | agent-rust/src/context.rs:399-434 | the decimal and the hexadecimal reference of every XML character are read as that character |
| XmlText.NumericIs | agent-rust/src/context.rs:399-434 | a number denotes the character of exactly that number, without wrapping; surrogates and numbers beyond the last character denote none |
| LedgerXml.ParseXmlSections | agent-rust/src/context.rs:303-397 | the parser loop over stack and buffers ends and computes the parsing function |
| LedgerGrammar.AcceptedIsDocument | agent-rust/src/context.rs:303-397 | the parser accepts exactly the documents of one root with the four sections, each once and in any order, no words around them, every element closed by its own name, in XML characters, with valid names and references, without declarations, comments and section ends |
| LedgerFixpoint.SectionsXml | agent-rust/src/context.rs:303-397 | the sections of any accepted summary are cleaned lines of XML characters |
| LedgerFixpoint.CleanLeavesLines | agent-rust/src/context.rs:380-397 | a section consists of trimmed, nonempty lines without any of the five line-breaking characters |
| LedgerFixpoint.FenceIsOpened | agent-rust/src/context.rs:275-292 | a summary in a code fence, plain or marked as XML or text, is taken out of it |
| LedgerFixpoint.ValidatedIff | agent-rust/src/context.rs:219-273 | a summary is accepted exactly if it is within the limit, is such a document, its three reflective sections are neither blank nor an ellipsis, it brings in no new number and the ledger printed is within the limit; the ledger has the caller's goal and source |
| LedgerFixpoint.DocumentParses | agent-rust/src/context.rs:470-498 | a printed ledger parses, with balanced tags, to the four texts printed |
| LedgerFixpoint.SectionsOfDocument | agent-rust/src/context.rs:303-397 | reading a printed ledger gives the three reflective sections back exactly when the goal is XML |
| LedgerFixpoint.LedgerFixpoint | agent-rust/src/context.rs:219-273 | validating an accepted ledger's text again, with the same goal, source and limit, gives the same ledger and text exactly when the goal consists of XML characters |
| LedgerFixpoint.ControlGoalIsRefused | agent-rust/src/context.rs:219-273 | a goal that is a control character is accepted, and the text returned for it is refused |
| Tables.ParseMarkdownTable | agent-rust/src/engine.rs:3014-3054 | the line scan, the shape check and the duplicate-key check |
| Tables.DescribeParses | agent-rust/src/engine.rs:3206-3228 | reading a described table gives the table back |
| Tables.ShownTableIsAccepted | agent-rust/src/engine.rs:3104-3148 | every table read from a tool result is shown in a form that is read back as itself and is accepted as the answer |
| Tables.AcceptedShows | agent-rust/src/engine.rs:3055-3148 | an answer is accepted for a table exactly if it has its header, as many rows and for each wanted row one with the same key and, cell by cell, the same text or, commas removed, the same rational, an integer only for an integer |
| Tables.NothingElseShown | agent-rust/src/engine.rs:3104-3148 | each row of an accepted answer is a wanted one |
| Tables.RuleOf | agent-rust/src/engine.rs:3030-3037 | dashes between optional colons are a ruler exactly from three on |
| Tables.RuleIsDashes | agent-rust/src/engine.rs:3030-3037 | nothing else is a ruler |
| Diagnostics.MaxIsCount | agent-rust/src/main.rs:2187-2194 | the greatest stored ordinal of a family is its lifetime count, however much was pruned |
| Diagnostics.InsertAllKeeps | agent-rust/src/main.rs:2154-2178 | a journal's outbox goes in without conflict and extends the history by exactly its records |
| Diagnostics.InsertedRows | agent-rust/src/main.rs:2154-2178 | records are refused exactly if one conflicts with a stored or an earlier one; otherwise the table holds what it held and the records, and nothing else |
| Diagnostics.PruneKeeps | agent-rust/src/retention.rs:302-335 | pruning diagnostics rows under a matching archive loses nothing and keeps the newest rows |
| Diagnostics.PruneKeepsEvents | agent-rust/src/retention.rs:302-335 | pruning event rows under a matching archive leaves every event stored or in a receipted archive |
| Diagnostics.NewestEventStays | agent-rust/src/retention.rs:302-335 | the newest event row is never pruned |
| Diagnostics.Telemetry.WriteDiagnostics | agent-rust/src/main.rs:2149-2196 | an outbox is written exactly when no row conflicts and the counters agree with the resulting maxima, otherwise nothing changes; one numbered on from what was written always succeeds |
| Diagnostics.Telemetry.Export | agent-rust/src/retention.rs:117-172 | an export holds all stored diagnostics and event rows up to its watermarks |
| Diagnostics.Telemetry.Prune | agent-rust/src/retention.rs:269-335 | rows are deleted exactly for an owned, settled session at the archived revision whose archive holds what is stored; left are exactly the diagnostics above the archived ordinals or among the newest kept of the lifetime count, and the events above the archived number or among the newest kept; a receipt is kept |
| Diagnostics.Telemetry.Newest | agent-rust/src/main.rs:1492-1500 | the rows loaded are the newest 32 of everything ever written, without a gap |
| Journal.SessionJournal.Append | agent-rust/src/diagnostics.rs:59-106 | an entry is numbered, cached within the bound and put into the outbox |
| Journal.SessionJournal.Save | agent-rust/src/engine.rs:570-579 | after a save the stored history is the session's history, the outbox is empty and one more event is stored |
| Journal.SessionJournal.Hydrate | agent-rust/src/diagnostics.rs:130-199 | loading succeeds exactly if the counters agree and each family's rows are consecutive up to its count, all of them or 32, and then restores the rows given |
| Journal.Load | agent-rust/src/main.rs:1483-1535 | loading always succeeds and restores the newest min(32, count) entries of every family |
| Journal.Lifetime | agent-rust/src/retention.rs:269-335 | over any sequence of records, saves, exports, prunes and restarts nothing committed is lost, neither diagnostics nor events, and loading works |
| CivilDate.CivilIsRight | agent-rust/src/main.rs:116-139 | every day, before or after the epoch, gets a valid Gregorian date that maps back to that day |
| CivilDate.NumbersDiffer | agent-rust/src/main.rs:116-139 | no two dates have the same day number |
| CivilDate.CivilFollowsCalendar | agent-rust/src/main.rs:116-139 | day 0 is 1970-01-01, consecutive days get consecutive dates, and every date is some day's |
| Workflow.KeysDiffer | agent-rust/src/engine.rs:2952-2954 | evidence keys written as text never collide, whatever the phases are called |
| Workflow.LawfulIsPath | agent-rust/src/engine.rs:1281-1319 | the transitions form a path from the entry phase to the active phase |
| Workflow.RicherMatches | agent-rust/src/engine.rs:2955-2976 | an outcome whose arguments and result contain those of a matching outcome, and whose text mentions as much, matches too |
| Workflow.MatchesShows | agent-rust/src/engine.rs:2955-2976 | what is taken for evidence is of the tool asked for, mentions every fragment and has everything asked of arguments and result, place by place; where no array is asked for, nothing else is refused |
| Workflow.LawfulIsEvidenced | agent-rust/src/engine.rs:1240-1319 | in a history of single lawful steps every tool ran in an active phase that admits it, the transitions form a path, and a transition on completion was preceded by executed calls that match all the required evidence of its phase |
| Workflow.Engine.Advance | agent-rust/src/engine.rs:1281-1319 | the first transition that what was executed has earned is taken, and none otherwise |
| Workflow.Engine.Record | agent-rust/src/engine.rs:1320-1346 | the keys recorded are exactly those of the evidence produced so far; whatever is added is of the tool asked for and has everything asked for in the outcome, place by place |
| Workflow.Engine.CaptureArtifacts | agent-rust/src/engine.rs:1531-1571 | each deliverable an executed call provides is taken from its output; a change needs an output that is no error, of the tool asked for, with everything asked for in it |
| Workflow.Engine.SettlePending | agent-rust/src/engine.rs:927-1030 | exactly the calls that are sound, admitted and not against a bound result are executed, each once, in order; any other counts the batch as invalid once |
| Workflow.Engine.TakeDecision | agent-rust/src/engine.rs:780-862 | a run completes exactly on a final answer, after the workflow is complete, that is not blank, satisfies the configured patterns and shows every deliverable, each table with its keys and figures; any other response that is no use is counted |
| Workflow.Engine.Run | agent-rust/src/engine.rs:676-903 | a run is what was left over, then turns of transition, measure, decision and watch, until it is over or the allowance is used up; its history is evidenced step by step; complete means a finished workflow and an answer that shows every table with its keys and figures |

## Left out

- HTTP routing, request normalisation, server-sent events and their cursor, configuration loading and command-line
  handling: input and output only.
- Model calls, provider diagnostics, log redaction, fixture tools and SQL analytics: replies and outputs are arbitrary.
- SQL text, lock order, schema checks and the shortest printing of floating-point numbers: a transaction is a step, and a
  number is given by its printed digits.
- Configuration and goal anchors, integrity digests and the bodies of run rows inside a save: they are constant or derived.
- The lifecycle path that saves an unacknowledged outbox again after a failed cancellation query: not part of the model.
- LedgerTheorems.ExactlyOnce: run commands are not included, because an expired run command may be claimed again and start
  another run; for those only the single terminal response is claimed, by `AnsweredForever`.
- LedgerTheorems.RunKeeps: run rows, the call map, context references, the diagnostics and execution clauses of the script
  are not part of this invariant; diagnostics and executions have their own in `Diagnostics` and `ActionTheorems`.
- LedgerTheorems.CommittedIsImmutable: the call map is not modelled; diagnostics rows are covered by `Diagnostics`.
- LedgerInvariants.WrittenRows: is about staged lists without a repeated identity, which is how they are drawn.
- LedgerTheorems.CommitLandsIff: refusals of a save for a changed goal or configuration anchor, an inconsistent payload or
  a diagnostics conflict are not modelled.
- Store.Store.Commit: anchors, context, summary, diagnostics and execution rows are not written here; the execution rows of
  the same save are `Dispatcher.Tables.WriteToolExecutions`, joined with it by `Layers.SaveIsLand`.
- ActionTheorems.AtMostOneEffect: one session is modelled, and commits are told apart by the revision check alone, which
  allows more behaviours than the leases do.
- ActionTheorems.AttemptLedger: the origin of an action in a run and command, and finishing times, are not modelled.
- Dispatcher.Tables.WriteToolExecutions: one action per batch; recipient metadata and times are not modelled.
- Dispatcher.Dispatcher.Dispatch: an intent is proposed under an identity that no other worker has used; error texts are
  not told apart.
- Layers.StaysJoined: other transactions may come before and after a save but not between its attempts.
- Compactor.Session.Attempt: whether the awaited history changed during the call is not checked again, because the model's
  session cannot change then.
- Compactor.Session.Compact: the sizes of requests are arbitrary functions of memory, summary and source, so nothing is
  said about how much a summary saves.
- LedgerXml.ParseXmlSections: the messages for bad entity references are one error.
- LedgerFixpoint.LedgerFixpoint: whether a summary introduces new numbers is an arbitrary predicate of the texts, and
  parse errors are not told apart beyond their order; the heading form of ledgers is not modelled.
- Numerals.ExactDecimal: starts from a numeral already taken apart; removing commas and cutting the text is not modelled.
- Diagnostics.Telemetry.Export: hashes, the file format and the other tables of an archive are not modelled.
- Journal.SessionJournal.Append: the totals of rejections and savings kept beside the entries are not modelled.
- Journal.SessionJournal.Hydrate: snapshots from before the journal existed are not modelled.
- Workflow.Engine.Record: parsing an output as JSON and finding a fragment whatever the case are arbitrary functions.
- Workflow.Engine.CaptureArtifacts: how a deliverable that is not a table is taken from an output is an arbitrary function.
- Workflow.Engine.SettlePending: whether a bound result speaks against a call is an arbitrary predicate of the call;
  sessions without a workflow are not modelled.
- Workflow.Engine.TakeDecision: the exact text, patterns and schema of an answer are one arbitrary predicate, and so is
  whether a deliverable that is not a table is shown; tables are checked by `Tables.CheckTable`.
- Workflow.Engine.Run: loss of progress and compaction failures are arbitrary inputs.
- Evidence.ContainsIsCovering: exact without arrays on the asking side and, with `Evidence.ArraysItemwise`, for an array
  of such values; for arrays further inside only that containing implies finding.
- Tables.CheckTable: integers are read with ASCII digits, where the port's pattern also lets other decimal digits through.
- Tables.ShownTableIsAccepted: the other kinds of deliverables are not modelled.
- The second commit implementation in agent-go/cmd/server/history_store.go and the Python port.
