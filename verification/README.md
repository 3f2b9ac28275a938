# Agent observability: verified model of six protocols

This project models the parts of the agent-observability repository that are easiest to get wrong, in its own terms,
and proves what they are for.

- **The paged dashboard client** keeps one request in flight from a queue of tasks with ready times, under a revision
  counter that supersedes old work, a wake timer, snapshot binding, bounded cursor histories, bounded facets and a second
  revision counter for private details. `DashboardModel` is the client as a state machine whose steps are its synchronous
  stretches of code; `DashboardWork` says what every step asks for
  and what the scheduler does with it, `DashboardDisplay` what every answer shows; `DashboardInvariants`,
  `DashboardTheorems`, `DashboardSelection`, `DashboardRequests`,
  `DashboardForsaken`, `DashboardHistory`, `DashboardDetail`, `DashboardProvenance` and `DashboardWaiting` prove
  properties of every run; `PagedDashboardClient` is the class itself, whose methods are proved to take exactly those
  steps. `Facets`, `DashboardFilters` and `BoundedRead` are its loops.
- **The settings editor** holds a draft, the persisted configuration and its revision, saves by compare-and-swap,
  rebases on a conflict, and guards late answers by two counters. `SettingsModel` is one editor, `SettingsTheorems` also
  puts any number of them and other writers around one server, `SettingsCalls` says what every event sends, loads
  and shows, `SettingsInFlight` what happens between a request and its answer, `SettingsEditor` is the page's own code.
- **The Claude Code handoff adapter** folds the lines of a bounded text into observations and diagnostics with cursor
  chains and duplicate suppression (`HandoffParser`), maps records (`HandoffMapping`), and derives identifiers
  (`HandoffIdentity`) that form a forest of spans (`HandoffForest`). `HandoffAcceptance` says of every record what
  becomes of it.
- **The summary accumulator** (`SummaryModel`, `SummaryTheorems`, `SummaryMeaning`) and the browser's whole-list
  summary that it has to agree with (`ViewSummary`).
- **The performance harness**: batching and draining (`HarnessBatching`), the two threads with their durability barrier
  (`HarnessPipeline`), the streaming network monitor (`HarnessMonitor`) and the release gate (`HarnessGate`).
- **Saved views** (`SavedViews`): a printer and a reader for the part of JSON they are written in.

Code that changes state in place is a class or a method with a loop here too, proved against a function; the theorems
are about the function. The table below lists the loops and the methods that put several steps together; every other
method of `PagedDashboardClient` and `SettingsEditor` ensures that the new state is the step of the model named after
it, and every other method of `DashboardSummaryAccumulator` the part of a push named after it.
`dafny verify dfyconfig.toml` checks everything.

Where the code does not do what one might expect, the model follows the code, a lemma says exactly when it matters, and
another gives an input or a run on which it does:

- a refresh may change the filters: `DashboardTheorems.RefreshKeepsFiltersIff`, `DashboardFilters.NormalizeIsIdempotentIff`,
  `DashboardFilters.NormalizeIsNotAlwaysIdempotent`;
- the span shown need not be the one asked for last: `DashboardRequests.SelectedIsLastRequestedIff`,
  `DashboardForsaken.RefusedSelectionKeepsOld`, `DashboardForsaken.SelectionCanBeForsaken`;
- a detail may go on loading for ever: `DashboardDetail.LoadingIsLostIff`, `DashboardDetail.LoadingCanBeLost`;
- a caller of settled() may be left waiting: `DashboardWaiting.WaitIsAbandonedIff`, `DashboardWaiting.SettledCanBeStranded`;
- what is typed while a save or a rebase is under way may be lost: `SettingsInFlight.EditDuringSaveIsKeptIff`,
  `SettingsInFlight.EditDuringRebaseIsKeptIff`, `SettingsInFlight.EditDuringSaveCanBeLost`;
- an edit may be lost through conflicts: `SettingsTheorems.EditSurvivesConflictsIff`,
  `SettingsInFlight.EditCanBeLostInConflicts`;
- the accumulator and the browser may differ about the cost status: `ViewSummary.AccumulatorAgreesWithView`,
  `ViewSummary.ValidSpansAgree`, `ViewSummary.MixedCurrenciesDisagree`.

## Assumptions

- A digest is an arbitrary function. Where two digests must differ, the lemma names the two inputs that could collide:
  `HandoffIdentity.Collide`, `SettingsTheorems.ToldApart`.
- The settings server compares revisions and replaces its configuration in one step, and an envelope carries the
  revision of its own configuration (crates/local-runtime/src/config.rs:353-376, 1104-1108). A PUT may be handled late,
  twice or never. Where it matters what the answer to a PUT holds, the server reads back what it has just written
  under the same guard (crates/local-runtime/src/config.rs:354-376, crates/local-ui/src/lib.rs:769-786).
- The dashboard's listener does not call back into the client while it is being told of a state, as in
  ui/report/paged.ts:201-208. Queries, timers and promises are events; answers have passed the schema validators.
- The clock is read once per step of the dashboard client and may jump in either direction between steps.
- Costs and token numbers are real numbers: the rounding of floating-point sums is idealised. Sums of whole token numbers
  are exact in the source too, up to the bound both sides check; a total of fractions, which the model refuses unless
  it is whole, may be rounded to a whole number there and accepted.
- The store commits a batch whole or not at all.
- JSON is an arbitrary decoder; the theorems about saving assume only that it reads the escape-free text that
  `SavedViews.Read` reads as what it says (section 7 of RFC 8259).

## Model

| member | source | states |
|---|---|---|
| DashboardInvariants.EveryRunKeepsInvariant | ui/report/paged-client.ts:113-545 | in every state of every run: queued tasks and the live request carry the current revision, filters and snapshot id; without a snapshot there is at most one bootstrap and nothing else, with one no bootstrap; at most one request is in flight; a visible idle client with queued work has a timer armed; histories and facets are bounded; a loaded detail is for the selected turn |
| DashboardWork.EveryStepFollows | ui/report/paged-client.ts:113-545 | in every state of every run, what any event adds to the queue, task by task and in order, with purpose, trace, span, cursor, page, revision, filters, snapshot and ready time; and what the scheduler then does with it: which tasks go, which one is sent, when the timer is set and for when, who is released |
| DashboardWork.StepFollows | ui/report/paged-client.ts:332-382 | the same for any state that keeps the invariant |
| DashboardWork.EarliestIsEarliest | ui/report/paged-client.ts:339 | the time the timer is armed for is the ready time of some queued task, and no other is earlier |
| DashboardDisplay.AnswerIsDisplayed | ui/report/paged-client.ts:384-501 | everything on display after a query settles: a superseded one shows nothing, a current one exactly what its answer, status or failure says |
| DashboardDisplay.AvailabilityIsTrue | ui/report/paged-client.ts:384-501 | in every state of every run: what is called current or stale has a snapshot that is, and a page that is loading, waits for a refresh or has expired has none |
| DashboardInvariants.StepKeepsInvariant | ui/report/paged-client.ts:113-545 | every event keeps that invariant, whatever the clock says |
| DashboardInvariants.DrainLoopKeeps | ui/report/paged-client.ts:337-382 | the scheduler and the drain loop keep tasks bound and never leave work without a timer |
| DashboardInvariants.ApplyResponseKeeps | ui/report/paged-client.ts:384-432 | applying any answer keeps everything bound, including a busy retry, a refresh and an expiry |
| DashboardTheorems.SupersededWorkCannotInterfere | ui/report/paged-client.ts:353-376 | after start, refresh, setFilters or dispose the outcome of a query issued before shows nothing when it lands, and any two outcomes lead to the same state however the run goes on |
| DashboardTheorems.OtherStepsKeepFlight | ui/report/paged-client.ts:512-520 | only the four superseding calls touch the request in flight, and they abort it |
| DashboardDetail.LoadingIsLostIff | ui/report/paged-client.ts:210-237 | a detail shown as loading always has a current call for the selected turn; a step loses it exactly when the transport rejects the current call with an abort nobody asked for |
| DashboardDetail.LoadingCanBeLost | ui/report/paged-client.ts:210-237 | a run from the start that ends with a detail shown as loading and no call left to answer it, after an abort that the client did not raise |
| DashboardDetail.StaleDetailCannotInterfere | ui/report/paged-client.ts:204-237 | after a served selectTrace, selectSpan or loadPrivateDetail, after clearSelectedDetail, setFilters, start, refresh or dispose, or after an answer that makes the client start over, and whatever happens next, any outcome of a detail call made before shows nothing when it lands, and any two outcomes lead to the same state however the run goes on |
| DashboardDetail.RequestIsForSelectedTurn | ui/report/paged-client.ts:210-226 | a click on load asks for the turn of the span on display, exactly when that span is eligible and there is a transport; otherwise it says why not |
| DashboardDetail.AnswerShowsItsTurn | ui/report/paged-client.ts:227-236 | the state after any detail call settles: a late answer shows nothing, a current one the detail only for its own turn, otherwise the reason or the error |
| DashboardDetail.RevisionGrows | ui/report/paged-client.ts:522-530 | no step lowers the revision of the private detail, and each of those events raises it |
| DashboardTheorems.RefreshKeepsFiltersIff | ui/report/paged-client.ts:150-152 | refresh keeps the filters exactly when the text was not cut just behind white space |
| DashboardSelection.SelectionStaysCoherent | ui/report/paged-client.ts:180-237 | in every run against a server that answers what was asked, the span rows shown, the span asked for last and the span shown are of the selected trace, and a loaded private detail is for the turn of the span shown, whatever answers come late |
| DashboardRequests.SelectedIsLastRequestedIff | ui/report/paged-client.ts:196-202 | in every such run the span shown is the one asked for last exactly if it was shown when it was asked for last or one of the queries for it waited for then has come back with it; so it is shown once nothing is waited for and nothing was dropped, and a span asked for once is shown exactly when its query is over and was not dropped by a failure or an emptied queue |
| DashboardRequests.SpanChangesOnlyByItsAnswer | ui/report/paged-client.ts:420-431 | no step shows another span except the answer to a current query for the id asked for last, and it shows what that answer holds |
| DashboardRequests.WaitingAfter | ui/report/paged-client.ts:332-382 | the same for queries of any kind: after any event those waited for are the ones before, less the one answered or all where the queue is emptied, and exactly those that the event adds |
| DashboardRequests.PendingAfter | ui/report/paged-client.ts:332-382 | how many queries for one span are waited for after any event: a served click adds one, an answer takes one off, a failure, a restart, a filter change or a dispose takes them all, and nothing else changes the number |
| DashboardForsaken.RefusedSelectionKeepsOld | ui/report/paged-client.ts:365-376 | when the query for a clicked span fails or is refused for capacity, the span opened before stays on display while the clicked one is neither shown nor waited for |
| DashboardForsaken.ForsakenForGood | ui/report/paged-client.ts:196-202 | however long an honest run goes on, such a span is not shown until a span is clicked or something else is asked for |
| DashboardForsaken.SelectionCanBeForsaken | ui/report/paged-client.ts:371-372 | an honest run from the start that ends there |
| DashboardForsaken.ShownWhileAskedAgain | ui/report/paged-client.ts:196-202 | an honest run on which the span asked for last is shown while another query for it is still under way |
| DashboardHistory.HistoryRefinesStack | ui/report/paged-client.ts:239-269 | the sixteen-entry cursor histories are always non-empty suffixes of unbounded stacks that follow the same clicks, and a page forward or back that is served, of traces or of spans, adds exactly one request to those waited for, for the cursor now on top of the stack, under the current filters, snapshot and trace, while a click that is not served, or without a snapshot, adds none |
| DashboardHistory.WindowDepth | ui/report/paged-client.ts:239-252 | after any run without a page back that stands on page n of the traces, exactly min(15, n) of any number of clicks on previous are served |
| DashboardProvenance.EverythingShownAnswersTheFiltersShown | ui/report/paged-client.ts:384-475 | every trace, span, facet and KPI on display was given by the server for the filters and the snapshot on display |
| DashboardWaiting.WaitIsAbandonedIff | ui/report/paged-client.ts:275-278 | a caller of settled() is left with nothing that will release it exactly when it calls while nothing runs, nothing is queued and a timer is still armed |
| DashboardWaiting.SettledCanBeStranded | ui/report/paged-client.ts:275-278 | a run that strands such a caller for good |
| DashboardFilters.NormalizeIsIdempotentIff | ui/report/paged-client.ts:711-720 | normalising twice equals normalising once exactly when the cut at 512 does not land just behind white space |
| DashboardFilters.NormalizeIsNotAlwaysIdempotent | ui/report/paged-client.ts:717-718 | a text on which it does not |
| DashboardFilters.NormalValuesSpec | ui/report/paged-client.ts:711-716 | a normalised dimension is a duplicate-free prefix of at most sixteen values, nothing is lost while it fits, and normalising again changes nothing |
| DashboardFilters.TrimIs | ui/report/paged-client.ts:717 | trimming takes white space off both ends and nothing else |
| DashboardFilters.FirstOccurrencesAre | ui/report/paged-client.ts:711-716 | of every value the first occurrence is kept, in the order given |
| Facets.FacetDownload | ui/report/paged-client.ts:454-475 | any cut of the rows into pages gives the same list: the first limit/4 rows of every dimension in order, within the limit, and the flag set exactly when a row was dropped |
| Facets.KeptIsPrefixOfEachDimension | ui/report/paged-client.ts:454-475 | within a dimension the kept rows are the first ones given |
| Facets.ApplyStaysWithinLimit | ui/report/paged-client.ts:454-475 | no dimension and no total ever exceeds its limit |
| Facets.ApplyPage | ui/report/paged-client.ts:454-475 | the loop over one page is the reference step by step |
| BoundedRead.ReadBoundedResponse | ui/report/paged-client.ts:651-678 | the read succeeds exactly when neither the declared nor the streamed size exceeds the bound and then gives every byte in order; otherwise it stops at the first chunk over the bound |
| BoundedRead.Join | ui/report/paged-client.ts:670-677 | the buffer is filled with the chunks one after the other |
| PagedDashboardClient.PagedDashboardClient.TransportSettles | ui/report/paged-client.ts:353-382 | the drain loop from its await on is the step `TransportSettles` |
| PagedDashboardClient.PagedDashboardClient.DetailSettles | ui/report/paged-client.ts:227-236 | loadPrivateDetail from its await on is the step `DetailSettles` |
| PagedDashboardClient.PagedDashboardClient.ScheduleDrain | ui/report/paged-client.ts:337-351 | starts the loop or arms the timer exactly as the state machine does |
| PagedDashboardClient.PagedDashboardClient.DrainLoop | ui/report/paged-client.ts:353-382 | the loop takes ready tasks off the queue, drops superseded ones and sends at most one |
| PagedDashboardClient.PagedDashboardClient.ApplyResponse | ui/report/paged-client.ts:384-432 | the answer is applied, or the error to be caught is named and nothing has moved |
| PagedDashboardClient.PagedDashboardClient.FindReady | ui/report/paged-client.ts:358 | finds the first ready task of the queue, and whether there is one |
| PagedDashboardClient.PagedDashboardClient.EarliestDeadline | ui/report/paged-client.ts:339 | the earliest ready time in the queue |
| PagedDashboardClient.PagedDashboardClient.TakeReadyTask | ui/report/paged-client.ts:358-364 | one turn of the drain loop: a ready task is taken and sent, or dropped when superseded |
| SettingsTheorems.NoLostUpdate | ui/settings/main.ts:988-1053 | with any number of editors and other writers, a PUT takes effect exactly when the server still stores what its editor had loaded; it then changes just the settings edited there and never the storage budget |
| SettingsTheorems.EditorsKeepStorageBudget | ui/settings/main.ts:1098-1105 | editors alone never change the stored storage budget, resets to defaults included |
| SettingsTheorems.EveryWorldKeepsInv | ui/settings/main.ts:1279-1285 | in every reachable world each editor's persisted configuration is the one its revision names, and so is the base of every PUT ever sent |
| SettingsTheorems.EditSurvivesConflictsIff | ui/settings/main.ts:1055-1078 | over any interleaving with any number of conflicts an edit is kept exactly when no version rebased on before the last held its value, or the last does; untouched settings follow the server |
| SettingsInFlight.EditDuringSaveIsKeptIff | ui/settings/main.ts:1007-1020 | from the click on save to its answer, whatever happens between: a failed save and an ended session keep what was typed; against a server that answers with what it stored, a setting keeps its value exactly when that is the value that was sent |
| SettingsInFlight.EditDuringRebaseIsKeptIff | ui/settings/main.ts:1055-1078 | from the refusal of a save to the answer with the latest configuration: a setting edited before the refusal keeps its value, whatever the answer, exactly when it still is the one captured then; any other follows the answer; so a value is safe from every answer exactly when it is a captured edit left as it was |
| SettingsInFlight.EditDuringSaveCanBeLost | ui/settings/main.ts:1011-1018 | a run from a fresh page that loses a value typed while a save is under way |
| SettingsInFlight.EditCanBeLostInConflicts | ui/settings/main.ts:1055-1078 | a run from a fresh page that loses an edit through two conflicts, the first of which brings its own value |
| SettingsInFlight.FormIsReleased | ui/settings/main.ts:988-1053 | over whole runs: while the session lives the call that holds the form holds it alone until it is answered; the answer frees the form or hands it to one other call, which holds it alone and whose answer frees it |
| SettingsCalls.StepSends | ui/settings/main.ts:278-1193 | what every event sends, if anything, with its contents: which config, which revision, which change, under which numbers; and that nothing else joins the calls waited for and only the answered one leaves them |
| SettingsCalls.ToggleAsksForOpposite | ui/settings/main.ts:720-729 | a step sends a change exactly for a click on the switch in a live, free, open form that shows a status, and it asks for the opposite of what is connected |
| SettingsCalls.EveryRunTogglesTheOpposite | ui/settings/main.ts:720-729 | over any run every change sent asked for the opposite of the connection shown before it |
| SettingsCalls.AnswerIsShown | ui/settings/main.ts:731-818 | what is shown after the answer to the latest request: the status in it, or nothing and a lock, or the end of the session, or one more try |
| SettingsCalls.LoadsAreExact | ui/settings/main.ts:1279-1285 | configuration, defaults and revision change exactly with a current answer that brings an envelope, to what is in it |
| SettingsCalls.DraftIsExact | ui/settings/main.ts:870-917 | how any event changes the draft: an edit its own setting, a reset all but the storage budget, an envelope or a rebase all, anything else nothing |
| SettingsCalls.SessionEndsIff | ui/settings/main.ts:1107-1193 | the session ends exactly with a closing or a failing answer to a call of its own that the page treats as its end |
| SettingsTheorems.AnswersActInRequestOrder | ui/settings/main.ts:720-818 | integration answers are acted on in the order their requests were made |
| SettingsTheorems.OnlyAnswersChangeIntegration | ui/settings/main.ts:314-334 | nothing but the answer to the latest request changes what is shown of the integration |
| SettingsTheorems.NoChangeUntilStatusRead | ui/settings/main.ts:739-761 | after a failed connect or disconnect no other is sent until a status has been read successfully |
| SettingsTheorems.NothingFollowsExpiry | ui/settings/main.ts:1180-1193 | once the session is over no answer, timer or button changes configuration or integration, and nothing more is saved or connected |
| SettingsInvariants.EveryRunKeepsInv | ui/settings/main.ts:278-334 | in every run: draft and persisted exist together with the same storage budget, every pending call belongs to the live session, the busy and closing flags are up exactly while one call holds them |
| SettingsModel.Rebased | ui/settings/main.ts:1055-1078 | the rebase is a three-way merge setting by setting, on the latest storage budget |
| SettingsEditor.ChangedPaths | ui/settings/main.ts:1392-1396 | exactly the fields whose numbers differ |
| SettingsEditor.ReapplyEdits | ui/settings/main.ts:1069-1075 | re-applying the edits field by field is the three-way merge |
| SettingsEditor.SettingsEditor.SaveSettles | ui/settings/main.ts:1016-1053 | success loads the saved envelope, a conflict starts a rebase from the draft as it is now, an invalid session or lost network ends the session, and every other path frees the form |
| SettingsEditor.SettingsEditor.RebaseSettles | ui/settings/main.ts:1055-1078 | the latest configuration is loaded and exactly the captured edits are put back on it; every path frees the form |
| SettingsEditor.SettingsEditor.InitialStatusSettles | ui/settings/main.ts:314-334 | a first status that finds the collector unavailable is asked for once more after a delay; otherwise it is shown, or the integration locked, if it is still the latest request |
| SettingsEditor.SettingsEditor.ToggleSettles | ui/settings/main.ts:729-745 | success shows the new status and frees the form; failure locks the integration and asks for the status without freeing it |
| HandoffParser.ParseSucceedsIff | crates/adapter-claude-code/src/lib.rs:225-330 | a parse accepts exactly the inputs of at most 4096 lines, none over 64 KiB, each blank or a decodable record with the known schema, valid identifiers and a hashable observation, where in each generation every record's previous cursor is the cursor of the one before |
| HandoffParser.ErrorIsFirstFault | crates/adapter-claude-code/src/lib.rs:225-330 | a rejected input is rejected with the fault of its first faulty line, by a fixed order of nine faults; what comes behind does not matter |
| HandoffParser.LinesAre | crates/adapter-claude-code/src/lib.rs:232 | the lines and their ends make up the text, no line holds a line feed, and an end is a line feed with or without a return before it |
| HandoffAcceptance.MappingAgrees | crates/adapter-claude-code/src/lib.rs:337-561 | every record by its surface, event and attributes alone: observed as which activity, or which diagnostic; for the eight mapped events exactly when the identifiers are texts of 1 to 512 bytes, the optional figures and flags have their type, the words are known and the duration is not longer than the time of receipt |
| HandoffAcceptance.EveryItemIsAccountedFor | crates/adapter-claude-code/src/lib.rs:233-302 | every item of an accepted batch is what that verdict on its record says: the diagnostic by name, or the observation, kept or suppressed for an earlier one |
| HandoffParser.OneItemPerRecord | crates/adapter-claude-code/src/lib.rs:233-302 | one item per non-blank line, in order, with that line's checkpoint and number |
| HandoffParser.ItemsChain | crates/adapter-claude-code/src/lib.rs:317-330 | within a generation each item's previous cursor is the cursor of the item before |
| HandoffParser.DuplicatesAreExact | crates/adapter-claude-code/src/lib.rs:256-287 | a record is suppressed as a duplicate exactly when an earlier item is an observation of the same generation, span and payload; otherwise its observation is kept |
| HandoffParser.ObservationsAreDistinct | crates/adapter-claude-code/src/lib.rs:262-283 | no two observations of a batch agree in generation, span and payload |
| HandoffParser.AttributesNeverDecide | crates/adapter-claude-code/src/lib.rs:225-302 | with a total payload hash, success, error and number of items depend on sizes, schema and cursors alone, never on events, times or attributes |
| HandoffParser.GrownHandoffKeepsItems | crates/adapter-claude-code/src/lib.rs:225-302 | a text that has grown behind a line feed is read as before as far as it had come |
| HandoffParser.PrefixOfItems | crates/adapter-claude-code/src/lib.rs:233-302 | a prefix of the lines gives a prefix of the items |
| HandoffParser.BatchIsAForest | crates/adapter-claude-code/src/lib.rs:564-625 | in any accepted batch following parents ends after at most two steps without meeting a span again |
| HandoffParser.ParseHandoffJsonl | crates/adapter-claude-code/src/lib.rs:225-302 | the loop is the fold over the lines, errors included |
| HandoffParser.ParseLine | crates/adapter-claude-code/src/lib.rs:233-300 | one turn of the loop moves cursors, positions and items as the fold does, with its errors in their order |
| ViewSummary.ComponentsReportedIff | crates/application/src/dashboard_summary.rs:164-169 | input and output tokens are reported exactly when tokens are known at all and no span lacks them |
| HandoffForest.EveryObservationIsDerived | crates/adapter-claude-code/src/lib.rs:337-625 | trace, span and parent of every observation are those of its session, turn and item; the parent is the enclosing turn or session |
| HandoffForest.EveryObservationSaysTheRecord | crates/adapter-claude-code/src/lib.rs:377-561 | every identifier, figure, word and outcome of an observation is the one its record gives under that attribute |
| HandoffForest.CategoriesAreByName | crates/adapter-claude-code/src/lib.rs:664-680 | each category of tools by the names in it |
| HandoffForest.ObservationIdentifiesRecord | crates/adapter-claude-code/src/lib.rs:594-602 | equal observation identifiers are of records with one generation, cursor, surface and event, unless the digest collides |
| HandoffForest.OtherAttributesLeaveNoTrace | crates/adapter-claude-code/src/lib.rs:337-375 | attributes outside the adapter's list reach no observation and no diagnostic, and mapping fails only in ways that become diagnostics |
| HandoffForest.SpanIdentifiesSubject | crates/adapter-claude-code/src/lib.rs:577-588 | two spans are equal only for the same session, turn, kind and id, unless the digest collides on them |
| HandoffForest.TraceIdentifiesSession | crates/adapter-claude-code/src/lib.rs:576 | observations are in one trace exactly when they are of one session, unless the digest collides |
| HandoffForest.ParentIsEncloser | crates/adapter-claude-code/src/lib.rs:577-588 | a parent is the span of another observation exactly if that one encloses it, unless the digest collides, and both are then in one trace |
| HandoffForest.ParentIsOneUp | crates/adapter-claude-code/src/lib.rs:577-588 | a parent is one level up by the prefixes alone, and sessions have none |
| HandoffForest.ParentChainsAreShort | crates/adapter-claude-code/src/lib.rs:577-588 | parent chains have at most three members and no repetition, with no assumption on the digest |
| HandoffIdentity.PreimageIsInjective | crates/adapter-claude-code/src/lib.rs:752-757 | the length-prefixed pre-image is injective on component lists |
| HandoffIdentity.BigEndianRoundTrip | crates/adapter-claude-code/src/lib.rs:755 | the big-endian length bytes decode to the length |
| HandoffIdentity.StableIdIsInjective | crates/adapter-claude-code/src/lib.rs:752-766 | identifiers are equal only for the same prefix and components, unless the digest collides |
| HandoffIdentity.ComputeStableId | crates/adapter-claude-code/src/lib.rs:752-766 | feeding the digest component by component gives the digest of the pre-image behind the prefix |
| SummaryTheorems.FoldIsTotals | crates/application/src/dashboard_summary.rs:56-130 | the accumulator accepts a list exactly when every span is acceptable by itself and no total exceeds its bound, and then holds the totals |
| SummaryTheorems.OrderDoesNotMatter | crates/application/src/dashboard_summary.rs:56-180 | any two orders of the same spans are both accepted or both rejected, and finish alike |
| SummaryTheorems.CountersStaySafe | crates/application/src/dashboard_summary.rs:195-201 | no counter ever exceeds the safe-integer bound, nor the cost its own |
| SummaryTheorems.PushIs | crates/application/src/dashboard_summary.rs:68-130 | one push succeeds exactly when the span is acceptable and every new total is in bounds |
| SummaryTheorems.CurrencyPermutes | crates/application/src/dashboard_summary.rs:118-127 | with one currency it does not matter which span names it first |
| SummaryMeaning.TokenTotalIs | crates/application/src/dashboard_summary.rs:41-46 | the token total of a span by its metrics: the direct sum, else the total, else the cumulative sum, else the accumulated figure |
| SummaryMeaning.OneSpan | crates/application/src/dashboard_summary.rs:56-130 | the accumulator after one span, and when it refuses it, in terms of the span alone |
| SummaryMeaning.SummariesJoin | crates/application/src/dashboard_summary.rs:56-130 | two lists one after the other are accepted exactly when each is and the joined totals are in bounds, and give the joined state; with the row above this determines the state for every list |
| SummaryMeaning.DirectTotalIsReported | crates/application/src/dashboard_summary.rs:132-180 | where every span has its direct counts the total reported, by the accumulator and by the browser, is input plus output |
| SummaryMeaning.NamesAreCountedOnce | ui/report/view-summary.ts:26-70 | the browser counts every named session and turn once, and no empty name |
| ViewSummary.AccumulatorAgreesWithView | ui/report/view-summary.ts:26-70 | for every accepted list: the browser's llm, tool and error counts, token status and token total; its cost status exactly unless it says estimated where currencies are mixed or a billable span has a status of its own; its cost whenever one is reported |
| ViewSummary.ValidSpansAgree | crates/contracts/src/lib.rs:1655-1697 | over spans that satisfy the report contract a reported input or output sum is the browser's, the availability of tokens can be read off the metrics, and the cost status is the browser's exactly unless the browser says estimated of several currencies |
| ViewSummary.MixedCurrenciesDisagree | crates/application/src/dashboard_summary.rs:118-127 | a contract-conforming list, two requests in any two currencies, on which the cost statuses differ |
| ViewSummary.ComponentsAgreeIff | ui/report/view-summary.ts:52-53 | for any accepted list, conforming or not: input and output tokens, where reported, agree with the browser exactly when the spans to which tokens do not apply add nothing |
| ViewSummary.ReportedCurrencyIsEveryones | crates/application/src/dashboard_summary.rs:158-178 | a reported cost is in one currency, named by every span with a cost |
| ViewSummary.SummarizeVisible | ui/report/view-summary.ts:26-70 | the browser's loop computes the whole-list summary |
| ViewSummary.CostStatusByEvidence | ui/report/view-summary.ts:78-85 | the browser's cost status in terms of which statuses occur among billable spans |
| ViewSummary.DashboardSummaryAccumulator.Push | crates/application/src/dashboard_summary.rs:61-66 | accepts the span whole, or rejects it and leaves the accumulator unchanged |
| ViewSummary.DashboardSummaryAccumulator.PushChecked | crates/application/src/dashboard_summary.rs:68-130 | the checks and updates in the order of the source |
| HarnessBatching.ReceiveBatch | xtask/src/main.rs:5464-5496 | a batch is non-empty and within both bounds, nothing is lost or reordered, and it ends only when full, when the next message does not fit or when none is there in time |
| HarnessBatching.Drain | xtask/src/main.rs:5377-5447 | what is committed is always whole fitting batches from the front of the stream, observed as one stream; whether all of it is committed depends on the messages and the store, never on the timing |
| HarnessBatching.ObservationsChain | xtask/src/main.rs:5497-5527 | each observation's previous cursor is the last one of its source in the whole stream |
| HarnessBatching.ObserveConcat | xtask/src/main.rs:5408-5420 | cutting the stream into batches does not change what is observed |
| HarnessBatching.DecodeIff | xtask/src/main.rs:5497-5527 | a message is a command exactly if it is the encoding of one with a cursor and a short enough name |
| HarnessPipeline.EveryBarrierCanEnd | xtask/src/main.rs:5211-5221 | in every reachable state a barrier under way, with a living drain and only commands sent, can be brought to its end by the two threads alone |
| HarnessPipeline.SendIsAcceptedIff | crates/local-runtime/src/ingress.rs:71-96 | a message is accepted exactly if it is at most 65536 bytes long while the worker serves, the drain lives and fewer than 64 messages wait |
| HarnessPipeline.NextIsTakenIff | xtask/src/main.rs:5464-5496 | an open batch of fewer than 32 takes the next message if it fits, and is closed by one that does not |
| HarnessPipeline.CompletedBarrierIsDurable | xtask/src/main.rs:5211-5221 | when a durability barrier completes, every message accepted before it is in the store, over all interleavings of both threads |
| HarnessPipeline.EveryRunKeepsInv | xtask/src/main.rs:5377-5496 | in every interleaving committed, batched and set-aside messages are exactly those received, in order, and every committed message is reported once |
| HarnessPipeline.AwaitDurableCount | xtask/src/main.rs:5449-5462 | stops with the first report that reaches the target, or fails when the reports cannot |
| HarnessMonitor.StreamMeansCycles | xtask/src/main.rs:5585-5628 | after any accepted stream latest is the last closed cycle's bytes, max the largest of any closed cycle, samples one fewer than the headers |
| HarnessMonitor.LineMeans | xtask/src/main.rs:5585-5628 | what any line does, by its fields: a header opens a cycle, a row adds its last two fields, anything else is refused |
| HarnessMonitor.AcceptedIff | xtask/src/main.rs:909-913 | a cycle is accepted exactly if two have begun and the last closed one began no earlier than the boundary; its figure is the bytes of the rows of that cycle |
| HarnessMonitor.CyclesAreTheStream | xtask/src/main.rs:5585-5628 | the cycles are headers with their rows and together the whole stream |
| HarnessMonitor.MaxOfIsTheMaximum | xtask/src/main.rs:5601 | the running maximum is a member and an upper bound |
| HarnessMonitor.AcceptedCycleIsAfterBoundary | xtask/src/main.rs:909-913 | with a clock that does not run backwards the cycle accepted after the drain lies wholly after the boundary |
| HarnessMonitor.MacNetworkMonitor.RecordLine | xtask/src/main.rs:5585-5628 | one line moves the monitor as specified; a rejected line leaves it alone |
| HarnessGate.GateImpliesReleaseCheck | xtask/src/main.rs:5972-6063 | five numbered results that the release gate accepts render to evidence that passes the run and the aggregate checks |
| HarnessGate.ReleaseCheckImpliesGate | xtask/src/main.rs:6482-6529 | and evidence that passes was rendered from results that the gate accepts, as far as the manifest tells |
| HarnessGate.ReleaseGateIff | xtask/src/main.rs:5972-6063 | both ways: the gate accepts numbered results exactly if no error was met, the rendered evidence passes, and no latency or idle sample is missing |
| HarnessGate.AggregatesAreExtremes | xtask/src/main.rs:6531-6600 | every aggregate but the count of samples is a figure that some run had, and no run had a worse one |
| HarnessGate.RenderedIsConsistent | xtask/src/main.rs:6531-6600 | the rendered aggregates are those of the rendered runs |
| HarnessGate.ValidateReleaseRuns | xtask/src/main.rs:6482-6529 | the loop with its table of seen numbers accepts exactly five distinct runs from 1 to 5 within the limits |
| HarnessGate.ReleaseRunsCoverOneToFive | xtask/src/main.rs:6482-6496 | such runs cover every number from 1 to 5 |
| HarnessGate.PercentilesAreOrdered | xtask/src/main.rs:7190-7192 | percentiles of a sorted list are monotone and split it at the rank they name |
| HarnessGate.CollectRunResults | xtask/src/main.rs:1395-1417 | runs are numbered from 1 in order and the first failure ends the workload |
| SavedViews.EveryListReloads | ui/report/paged.ts:106-141 | from whatever was stored, through any saves and deletes, written or refused, the list can be written and a reload shows exactly the list shown now |
| SavedViews.DeleteIsExact | ui/report/paged.ts:134 | a delete takes out exactly the view at its position and keeps the others in order; refused or not written, it changes nothing |
| SavedViews.SaveIsExact | ui/report/paged.ts:106-121 | a save puts the view first, keeps the others in order and drops only the twentieth of a full list; refused or not written, it changes nothing |
| SavedViews.ReadOnlyFromEnvelopes | ui/report/view-state.ts:92-107 | candidates come only from a well-formed envelope, one for each of its views, with the four dimensions under their own keys |
| SavedViews.SavedViewsRoundTrip | ui/report/view-state.ts:92-115 | any list of distinct persistable filters within the limit is written without an error and read back as it was |
| SavedViews.ParsedIsClean | ui/report/view-state.ts:92-107 | whatever text is stored and however it decodes, what is read is persistable, distinct and within the limit, and nothing persistable is dropped while there is room |
| SavedViews.SavedTextIsShort | ui/report/view-state.ts:93 | twenty saved filters are written in under 15300 characters, below the 32768 that are read |
| SavedViews.PrintReads | ui/report/view-state.ts:109-115 | the written text reads back member by member |
| SavedViews.PersistableIsPrintable | ui/report/view-state.ts:117-128 | persistable filters need no escape and at most 762 characters |
| SavedViews.ParseSaved | ui/report/view-state.ts:92-107 | the loop with its early exit is the reference |

## Left out

- Dashboard: `onState` emissions, the abort controller behind a private-detail call, request URLs and schema validation; fixed texts are codes. Cursor histories are left as they are on `refresh_pending` and on expiry, a page number is not the length of the history, and a timer armed for a later task is not moved forward: the model does as the code does and claims nothing more.
- Dashboard rendering, focus handling and icons, and the parts of ui/report/main.ts and ui/report/paged.ts that only draw.
- Settings: rendering, `setBusy`, dialogs, toasts, storage of the session token, `openDashboard`; whether the form and the schema accept a draft is an input of the save click. The refresh button is taken to be on offer once a configuration has arrived, because the page that holds it is drawn then.
- Settings server: validation, locking and file replacement beyond the comparison of revisions; authorisation is an answer with an error code.
- SettingsTheorems.EditSurvivesConflictsIff: is about edits made while no rebase is under way; edits made while one is are the subject of `SettingsInFlight.EditDuringRebaseIsKeptIff`.
- Adapter: reading the file with its permission checks, JSON decoding, SHA-256 and the durable projection behind the payload hash, which are functions of the environment; a decoder that meets an unknown field is one that does not decode.
- Adapter: lengths are those of 64-bit `usize`; timestamps and token counts are unbounded natural numbers, so only the subtraction that the code checks can fail.
- Summary: the cost of a sum in floating point, and the separate passes that count distinct sessions and turns, which the accumulator receives as numbers.
- HarnessBatching.Drain: storage admission and the store are oracles per batch; the projection rebuilt at the end, the processor token and the UTF-8 check, which text read by lines always passes, are not modelled.
- HarnessPipeline.EveryRunKeepsInv: the enqueue deadline and its retries are one accepted or refused send.
- DashboardHistory.WindowDepth: is about the traces; the span history is bounded by the same push, and is started anew by every served selectTrace.
- HarnessMonitor: splitting a line into fields and parsing a number are given; staleness and the polling loop around the check are not modelled.
- HarnessGate: the text of the manifest is its figures; the tables of protocol texts, error allow-lists and host data are not modelled. Figures that are not finite are ordered last. `percentile_f64` takes the same rank of a list sorted by that order and is not modelled apart.
- Harness: spawning processes, launchctl, lsof, ps and nettop, file permissions and the fixture server.
- Saved views: keys are written in one fixed order; a list read from text in another order is written back in this one, which reads the same. `paginate` and `buildTimeline` are not modelled.
- BoundedRead.ReadBoundedResponse: decoding the bytes it returns as UTF-8, which may still fail, is not modelled.
- The SQLite store, the report-view catalogue, reservations, budget policy and TLS, and all build scripts.
