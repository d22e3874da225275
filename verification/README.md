# Service assurance: verified model

A Dafny model of four parts of the service-assurance demo, with proofs of what they promise.

| part | modules |
|---|---|
| dispatch ranking and the crew-hour scheduler | `DispatchRanking`, `CandidateOrder`, `CrewScheduler`, `SchedulerValue`, `SchedulerTiers`, `SchedulerStability`, `SchedulerPriority`, `UrgencyDecay`, `SchedulerAging`, `RemoteHolding` |
| the evidence-import engine: lock, batch life, validation pipeline | `BatchLock`, `StoredNames`, `ImportBatch`, `BatchRules`, `BatchHistory`, `LockedBatch`, `EvidenceRows`, `IdentityIndex`, `MrLifecycle`, `MrOrder`, `EvidencePipeline`, `EvidenceIntegrity`, `EvidenceAcceptance`, `EvidenceBinding`, `EvidenceVerdict`, `BatchValidation` |
| the case-graph checker, the projection it guards, and the cost ledger | `CaseGraph`, `CaseGraphChecker`, `RelationalIntegrity`, `DispatchProjection`, `CaseListing`, `AcceptedGraphs`, `CostLedger`, `CostProperties`, `PriceList` |
| install watch and care correlation | `CohortSelection`, `CohortDraws`, `InstallWatch`, `WatchTimelines`, `WatchIncidents`, `WatchCohort`, `CareCorrelation`, `CareDesk` |

`Common` holds optional values, results and Python's `round`; `Ordering` holds filters, sums, `str` order and a stable
`sorted` whose stability and order-independence are proved. `dafny verify dfyconfig.toml` checks everything.

Code that loops or updates records is written as methods and classes and proved equal to a function of its inputs or
old state; the promises are then lemmas about those functions. Units are exact integers: cents, hundredths of an hour,
ten-thousandths of urgency, thousandths of score, metres, seconds or milliseconds, and microseconds of watch age.
`str` timestamps that the code sorts as text stay text under Python's `str` order.

## Main results

- **Scheduler.** The greedy day is the lexicographically greatest selection that fits, improves with more hours, is
  in every tier within one job and the score rounding of the best possible value, does not depend on input order, and
  shields each tier from later mainland work. A medical or breached-SLA job is deferred for its size alone, and nothing
  else on the mainland disturbs such work. Waiting never costs a job its place, under the real urgency decay. Holding
  back a remote run is safe and ends within three days. Ranked slots go to candidates in order of protection and gain.
- **Import.** The directory lock keeps every run exclusive for holding times up to 300 s, and for no longer bound; up to
  that bound any interleaving of calls leaves what the finished ones make of the batch one after another. After any
  such run no report is stale, revisions only accumulate and only by `replace`, no stored file is overwritten, and a
  materialized batch is frozen but for the run and time that its scenario names.
- **Validation.** It raises exactly when some row has a time off the calendar, a confidence that is no number, or, on an
  install that has or gets a service, an install time that cannot be read (`EvidenceAcceptance.RaisesIff`). Otherwise
  accepted rows have distinct ids and resolve to exactly one accepted identity row with which they agree; a row is
  quarantined exactly for one of five listed faults; a row's device or service alone decides which service it ends up
  with; a batch is rejected exactly when it has no sound identity row, and otherwise its verdict is that of its worst
  issue.
- **Projection.** The checker accepts exactly the sound graphs; in them every row finds the rows it refers to, and the
  reconciliation of identifier sets is decided by the presence of ids alone. Every case is priced by a formula over its
  facts; executed cost is independent of the route and additive over visits.
- **Watch and care.** Every scenario runs its stated course; verdicts are final; rates are proportions; the cohort
  exists exactly when the services suffice, and its shared-tap pair ends in one incident; incidents end the same for
  every contact order; a second refresh changes nothing.

## Where the code does less than its text says

- One row can stop a whole import. The parser quarantines a row whose timestamp it cannot read, but the cross-source
  checks read the install time again, without a guard, on every install row that has or gets a service
  (`EvidenceAcceptance.UnzonedInstallStopsImport`). A confidence that is no number, or is empty outside
  `dvsum_caddi_insights`, and a time that leaves the calendar when turned into UTC do the same; the exact condition is
  `EvidenceAcceptance.RaisesIff`. Nothing is filed or reported then, and until a file is uploaded the batch gets no
  report whatever else is called (`BatchHistory.RaisingFilesBlockBatch`).
- The lock is safe only while critical sections last at most 300 s, which nothing enforces:
  `BatchLock.OverstayBreaksExclusion` gives the run, `BatchLock.SafeExactlyUpToStaleLimit` the exact condition. An
  analysis holds it during a model call and then writes back the manifest it read before: when it overstays, an upload
  made meanwhile is undone and its stored file is next to be overwritten (`LockedBatch.OverstayUndoesUpload`, exact
  condition in `LockedBatch.AppendsExactlyUpToStaleLimit`). A dead holder's lock is reaped safely as long as no two
  waiters are about to remove it at once; whenever two are, both can enter (`BatchLock.LoneReaperIsSafe`,
  `BatchLock.TwoReapersCollide`).
- A materialized batch is called immutable, but materialize itself has no such guard: a second call for another run
  rewrites `scenario.json` and leaves a copy under each run (`BatchHistory.SecondRunRewritesScenario`). Nothing changes
  exactly when later successful calls repeat the recorded run (`BatchHistory.UnchangedIffRepeated`); everything but the
  scenario's run, time and copies is frozen in any case.
- A validation that raises has already deleted the recommendation, so a manifest may say ANALYZED without one
  (`BatchHistory.RaisingValidationLosesReport`, exact condition in `BatchHistory.AnalyzedWithoutReportIff`). The files
  in question have been validated once already, since any upload resets the status; for the second validation to raise,
  reading or writing a file must fail.
- `predictive_ticket_id` on an incident is whatever the last matching contact wrote
  (`CareDesk.TwoContactsDisagree`). It is independent of contact order exactly when the incident's matched contacts
  share one ticket (`CareDesk.ContactTicketIdOrderFreeIff`).
- A refresh that meets a review of an unknown incident raises after the tickets are rewritten, and no refresh over the
  same incidents repairs the reviews it did not reach (`CareDesk.RefreshTwice`); such a review can catch up once its own
  incident changes again (`CareDesk.MissedReview`). Records just built are never in that state
  (`CareDesk.BuiltReviewsAreKnown`).
- The closed-incident check reads an index that keeps the last row of each id, so a CLOSED row shadowed by a later open
  row, or one without an id, passes unresolved (`AcceptedGraphs.ShadowedClosureEscapes`, exact condition in
  `DispatchProjection.EveryClosedRowResolvedIff`).
- A work order or MR whose id is null or absent is projected under the id `None`, so the identifier sets of an accepted
  graph differ (`AcceptedGraphs.UnnamedWorkOrderBreaksMatch`, exact condition in
  `DispatchProjection.AcceptedGraphsReconcile`).
- Manifests without a case id are never checked, and one without a subscriber row makes the projection raise `KeyError`
  (`AcceptedGraphs.StrayManifestCannotBePlaced`, exact condition in `DispatchProjection.AcceptedGraphsProject`).
- An MR may cite the work order of another case (`AcceptedGraphs.ForeignOrderIsAccepted`): the checker rules that out
  exactly for graphs with at most one indexed case (`AcceptedGraphs.ForeignRuledOutIff`), and the services on the two
  records tell exactly when no two cases share one (`AcceptedGraphs.ServicesTellIff`).
- A case with a sound resolution is projected as not validated when a later validation of it fails
  (`AcceptedGraphs.LaterFailureHidesResolution`, `AcceptedGraphs.ResolvedButNotValidatedIff`).
- The docstring of `aged_value_at_risk` says a waiting low-value ticket eventually outranks any newcomer by score. Both
  multipliers are capped (`SchedulerAging.SmallTicketNeverCatchesUp`): it does so before its deadline exactly when its
  score in the last moment before it suffices (`SchedulerAging.OvertakesInTimeIff`).
- The identity map declares one row per validity period, yet of several rows of one service only the first is accepted
  (`EvidenceAcceptance.ImportTwoPeriods`, exact condition in `EvidenceAcceptance.IdentityAcceptedIff`).
- An executed dispatch without work orders still counts one truck roll (`CostProperties.ExecutedCountsAreFlags`).
- `docs/INSTALL_ASSURANCE_WATCH.md` (lines 52-53) describes RECOVERING as recovering from a remote action, but an
  install whose scenario plans one is RECOVERING from its start, before anything has gone wrong
  (`WatchTimelines.RecoveringFromNothing`): the action has been taken exactly when the finding has come
  (`WatchTimelines.RecoveringIsRepairedIff`).

## Model

| member | source | states |
|---|---|---|
| Ordering.StrLeIff | src/lpr_cpe_demo/commercial.py:379-380 | ids are ordered by the first character in which they differ, a prefix first |
| DispatchRanking.Rank | src/lpr_cpe_demo/commercial.py:340-380 | the ranking holds exactly the assessed candidates, sorted by (protected first, falling net benefit, ticket id) |
| DispatchRanking.ProtectedFirst | src/lpr_cpe_demo/commercial.py:379-380 | every protected ticket stands before every commercial one, and the commercial ones fall in net benefit |
| DispatchRanking.CutHalves | src/lpr_cpe_demo/commercial.py:497-505 | cutting a protected-then-commercial list gives protected = min(cut, all) and commercial = the rest, each a prefix |
| DispatchRanking.CutConserves | src/lpr_cpe_demo/commercial.py:478-505 | for any ranking: scheduled followed by deferred is the ranking, and addressed + deferred value at risk is its total, as for cost |
| DispatchRanking.AllocationConserves | src/lpr_cpe_demo/commercial.py:442-505 | after ranking and allocating, no candidate is lost or repeated and the value at risk splits exactly in cents |
| DispatchRanking.ProtectionsFillSlotsFirst | src/lpr_cpe_demo/commercial.py:452-471 | protected_scheduled = min(slots, protected_total), and a commercial ticket is scheduled only if no protected one is deferred |
| DispatchRanking.CommercialSlotsAreBestSpent | src/lpr_cpe_demo/commercial.py:478-505 | no selection of as many commercial candidates has a greater total net benefit than the scheduled ones |
| CandidateOrder.BetterCandidatesFirst | src/lpr_cpe_demo/commercial.py:340-505 | in terms of the candidates: whoever is shielded, or equally shielded and gains more by the visit (or as much, with the smaller ticket id) than a scheduled ticket, is scheduled |
| CandidateOrder.LosingVisitsLast | src/lpr_cpe_demo/commercial.py:478-505 | no unshielded visit that loses money is scheduled while one that pays is put off |
| CandidateOrder.TotalsAreOfCandidates | src/lpr_cpe_demo/commercial.py:442-505 | value addressed and put off add up to account value times households over the candidates, costs likewise; the shielded candidates take as many slots as there are |
| CandidateOrder.BandIff | src/lpr_cpe_demo/commercial.py:330-337 | PROTECTED exactly when some protection applies, else POSITIVE over 250 dollars of gain, MARGINAL down to nothing, NEGATIVE below |
| CrewScheduler.DeadlineIsStrictest | src/lpr_cpe_demo/commercial.py:641-645 | the deadline is imposed by some protection, none is stricter, and it never exceeds the 72 h default |
| CrewScheduler.BuildJobs | src/lpr_cpe_demo/commercial.py:712-728 | one job per ranked dispatch, in order, with its ticket, dispatch and crew-hours, the age of its ticket (0 when unknown) and the deadline of its protections |
| CrewScheduler.JobLeOrder | src/lpr_cpe_demo/commercial.py:787-789 | the three-tier sort key induces a total preorder on jobs |
| CrewScheduler.ReleaseRemote | src/lpr_cpe_demo/commercial.py:776-787 | the remote run is held back exactly when batching is on, there are one to three remote jobs and none has 18 h of slack or less |
| CrewScheduler.ServeNext | src/lpr_cpe_demo/commercial.py:794-799 | one turn of the greedy loop: the job is served exactly when it fits the hours left, else deferred |
| CrewScheduler.FillDay | src/lpr_cpe_demo/commercial.py:791-806 | the loop over running remainders computes the greedy plan of its candidates |
| CrewScheduler.ScheduleDay | src/lpr_cpe_demo/commercial.py:753-806 | ValueError for negative hours, otherwise the greedy plan over the sorted released jobs, with the hours and the worth of what is scheduled as totals |
| CrewScheduler.Conservation | src/lpr_cpe_demo/commercial.py:776-806 | scheduled + deferred + held is a permutation of the input and the hours used never exceed the day |
| CrewScheduler.DeferredTooBig | src/lpr_cpe_demo/commercial.py:794-799 | whatever is skipped needs more hours than are left in the end; whatever is taken fitted |
| CrewScheduler.BoundedInversion | src/lpr_cpe_demo/commercial.py:787-806 | no deferred job fits the hours left, and one that outranks a scheduled job needs strictly more hours than it |
| CrewScheduler.GreedyIsLexGreatest | src/lpr_cpe_demo/commercial.py:794-799 | against any selection that fits, the greedy one is lexicographically at least as great in sort-key order |
| CrewScheduler.ScheduleIsLexOptimal | src/lpr_cpe_demo/commercial.py:787-799 | the scheduled set is the lexicographically greatest selection of released jobs that fits, and itself fits |
| CrewScheduler.MoreHoursNeverWorse | src/lpr_cpe_demo/commercial.py:787-799 | more crew-hours never give a lexicographically smaller selection |
| SchedulerValue.ScoreError | src/lpr_cpe_demo/commercial.py:700-705 | rounding the score to three places moves the worth of a job by at most 0.0005 per crew-hour |
| SchedulerValue.ExchangeBound | src/lpr_cpe_demo/commercial.py:787-799 | swapping jobs ahead of a score for jobs behind it gains nothing but rounding error |
| SchedulerValue.FirstDeferred | src/lpr_cpe_demo/commercial.py:794-799 | everything before the first skipped job was taken, and that job overfills the day |
| SchedulerValue.KnapsackAtCut | src/lpr_cpe_demo/commercial.py:787-799 | the jobs before the cut plus the job at it are worth any selection that fits, up to the slack |
| SchedulerValue.KnapsackBound | src/lpr_cpe_demo/commercial.py:700-799 | one tier, positive hours, non-negative worth: scheduled worth + first deferred + 0.0005 x (2 x hours + its hours) >= any selection that fits |
| SchedulerValue.KnapsackGreedy | src/lpr_cpe_demo/commercial.py:700-799 | the same over any sorted jobs of one tier and any hours |
| SchedulerTiers.ThreeTiers | src/lpr_cpe_demo/commercial.py:787-789 | the sorted jobs are those of earlier tiers, of the tier, and of later tiers, in that order |
| SchedulerTiers.TierPlan | src/lpr_cpe_demo/commercial.py:787-799 | seen from one tier, the day is the greedy plan of its jobs over the hours that earlier tiers leave |
| SchedulerTiers.TierKnapsackBound | src/lpr_cpe_demo/commercial.py:700-799 | for every tier of any day: its scheduled worth + its first deferred job + rounding slack >= any selection of its released jobs that fits the hours left to it |
| SchedulerStability.OrderIndependence | src/lpr_cpe_demo/commercial.py:776-799 | with distinct ticket ids, permuting the input leaves scheduled and deferred identical and held equal as a multiset |
| SchedulerStability.EarlierTiersLead | src/lpr_cpe_demo/commercial.py:787-789 | the released jobs up to a tier come first, in an order that those jobs alone decide |
| SchedulerStability.LaterTiersDoNotInterfere | src/lpr_cpe_demo/commercial.py:776-799 | adding, removing or changing mainland jobs of later tiers changes neither what is scheduled nor deferred of a tier and those before it |
| SchedulerPriority.DeferredForSizeAlone | src/lpr_cpe_demo/commercial.py:618-806 | a deferred medical or breached-SLA job needs strictly more hours than every scheduled job with neither; a deferred job past its deadline more than every scheduled job that is neither past its own nor so protected |
| SchedulerPriority.NothingDisturbsPromisedWork | src/lpr_cpe_demo/commercial.py:776-799 | days with the same remote and the same medical or breached-SLA jobs schedule and defer those identically, whatever else waits on the mainland |
| SchedulerPriority.OrdinaryWorkWaits | src/lpr_cpe_demo/commercial.py:776-799 | and mainland jobs that are neither change nothing for those or for jobs past their deadline |
| SchedulerPriority.ServedInTurn | src/lpr_cpe_demo/commercial.py:787-799 | scheduled and deferred jobs are listed by medical or breached SLA, then past the deadline, then the rest; within each by falling score and ticket id |
| SchedulerPriority.LateIff | src/lpr_cpe_demo/commercial.py:588-645 | a built job is past its deadline at once when its SLA is breached, else 4, 12, 24, 36 or 72 hours after it was raised, as its protections say |
| SchedulerPriority.HeldIff | src/lpr_cpe_demo/commercial.py:776-787 | all remote jobs are held exactly when batching is on, there are at most three and each has more than 18 h left, and else none |
| SchedulerPriority.HeldJobsCanWait | src/lpr_cpe_demo/commercial.py:776-787 | no held job is medical, breached, late or without service; none is older than 54 h, or 6 h with a lifeline or vulnerable customer |
| SchedulerPriority.AgedValueIsNearest | src/lpr_cpe_demo/commercial.py:662-671 | the value grows by 18 percent of its base a day to two and a half times the base after 200 h, to the nearest cent |
| SchedulerPriority.FreeJobsScoreNothing | src/lpr_cpe_demo/commercial.py:700-705 | a job without crew-hours scores nothing |
| SchedulerAging.AgedValueRange | src/lpr_cpe_demo/commercial.py:662-671 | the aged value lies between the base value and two and a half times it |
| UrgencyDecay.UrgencyIsNearest | src/lpr_cpe_demo/commercial.py:648-659 | the integer multiplier is `1 + 11 * 0.5 ** (slack / 18)` rounded to the nearest ten-thousandth, a value halfway to the even one |
| UrgencyDecay.TieGoesToEven | src/lpr_cpe_demo/commercial.py:648-659 | such a value: with 90 h of slack the multiplier 1.34375 is rounded up to 1.3438 |
| UrgencyDecay.PullGrows | src/lpr_cpe_demo/commercial.py:648-659 | less slack never gives a smaller multiplier |
| SchedulerAging.PullIsProper | src/lpr_cpe_demo/commercial.py:648-659 | that multiplier lies between one and twelve and never falls as slack shrinks, which the lemmas below ask of any multiplier |
| SchedulerAging.BuiltJobsArePulled | src/lpr_cpe_demo/commercial.py:712-728 | jobs built with a multiplier carry the one their slack gives |
| SchedulerAging.UrgencyGrows | src/lpr_cpe_demo/commercial.py:648-659 | for any such multiplier the urgency of a job never falls as it ages and stays between 1 and 12 |
| SchedulerAging.ScoreGrows | src/lpr_cpe_demo/commercial.py:648-705 | waiting never lowers a score |
| SchedulerAging.WaitingNeverDemotes | src/lpr_cpe_demo/commercial.py:787-789 | whatever a job stood before, it still stands before at any later age |
| SchedulerAging.ScoreIsCapped | src/lpr_cpe_demo/commercial.py:648-671 | no waiting lifts a score above the one at 2.5 times the value and urgency 12 |
| SchedulerAging.OvertakesInTimeIff | src/lpr_cpe_demo/commercial.py:662-671 | a waiting ordinary job stands before an ordinary newcomer at some time before its deadline if and only if its score in the last moment before it is high enough |
| SchedulerAging.OnlyTheDeadlineOvertakes | src/lpr_cpe_demo/commercial.py:662-671 | a newcomer above the cap is overtaken at an age if and only if that age is past the deadline |
| SchedulerAging.SmallTicketNeverCatchesUp | src/lpr_cpe_demo/commercial.py:662-671 | a 100-dollar and a 10000-dollar ticket, equally far away, that no waiting short of the deadline reorders |
| SchedulerAging.BuiltJobsKeepTheirPlace | src/lpr_cpe_demo/commercial.py:712-789 | for the jobs of ranked dispatches under the real multiplier: at any later age a job still stands before whatever it stood before |
| SchedulerAging.BuiltJobsOvertakeIff | src/lpr_cpe_demo/commercial.py:648-728 | and it overtakes an ordinary newcomer before its deadline if and only if it does so in the last moment before it |
| RemoteHolding.JobOfIsBuilt | src/lpr_cpe_demo/commercial.py:712-728 | with ages >= 0 every built job has a non-negative age and the deadline of its protections |
| RemoteHolding.HoldingIsSafe | src/lpr_cpe_demo/commercial.py:776-785 | fewer than four jobs are held; each has more than 18 h of slack and is neither overdue nor of absolute precedence |
| RemoteHolding.HeldOnDay | src/lpr_cpe_demo/commercial.py:780-785 | a ticket that ages 24 h a day can be held on the first three daily calls only |
| RemoteHolding.HeldAtMostThreeDays | src/lpr_cpe_demo/commercial.py:780-785 | whatever else the daily calls contain, no ticket is held more than three times |
| BatchLock.StepKeepsInv | src/lpr_cpe_demo/digital_twin/external_evidence.py:514-535 | each file-system step keeps: the lock exists exactly while its maker is inside, and nobody removes a foreign lock |
| BatchLock.MutualExclusion | src/lpr_cpe_demo/digital_twin/external_evidence.py:514-535 | any processes, any interleaving: with critical sections of at most 300 s at most one is inside and no lock is stolen |
| BatchLock.OverstayBreaksExclusion | src/lpr_cpe_demo/digital_twin/external_evidence.py:522-526 | for every bound over 300 s a concrete run in which a waiter removes a live lock and two processes are inside |
| BatchLock.SafeExactlyUpToStaleLimit | src/lpr_cpe_demo/digital_twin/external_evidence.py:514-535 | all runs with holding times up to a bound are safe if and only if the bound is at most 300 s |
| BatchLock.LoneReaperIsSafe | src/lpr_cpe_demo/digital_twin/external_evidence.py:514-535 | holders may die: with timely live ones and never two waiters about to reap at once, at most one is inside and no live holder loses its lock |
| BatchLock.TwoReapersCollide | src/lpr_cpe_demo/digital_twin/external_evidence.py:522-526 | from every state with two waiters about to reap, four steps without passing time bring both inside |
| BatchLock.DeadLockDrawsTwoReapers | src/lpr_cpe_demo/digital_twin/external_evidence.py:522-526 | a run in which a holder dies and two waiters judge its lock stale |
| StoredNames.PaddedRoundTrip | src/lpr_cpe_demo/digital_twin/external_evidence.py:632 | the zero-padded revision is all digits and reads back as the same number |
| StoredNames.StoredNameReads | src/lpr_cpe_demo/digital_twin/external_evidence.py:631-633 | a stored name is the source, `__v`, the revision in at least three digits, `__` and the safe name |
| StoredNames.StoredNameIdentifies | src/lpr_cpe_demo/digital_twin/external_evidence.py:631-633 | two equal stored filenames come from the same source and revision, whatever the uploaded names |
| ImportBatch.ProductionNamesIdentify | src/lpr_cpe_demo/digital_twin/external_evidence.py:631-633 | the naming used by uploads identifies source and revision |
| ImportBatch.BatchDirectory.constructor | src/lpr_cpe_demo/digital_twin/external_evidence.py:538-570 | a new batch is CREATED with no files and no reports |
| ImportBatch.BatchDirectory.AddCsv | src/lpr_cpe_demo/digital_twin/external_evidence.py:604-674 | oversize, NUL byte, MATERIALIZED and unreplaced uploads fail and change nothing, in particular any upload without `replace` of a source the batch has; otherwise the next revision is recorded |
| ImportBatch.BatchDirectory.StoreRevision | src/lpr_cpe_demo/digital_twin/external_evidence.py:628-673 | the next revision is chained to the current file, appended to the history, stored, and every derived report dropped |
| ImportBatch.BatchDirectory.DiscardReports | src/lpr_cpe_demo/digital_twin/external_evidence.py:654-671 | reports and manifest entries derived from the old files go; nothing else changes |
| ImportBatch.BatchDirectory.Validate | src/lpr_cpe_demo/digital_twin/external_evidence.py:1479-1574 | refused once MATERIALIZED; downstream reports go even if the pipeline raises; otherwise the verdict becomes the status |
| ImportBatch.BatchDirectory.Analyze | src/lpr_cpe_demo/digital_twin/external_evidence.py:2271-2361 | the guards in their order; otherwise a recommendation over the current file references and one more history entry |
| ImportBatch.BatchDirectory.Materialize | src/lpr_cpe_demo/digital_twin/external_evidence.py:2558-2616 | needs a recommendation, a run that exists when one is named, and a buildable projection; then scenario with run and time, its copy under the run, and status; otherwise nothing changes |
| ImportBatch.FreshKept | src/lpr_cpe_demo/digital_twin/external_evidence.py:2271-2361 | every operation, failing or not, keeps all reports fresh and the status in step with them |
| ImportBatch.EvidenceStep | src/lpr_cpe_demo/digital_twin/external_evidence.py:628-653 | every operation keeps the revision chains and stored files intact and only extends them |
| ImportBatch.EveryRunIsFresh | src/lpr_cpe_demo/digital_twin/external_evidence.py:1479-1574 | after any calls on a new batch: reports are computed over the current revisions, no REJECTED batch has a recommendation, chains are intact, at most 20 analyses |
| ImportBatch.EvidenceIsAppendOnly | src/lpr_cpe_demo/digital_twin/external_evidence.py:628-653 | over any run no recorded revision, raw file or analysis entry is changed or dropped |
| ImportBatch.UploadsNeverOverwrite | src/lpr_cpe_demo/digital_twin/external_evidence.py:631-637 | after any run the next upload has a filename that no stored file has, and revision = history length + 1 |
| BatchRules.HistoryGrowsIff | src/lpr_cpe_demo/digital_twin/external_evidence.py:604-674 | a history changes exactly by an upload of that source of at most 15 MiB without NUL, to a batch that is not MATERIALIZED and lacks the source or is told to replace it |
| BatchRules.UploadRecords | src/lpr_cpe_demo/digital_twin/external_evidence.py:631-674 | such an upload ends the history with what was sent under its digest, stores it under the recorded name and drops every report |
| BatchRules.RevisionsNeedReplace | src/lpr_cpe_demo/digital_twin/external_evidence.py:628-653 | over any run a source has at most one revision more than it has uploads with `replace`; without any it has at most one |
| BatchRules.StoredFilesAreClean | src/lpr_cpe_demo/digital_twin/external_evidence.py:604-625 | over any run every recorded file is at most 15 MiB and no stored file has a NUL |
| BatchRules.ValidationRecords | src/lpr_cpe_demo/digital_twin/external_evidence.py:1479-1574 | a validation takes effect exactly on a batch that is not MATERIALIZED: its verdict becomes report and status, downstream reports go, evidence stays |
| BatchRules.AnalysesGrowIff | src/lpr_cpe_demo/digital_twin/external_evidence.py:2271-2361 | an analysis is recorded exactly for 1 to 50 services, a completing agent, a report that is not REJECTED, an open batch and fewer than 20 earlier ones |
| BatchRules.AnalysesAreRequested | src/lpr_cpe_demo/digital_twin/external_evidence.py:2351-2360 | a run records at most one analysis for each such request |
| BatchRules.MaterializesIff | src/lpr_cpe_demo/digital_twin/external_evidence.py:2558-2616 | an open batch becomes MATERIALIZED exactly with a recommendation, a quality report, a buildable projection and either no run named or one that exists |
| BatchRules.ErrorIff | src/lpr_cpe_demo/digital_twin/external_evidence.py:604-630 | FileExistsError is raised exactly for an unreplaced upload that passes the earlier checks, FileNotFoundError exactly when materializing for a missing run; all else is ValueError |
| BatchHistory.MaterializedStep | src/lpr_cpe_demo/digital_twin/external_evidence.py:2576-2616 | on a MATERIALIZED batch every call but a successful materialize changes nothing, and that one only the scenario and its copies |
| BatchHistory.MaterializedIsFrozen | src/lpr_cpe_demo/digital_twin/external_evidence.py:626-627 | once MATERIALIZED, status, evidence, quality, recommendation, analyses and scenario id never change, whatever is called |
| BatchHistory.MaterializedRunsAreOver | src/lpr_cpe_demo/digital_twin/external_evidence.py:2576-2616 | a run that materializes its batch fixes that part of it for good |
| BatchHistory.UnchangedIffRepeated | src/lpr_cpe_demo/digital_twin/external_evidence.py:2592-2615 | a MATERIALIZED batch never changes again if and only if every later successful materialize names the recorded run, and, if times count, the recorded time |
| BatchHistory.SecondRunRewritesScenario | src/lpr_cpe_demo/digital_twin/external_evidence.py:2571-2611 | materializing for one run and then another rewrites the scenario and leaves copies under both |
| BatchHistory.AnalyzedIffAnalysis | src/lpr_cpe_demo/digital_twin/external_evidence.py:2351-2360 | a batch is ANALYZED or MATERIALIZED exactly when an analysis succeeded and no upload, validation or analysis since |
| BatchHistory.AnalyzedWithoutReportIff | src/lpr_cpe_demo/digital_twin/external_evidence.py:1488-1497 | ANALYZED without a recommendation if and only if a validation raised after the last successful analysis with no successful upload or validation since |
| BatchHistory.RaisingValidationLosesReport | src/lpr_cpe_demo/digital_twin/external_evidence.py:1488-1497 | upload, validate, analyze, raising validate: ANALYZED without a recommendation |
| BatchHistory.RaisingFilesBlockBatch | src/lpr_cpe_demo/digital_twin/external_evidence.py:1479-1574 | while every validation raises and nothing is uploaded, an unvalidated batch gets no quality report and no recommendation, and its status and evidence stay |
| LockedBatch.WrittenAlone | src/lpr_cpe_demo/digital_twin/external_evidence.py:2289-2360 | a call that writes back over the batch it found does what the call does to that batch |
| LockedBatch.StaysUndisturbed | src/lpr_cpe_demo/digital_twin/external_evidence.py:514-535 | while holders are timely a move leaves the batch alone or is one call taking its effect whole, and every call inside has seen the batch as it is |
| LockedBatch.InterleavedIsSequential | src/lpr_cpe_demo/digital_twin/external_evidence.py:514-535 | any processes, any interleaving of their lock steps, reads and writes, holding times up to 300 s: the batch is what the finished calls make of a new one in order |
| LockedBatch.InterleavedIsFresh | src/lpr_cpe_demo/digital_twin/external_evidence.py:1479-1574 | so at every point reports are fresh and revision chains and stored files intact |
| LockedBatch.TimelyRunsAppend | src/lpr_cpe_demo/digital_twin/external_evidence.py:628-653 | and no move drops a recorded revision, raw file or analysis |
| LockedBatch.StaleManifest | src/lpr_cpe_demo/digital_twin/external_evidence.py:2289-2360 | an analysis begun before an upload and ended after it takes the upload out of the history, and the next upload gets the name of its stored file |
| LockedBatch.OverstayUndoesUpload | src/lpr_cpe_demo/digital_twin/external_evidence.py:522-526 | for every bound over 300 s a concrete run in which that happens |
| LockedBatch.AppendsExactlyUpToStaleLimit | src/lpr_cpe_demo/digital_twin/external_evidence.py:514-535 | every interleaving with holding times up to a bound keeps what was recorded if and only if the bound is at most 300 s |
| MrLifecycle.GroupByMr | src/lpr_cpe_demo/digital_twin/external_evidence.py:1368-1370 | each MR maps to exactly its rows in input order, MRs in order of first appearance |
| MrLifecycle.ScanEvents | src/lpr_cpe_demo/digital_twin/external_evidence.py:1380-1410 | one pass with a running maximum raises the issues of the event sequence |
| MrLifecycle.SequenceChecks | src/lpr_cpe_demo/digital_twin/external_evidence.py:1367-1410 | the issues of all MRs, group by group |
| MrLifecycle.PeakIsMaximum | src/lpr_cpe_demo/digital_twin/external_evidence.py:1410 | the remembered rank exceeds a bound exactly when some earlier known event does |
| MrLifecycle.ScanFlagsRegressions | src/lpr_cpe_demo/digital_twin/external_evidence.py:1381-1410 | an event is in error exactly when it has a known status and an earlier event has strictly higher rank |
| MrLifecycle.FlaggedExactlyWhenRegressing | src/lpr_cpe_demo/digital_twin/external_evidence.py:1367-1410 | the same over a whole import, across all MRs and in event order |
| MrLifecycle.SequenceNamesItsRows | src/lpr_cpe_demo/digital_twin/external_evidence.py:1398-1409 | no row outside the checked ones is put in error |
| MrLifecycle.AcceptedLevelsRise | src/lpr_cpe_demo/digital_twin/external_evidence.py:1398-1410 | an accepted known-status event never stands below an earlier known one of its MR |
| MrLifecycle.LatestByMr | src/lpr_cpe_demo/digital_twin/external_evidence.py:1706-1709 | overwriting along the global event order leaves, for each MR, its own latest event |
| MrLifecycle.OpenMrs | src/lpr_cpe_demo/digital_twin/external_evidence.py:1706-1714 | exactly the MRs whose latest event is not CLOSED, REJECTED or CANCELLED, each with that event |
| MrLifecycle.OpenExactlyWhenNoneFinal | src/lpr_cpe_demo/digital_twin/external_evidence.py:1706-1714 | an MR with known statuses is reported open exactly when it has accepted events and none is CLOSED or REJECTED |
| MrOrder.SortedInOrder | src/lpr_cpe_demo/digital_twin/external_evidence.py:1367-1379 | sorting puts two events in the order of their times, and of reading where the times are the same |
| MrOrder.OutOfOrderIff | src/lpr_cpe_demo/digital_twin/external_evidence.py:1367-1410 | an event is in error exactly when an earlier event of its MR is further along CREATED, ACCEPTED, ASSIGNED, REPAIRED, CLOSED or REJECTED |
| MrOrder.OpenIff | src/lpr_cpe_demo/digital_twin/external_evidence.py:1706-1714 | an MR is reported open exactly when it has a latest event and that is neither CLOSED nor REJECTED nor CANCELLED |
| IdentityIndex.BuildIndexes | src/lpr_cpe_demo/digital_twin/external_evidence.py:981-998 | for every key, looking it up in the service or device index is searching the identity list from its end |
| IdentityIndex.CleanCorrelationAgrees | src/lpr_cpe_demo/digital_twin/external_evidence.py:1021-1083 | a row that correlates without error carries the service of a listed identity and agrees with its device, technology and delimiter type |
| IdentityIndex.CorrelateErrorIff | src/lpr_cpe_demo/digital_twin/external_evidence.py:1028-1083 | correlating puts a row in error if and only if it resolves to no single identity or contradicts the one it has |
| IdentityIndex.ResolvedIsFound | src/lpr_cpe_demo/digital_twin/external_evidence.py:1021-1044 | the identity a row resolves to through the indexes is the one found by searching the identity list from its end |
| IdentityIndex.UniqueServiceLookup | src/lpr_cpe_demo/digital_twin/external_evidence.py:986-990 | when services are unique, the service index returns the one row that has the key |
| IdentityIndex.CorrelateKeepsIdentity | src/lpr_cpe_demo/digital_twin/external_evidence.py:1060-1083 | correlating changes neither a row's place nor its record id, and names only that row in its issues |
| EvidencePipeline.Validation.constructor | src/lpr_cpe_demo/digital_twin/external_evidence.py:1498-1522 | validation starts from the parsed rows and the parser's issues |
| EvidencePipeline.Validation.DuplicateChecks | src/lpr_cpe_demo/digital_twin/external_evidence.py:1086-1109 | appends one error for each row whose record id an earlier row has, naming the first such row |
| EvidencePipeline.Validation.RewriteRows | src/lpr_cpe_demo/digital_twin/external_evidence.py:1018-1083 | replaces every row in place by its correlated form and appends the issues of each |
| EvidencePipeline.Validation.CorrelateIdentity | src/lpr_cpe_demo/digital_twin/external_evidence.py:1001-1083 | with no error-free identity one missing-map error and nothing else; otherwise all rows rewritten through indexes that agree with search |
| EvidencePipeline.CheckValues | src/lpr_cpe_demo/digital_twin/external_evidence.py:1128-1163 | one error for each telemetry row whose value lies outside its metric range or is not a number |
| EvidencePipeline.Validation.ValueChecks | src/lpr_cpe_demo/digital_twin/external_evidence.py:1124-1163 | the telemetry errors are appended; no row is rewritten |
| EvidencePipeline.FindError | src/lpr_cpe_demo/digital_twin/external_evidence.py:1279-1283 | a loop that may raise stops at the first row on which it does |
| EvidencePipeline.FirstErrorIff | src/lpr_cpe_demo/digital_twin/external_evidence.py:1279-1283 | such a loop raises exactly when some row makes it |
| EvidencePipeline.Validation.CrossSourceChecks | src/lpr_cpe_demo/digital_twin/external_evidence.py:1265-1353 | raises with nothing added when an install time, or else an event time, cannot be read; otherwise the warnings of the other checks are appended |
| EvidencePipeline.Validation.JtrackChecks | src/lpr_cpe_demo/digital_twin/external_evidence.py:1367-1410 | the MR sequence issues of the JTrack rows are appended |
| EvidenceIntegrity.FileSource | src/lpr_cpe_demo/digital_twin/external_evidence.py:1439-1469 | the accepted rows of a source are its rows without an error, in order; each row is tallied once under its disposition |
| EvidenceIntegrity.WriteNormalized | src/lpr_cpe_demo/digital_twin/external_evidence.py:1413-1477 | every source gets its accepted rows, each disposition is counted, and accepted + quarantined is the number of rows |
| EvidenceIntegrity.RunPasses | src/lpr_cpe_demo/digital_twin/external_evidence.py:1503-1529 | the error that the parsed rows predict, if any; otherwise the passes in their order leave the rows and issues that the pass specifications give |
| EvidenceIntegrity.ValidateRows | src/lpr_cpe_demo/digital_twin/external_evidence.py:1503-1559 | the error that the parsed rows predict, if any; otherwise, for any warnings of the other checks: every source filed, accepted + quarantined = total, and the status follows from accepted rows and issues |
| EvidenceIntegrity.FinalTimeErrors | src/lpr_cpe_demo/digital_twin/external_evidence.py:1279-1287 | what the time checks find on the correlated rows can be told from the parsed rows and the identities |
| BatchValidation.ValidateDirectory | src/lpr_cpe_demo/digital_twin/external_evidence.py:1479-1574 | on a batch directory: refused once MATERIALIZED; else the rows' error is raised and only downstream reports go, or status, accepted and total rows become the quality report and the status |
| EvidenceIntegrity.FindingsAreTelemetry | src/lpr_cpe_demo/digital_twin/external_evidence.py:1124-1163 | the value checks put no row but telemetry in error |
| EvidenceIntegrity.ErrorSources | src/lpr_cpe_demo/digital_twin/external_evidence.py:1525-1529 | a row is in error at the end exactly when one of the five passes put it in error |
| EvidenceIntegrity.DuplicateIsError | src/lpr_cpe_demo/digital_twin/external_evidence.py:1095-1107 | of two rows with one record id the later is in error, even if rows share their place |
| EvidenceIntegrity.DuplicateErrorIff | src/lpr_cpe_demo/digital_twin/external_evidence.py:1086-1109 | the duplicate pass puts a row in error if and only if an earlier row has its record id |
| EvidenceIntegrity.AcceptedRecordIdsDistinct | src/lpr_cpe_demo/digital_twin/external_evidence.py:1086-1109 | accepted rows have pairwise distinct record ids |
| EvidenceIntegrity.SelectedAreAccepted | src/lpr_cpe_demo/digital_twin/external_evidence.py:1005-1008 | the identity rows selected for the indexes are exactly the finally accepted identity rows |
| EvidenceIntegrity.ServiceIndexIsExact | src/lpr_cpe_demo/digital_twin/external_evidence.py:986-990 | for an accepted identity the service index returns that row, and no other accepted identity shares its service |
| EvidenceIntegrity.AcceptedRowsResolve | src/lpr_cpe_demo/digital_twin/external_evidence.py:1021-1083 | every accepted other row agrees with an accepted identity row |
| EvidenceIntegrity.MapIssueIffNoneSelected | src/lpr_cpe_demo/digital_twin/external_evidence.py:1009-1016 | the missing-map issue is present exactly when no identity row was selected |
| EvidenceIntegrity.RejectedIffNoIdentity | src/lpr_cpe_demo/digital_twin/external_evidence.py:1538-1540 | a batch whose validation completes is REJECTED exactly when every identity row, if any, is in error |
| EvidenceVerdict.VerdictIff | src/lpr_cpe_demo/digital_twin/external_evidence.py:1530-1546 | of every report: REJECTED without accepted rows or with the missing-map issue; otherwise WITH_QUARANTINE exactly with some ERROR, WITH_WARNINGS exactly with a WARNING and no ERROR, VALIDATED with neither |
| EvidenceVerdict.QuarantineShows | src/lpr_cpe_demo/digital_twin/external_evidence.py:1447-1546 | a report with a quarantined row that is not REJECTED says WITH_QUARANTINE; VALIDATED means nothing quarantined and no WARNING |
| EvidenceVerdict.QuarantineVerdictIff | src/lpr_cpe_demo/digital_twin/external_evidence.py:1503-1546 | a report that is not REJECTED says WITH_QUARANTINE if and only if the parser reported an ERROR or some row is quarantined |
| EvidenceVerdict.QuarantineCountsErrors | src/lpr_cpe_demo/digital_twin/external_evidence.py:1447-1477 | the quarantined rows are those some ERROR names, and the three dispositions account for all rows |
| EvidenceVerdict.DispositionIff | src/lpr_cpe_demo/digital_twin/external_evidence.py:1447-1456 | a row is quarantined with an ERROR, accepted with a warning with a WARNING alone |
| EvidenceIntegrity.ReferentialIntegrity | src/lpr_cpe_demo/digital_twin/external_evidence.py:1525-1546 | in a batch not REJECTED each accepted other row carries the service of the accepted identity that the index returns, and agrees with it |
| EvidenceIntegrity.AcceptedMrEventsOpenReport | src/lpr_cpe_demo/digital_twin/external_evidence.py:1679-1714 | over what the whole pipeline accepts, for any analysis boundary and service: an MR is reported open if and only if it has eligible accepted events there and none is CLOSED or REJECTED |
| EvidenceAcceptance.TreatedErrorIff | src/lpr_cpe_demo/digital_twin/external_evidence.py:1018-1083 | a loop that finds fault only with the row it treats puts a row in error if and only if treating that row does |
| EvidenceAcceptance.CorrelationErrorIff | src/lpr_cpe_demo/digital_twin/external_evidence.py:1018-1083 | the correlation loop puts a row in error if and only if correlating that row does |
| EvidenceAcceptance.ValueErrorIff | src/lpr_cpe_demo/digital_twin/external_evidence.py:1141-1163 | a telemetry row is in error from the value checks if and only if its value is implausible |
| EvidenceAcceptance.SequenceErrorIff | src/lpr_cpe_demo/digital_twin/external_evidence.py:1367-1410 | an MR event is in error from the sequence check if and only if it stands behind one of strictly higher rank |
| EvidenceAcceptance.QuarantinedIff | src/lpr_cpe_demo/digital_twin/external_evidence.py:1447-1454 | if validation completes, a row is quarantined if and only if the parser faulted it, an earlier row has its record id, it does not correlate, its value is implausible or it takes its MR back |
| EvidenceAcceptance.IdentityAcceptedIff | src/lpr_cpe_demo/digital_twin/external_evidence.py:1086-1109 | an identity row is accepted if and only if the parser passed it and no earlier row has its service id as record id |
| EvidenceBinding.ServiceIsKept | src/lpr_cpe_demo/digital_twin/external_evidence.py:1021-1044 | an accepted row that names a known service keeps it |
| EvidenceBinding.DeviceBinds | src/lpr_cpe_demo/digital_twin/external_evidence.py:1021-1083 | an accepted row whose device id, else MAC, else serial belongs to one accepted identity has that identity's service, so it named no other known one |
| EvidenceBinding.StrangersAreQuarantined | src/lpr_cpe_demo/digital_twin/external_evidence.py:1028-1044 | a row with neither a known service nor a known device is quarantined |
| EvidenceBinding.OwnValuesAreKept | src/lpr_cpe_demo/digital_twin/external_evidence.py:1060-1083 | an accepted row takes service, and device, technology and delimiter where it had none, from an accepted identity, and is otherwise as the parser read it |
| EvidenceBinding.AcceptedReadingsAreBelievable | src/lpr_cpe_demo/digital_twin/external_evidence.py:1124-1163 | accepted telemetry has a reading its metric can have, the ranges written out |
| EvidenceBinding.OnlyReadingsAtFault | src/lpr_cpe_demo/digital_twin/external_evidence.py:1124-1163 | telemetry that the parser passes, with its own id and a fitting identity, is quarantined only for its reading |
| EvidenceAcceptance.ImportTwoPeriods | src/lpr_cpe_demo/digital_twin/external_evidence.py:1086-1109 | of two sound identity rows of one service the import accepts and files the first and quarantines the second |
| EvidenceAcceptance.RaisesIff | src/lpr_cpe_demo/digital_twin/external_evidence.py:789-862 | validation raises if and only if some row has a declared or event time off the calendar, a confidence that is no number, or is an install that has or gets a service and whose install time cannot be read |
| EvidenceAcceptance.RaisedForAReason | src/lpr_cpe_demo/digital_twin/external_evidence.py:789-862 | the error it raises: OverflowError only for a time off the calendar, ValueError only for a confidence or an install time that cannot be read |
| EvidenceAcceptance.OneInstallStopsImport | src/lpr_cpe_demo/digital_twin/external_evidence.py:1279-1283 | an import that completes raises once an install row that names a service and has such a time is added, whatever the parser said of that row |
| EvidenceAcceptance.UnzonedInstallStopsImport | src/lpr_cpe_demo/digital_twin/external_evidence.py:1279-1283 | a sound identity row and an install row without a timezone, which the parser only quarantines: the import raises ValueError |
| CaseGraph.IndexIsSearch | src/lpr_cpe_demo/digital_twin/dispatch_projection.py:354-355 | for every key the index returns the last row that has it, and nothing for the empty key |
| CaseGraphChecker.DuplicateValues | src/lpr_cpe_demo/digital_twin/dispatch_projection.py:371-377 | exactly the non-empty keys that occur more than once; none exactly when all non-empty keys differ |
| CaseGraphChecker.CheckManifest | src/lpr_cpe_demo/digital_twin/dispatch_projection.py:408-441 | no issue exactly when service, truth domain, subscriber, root incident, decision and action all fit the case |
| CaseGraphChecker.CheckManifests | src/lpr_cpe_demo/digital_twin/dispatch_projection.py:401-441 | no issue exactly when every indexed manifest is sound |
| CaseGraphChecker.CheckLocal | src/lpr_cpe_demo/digital_twin/dispatch_projection.py:443-457 | no issue exactly when every record belongs to a known case and names no other service or root incident |
| CaseGraphChecker.CheckMrs | src/lpr_cpe_demo/digital_twin/dispatch_projection.py:464-467 | no issue exactly when every cited work order exists |
| CaseGraphChecker.CheckResolutions | src/lpr_cpe_demo/digital_twin/dispatch_projection.py:468-488 | no issue exactly when every resolution cites an existing, same-case, fully passing validation |
| CaseGraphChecker.CheckClosedIncidents | src/lpr_cpe_demo/digital_twin/dispatch_projection.py:490-500 | no issue exactly when some resolution names each incident that is indexed as CLOSED |
| CaseGraphChecker.ValidationResult | src/lpr_cpe_demo/digital_twin/dispatch_projection.py:853-875 | passes exactly when the service test passed, telemetry is stable and all five closure checks are True |
| CaseGraphChecker.IndexedManifests | src/lpr_cpe_demo/digital_twin/dispatch_projection.py:395-408 | with distinct case ids, checking the index is checking every manifest that has a case id |
| CaseGraphChecker.ValidateCaseGraph | src/lpr_cpe_demo/digital_twin/dispatch_projection.py:380-511 | the graph is accepted if and only if it is sound; the answer counts the indexed cases |
| RelationalIntegrity.SoundIsLinked | src/lpr_cpe_demo/digital_twin/dispatch_projection.py:380-511 | in every accepted graph, without indexes: ids differ and every row finds the subscriber, incident, decision, action, manifest, work order and passing validation that it refers to |
| RelationalIntegrity.SoundIffLinked | src/lpr_cpe_demo/digital_twin/dispatch_projection.py:380-511 | where incident and validation ids differ, the checker accepts exactly the graphs in which that holds and some resolution names each closed incident |
| DispatchProjection.PlaceAll | src/lpr_cpe_demo/digital_twin/dispatch_projection.py:1437-1447 | the case loop succeeds exactly when every manifest has a subscriber row and its group a planning site; it raises KeyError or an integrity error, only the latter if no subscriber row is missing and only the former if no site is |
| DispatchProjection.Project | src/lpr_cpe_demo/digital_twin/dispatch_projection.py:1437-1447 | one case per manifest in record-time order, or KeyError / integrity error |
| CaseListing.CasesAreManifests | src/lpr_cpe_demo/digital_twin/dispatch_projection.py:1437-1447 | the projection has one case for each manifest, by record time |
| CaseListing.CaseListsItsRecords | src/lpr_cpe_demo/digital_twin/dispatch_projection.py:1437-1472 | a case lists the work orders and MRs with its case id, each once and by record time, under their printed ids |
| CaseListing.NamelessCaseListsNothing | src/lpr_cpe_demo/digital_twin/dispatch_projection.py:358-368 | a case without an id lists nothing |
| CaseListing.PlaceableIff | src/lpr_cpe_demo/digital_twin/dispatch_projection.py:1437-1447 | a manifest can be placed exactly when its printed service has a subscriber whose delimiter, or the service without one, has a planning site |
| DispatchProjection.Reconcile | src/lpr_cpe_demo/digital_twin/dispatch_projection.py:1715-1764 | missing and orphaned id sets are the two set differences, duplicates empty exactly when ids differ |
| DispatchProjection.ProjectedIdsAreRowIds | src/lpr_cpe_demo/digital_twin/dispatch_projection.py:1715-1731 | the cases of local records list exactly the ids those records print |
| DispatchProjection.AcceptedGraphsReconcile | src/lpr_cpe_demo/digital_twin/dispatch_projection.py:1715-1764 | in an accepted graph no id is missing, and the id sets are equal if and only if no record lacks its id |
| DispatchProjection.BuildProjection | src/lpr_cpe_demo/digital_twin/dispatch_projection.py:1407-1764 | succeeds exactly for sound, placeable graphs, and then all_identifier_sets_match holds exactly when the ids are present |
| DispatchProjection.AcceptedGraphsProject | src/lpr_cpe_demo/digital_twin/dispatch_projection.py:1437-1447 | an accepted, sited graph projects exactly when the manifests without a case id, which the checker skips, have subscriber rows |
| DispatchProjection.ClosedIncidentsAreResolved | src/lpr_cpe_demo/digital_twin/dispatch_projection.py:490-500 | in an accepted graph every incident indexed as CLOSED has a resolution in its own case with a fully passing validation |
| DispatchProjection.EveryClosedRowResolvedIff | src/lpr_cpe_demo/digital_twin/dispatch_projection.py:490-500 | every CLOSED row is resolved if and only if each has an id and those shadowed by an open row are still named by a resolution |
| AcceptedGraphs.ShadowedClosureEscapes | src/lpr_cpe_demo/digital_twin/dispatch_projection.py:490-500 | an accepted graph whose CLOSED root incident, shadowed by a later open row, has no resolution |
| AcceptedGraphs.UnnamedWorkOrderBreaksMatch | src/lpr_cpe_demo/digital_twin/dispatch_projection.py:1715-1764 | an accepted graph whose work order has no id, so that the id sets differ |
| AcceptedGraphs.StrayManifestCannotBePlaced | src/lpr_cpe_demo/digital_twin/dispatch_projection.py:1437-1447 | an accepted graph with a manifest without case id and subscriber, which no planning sites make projectable |
| AcceptedGraphs.ForeignOrderIsAccepted | src/lpr_cpe_demo/digital_twin/dispatch_projection.py:464-467 | an accepted graph in which an MR cites the work order of another case |
| AcceptedGraphs.ForeignOrderFits | src/lpr_cpe_demo/digital_twin/dispatch_projection.py:443-467 | any accepted graph with two places in different cases stays accepted when a work order with a fresh id in one and an MR that cites it in the other are added |
| AcceptedGraphs.ForeignRuledOutIff | src/lpr_cpe_demo/digital_twin/dispatch_projection.py:443-467 | for the cases of an accepted graph the checker lets no MR cite a foreign work order, whatever the field records, if and only if at most one case is indexed |
| AcceptedGraphs.ServicesTellIff | src/lpr_cpe_demo/digital_twin/dispatch_projection.py:443-467 | for all field records: of an accepted MR and its work order that both name a service, different services mean different cases and conversely, if and only if no two cases share a service |
| AcceptedGraphs.ResolvedButNotValidatedIff | src/lpr_cpe_demo/digital_twin/dispatch_projection.py:1423-1472 | a resolved case is projected as not validated if and only if its last validation fails, behind the passing one that is cited |
| AcceptedGraphs.LaterFailureHidesResolution | src/lpr_cpe_demo/digital_twin/dispatch_projection.py:1423-1472 | an accepted graph with such a case |
| CostLedger.VisitHasShape | src/lpr_cpe_demo/digital_twin/dispatch_projection.py:1030-1157 | a visit has one on-site line, a ferry or overnight line exactly when its work order or the route says so, and lasts as long as planning, travel and site work |
| CostLedger.CostVisit | src/lpr_cpe_demo/digital_twin/dispatch_projection.py:1030-1157 | one turn of the visit loop, executed or forecast, yields a visit of that shape |
| CostLedger.CostVisits | src/lpr_cpe_demo/digital_twin/dispatch_projection.py:1030-1157 | the visit loop, branching inside, yields the lines of all visits in order and the running counts and durations |
| CostLedger.CostDispatch | src/lpr_cpe_demo/digital_twin/dispatch_projection.py:996-1169 | handover, visits and parts of a dispatch action, executed or forecast |
| CostLedger.CostProjection | src/lpr_cpe_demo/digital_twin/dispatch_projection.py:921-1223 | the whole ledger, its two totals and its counters |
| PriceList.CaseIsPriced | src/lpr_cpe_demo/digital_twin/dispatch_projection.py:921-1223 | total cost and minutes of any case as a formula over its facts, route and work orders: rates, minutes, kilometres, ferries, nights, handover, parts, opening and closing |
| PriceList.VisitCosts | src/lpr_cpe_demo/digital_twin/dispatch_projection.py:1030-1157 | an executed visit costs 6.67 planning, twice the drive at the crew rate plus 0.60 per kilometre, 180 for a ferry, the time on site, 220 for a night |
| PriceList.VisitTakes | src/lpr_cpe_demo/digital_twin/dispatch_projection.py:1030-1157 | and takes 8 minutes, the drive both ways and the time on site |
| PriceList.ForecastCosts | src/lpr_cpe_demo/digital_twin/dispatch_projection.py:1096-1157 | a forecast visit costs what the planning route says, with 0.45 per road minute each way |
| PriceList.ForecastTakes | src/lpr_cpe_demo/digital_twin/dispatch_projection.py:1096-1157 | and takes 8 minutes, the route both ways and the standard time on site |
| PriceList.WorkOrderReplaced | src/lpr_cpe_demo/digital_twin/dispatch_projection.py:1030-1203 | another work order of the same crew in place of one changes cost and minutes by what the two visits differ in |
| PriceList.KilometreCosts | src/lpr_cpe_demo/digital_twin/dispatch_projection.py:1053-1072 | 1000 more metres on one executed work order with a recorded distance cost exactly 1.20 more and no minute |
| PriceList.ArrivingLater | src/lpr_cpe_demo/digital_twin/dispatch_projection.py:878-915 | an arrival two minutes later, within its visit, adds two minutes: four of travel, less two on site |
| PriceList.TallyIsOfRecords | src/lpr_cpe_demo/digital_twin/dispatch_projection.py:878-915 | recorded travel and site minutes are listed visit by visit, and completeness means all five records of every visit |
| PriceList.ProvenanceIsHonest | src/lpr_cpe_demo/digital_twin/dispatch_projection.py:921-1223 | no line of an executed case comes from the planning route, and none of a forecast from a record |
| PriceList.OnSiteProvenance | src/lpr_cpe_demo/digital_twin/dispatch_projection.py:1076-1095 | on-site time is called recorded exactly when both timestamps are there in order |
| CostProperties.ExecutedCostIgnoresRoute | src/lpr_cpe_demo/digital_twin/dispatch_projection.py:1040-1095 | for any two routes an executed case has the same ledger, totals and counts |
| CostProperties.ForecastIgnoresExecution | src/lpr_cpe_demo/digital_twin/dispatch_projection.py:1096-1132 | a forecast depends on the work orders only through the crew they name |
| CostProperties.TruckRollsOnOneSide | src/lpr_cpe_demo/digital_twin/dispatch_projection.py:997-1002 | a dispatch counts truck rolls on exactly one of the executed and forecast sides, other actions on neither |
| CostProperties.ExecutedCostIsAdditive | src/lpr_cpe_demo/digital_twin/dispatch_projection.py:1202-1203 | executed totals are a fixed part plus, for each visit, its own cost and its planning, travel and site minutes |
| CostProperties.VisitOrderDoesNotMatter | src/lpr_cpe_demo/digital_twin/dispatch_projection.py:1030-1203 | with the same crew, reordering the work orders changes no total and no count |
| CostProperties.CountersMatchLedger | src/lpr_cpe_demo/digital_twin/dispatch_projection.py:965-1157 | the ledger shows as many ferry, overnight and on-site lines as the counters claim |
| CostProperties.ExecutedTallyCounts | src/lpr_cpe_demo/digital_twin/dispatch_projection.py:1040-1095 | the running counters of executed visits count flags and known durations, and completeness means every visit is complete |
| CostProperties.ExecutedCountsAreFlags | src/lpr_cpe_demo/digital_twin/dispatch_projection.py:1076-1095 | executed ferry and overnight counts are the numbers of work orders flagged so; truck rolls are their number, at least one |
| CostProperties.SummaryPartitions | src/lpr_cpe_demo/digital_twin/dispatch_projection.py:1246-1312 | forecast cost, computed as a remainder, is the cost of the forecast cases, and the two bases cover every case once |
| CohortSelection.CommonPair | src/lpr_cpe_demo/digital_twin/install_assurance.py:136-147 | none, or two HFC rows that share a delimiter |
| CohortSelection.AddFrom | src/lpr_cpe_demo/digital_twin/install_assurance.py:173-183 | the in-place circular probe appends what the pure probe finds and marks its service used |
| CohortSelection.DrawTakesFree | src/lpr_cpe_demo/digital_twin/install_assurance.py:176-183 | a probe takes an unused, identified row of the pool and comes back empty only when the pool has none |
| CohortSelection.FillSlots | src/lpr_cpe_demo/digital_twin/install_assurance.py:167-207 | the slot loop probes the right pool with the right token for each of up to twelve slots |
| CohortSelection.TopUp | src/lpr_cpe_demo/digital_twin/install_assurance.py:209-212 | the final pass, with its early stop, is the pass over all rows |
| CohortSelection.PickSubscribers | src/lpr_cpe_demo/digital_twin/install_assurance.py:150-215 | the cohort exactly when 1 <= population <= rows, both technologies exist and there are that many distinct non-empty services; else ValueError |
| CohortDraws.DrawTakesFirstUnused | src/lpr_cpe_demo/digital_twin/install_assurance.py:173-183 | a draw appends the first row with an unused service, going round its pool from where the token points, and nothing if there is none |
| CohortDraws.PlacesDraw | src/lpr_cpe_demo/digital_twin/install_assurance.py:185-207 | place by place of the first twelve: which rows it draws from and with which token |
| CohortDraws.PairIsFirst | src/lpr_cpe_demo/digital_twin/install_assurance.py:136-147 | the pair is the first HFC row that shares its delimiter, with the next row that has it |
| CohortDraws.CohortIsFilledUp | src/lpr_cpe_demo/digital_twin/install_assurance.py:209-215 | beyond the twelve the cohort takes the unused rows in input order |
| CohortSelection.CohortIsDrawn | src/lpr_cpe_demo/digital_twin/install_assurance.py:150-215 | cohort rows are input rows with pairwise distinct non-empty services, never more than asked for |
| CohortSelection.CohortSize | src/lpr_cpe_demo/digital_twin/install_assurance.py:209-215 | the cohort reaches the population if and only if there are enough distinct non-empty services |
| CohortSelection.CohortMixesTechnologies | src/lpr_cpe_demo/digital_twin/install_assurance.py:185-207 | over rows with services of their own, a cohort of two or more starts with one HFC and one PON subscriber |
| CohortSelection.CommonPairIsWatched | src/lpr_cpe_demo/digital_twin/install_assurance.py:167-203 | over such rows, if a delimiter serves two HFC services and others exist, a cohort of eight or more holds that pair side by side after the first six slots |
| InstallWatch.ObservationSeesEvents | src/lpr_cpe_demo/digital_twin/install_assurance.py:251-262 | cutting the age to whole minutes for the last observation moves no planned event |
| InstallWatch.MaturitySettles | src/lpr_cpe_demo/digital_twin/install_assurance.py:557-580 | from hour 24 on neither the executed actions nor the effective maturity change |
| InstallWatch.PassedMeansStable | src/lpr_cpe_demo/digital_twin/install_assurance.py:464-478 | PASSED_24H implies GREEN, no incident, 24 h of age and a full tail since every executed service-affecting action |
| InstallWatch.VerdictsAreFinal | src/lpr_cpe_demo/digital_twin/install_assurance.py:464-478 | PASSED_24H and PROMOTED_TO_INCIDENT are absorbing as as_of grows, with the same incident |
| InstallWatch.WatchesSettle | src/lpr_cpe_demo/digital_twin/install_assurance.py:464-478 | 24 h plus the tail after its start every watch has its verdict, except an active_amber one, which stays ACTIVE |
| WatchTimelines.HealthIff | src/lpr_cpe_demo/digital_twin/install_assurance.py:320-341 | GREEN until the finding and from the stable event on; otherwise RED once the incident has come or for the active red scenario, else AMBER |
| WatchTimelines.PromotedIsRed | src/lpr_cpe_demo/digital_twin/install_assurance.py:320-341 | an episode promoted to an incident is RED until its stable event, and one whose finding has come is not GREEN until then |
| WatchTimelines.PromotedIff | src/lpr_cpe_demo/digital_twin/install_assurance.py:464-478 | an episode is promoted, and carries the incident, exactly when its planned incident has come |
| WatchTimelines.PassedIff | src/lpr_cpe_demo/digital_twin/install_assurance.py:464-478 | it has passed exactly when no incident has come, it is GREEN and it has reached its maturity |
| WatchTimelines.RecoveringIff | src/lpr_cpe_demo/digital_twin/install_assurance.py:464-478 | it is RECOVERING exactly while GREEN, short of maturity and not promoted, if its scenario plans a remote action |
| WatchTimelines.ActionPlanned | src/lpr_cpe_demo/digital_twin/install_assurance.py:400-443 | the planned actions: one of each kind whose event is planned, at its time; the remote action and the repair affect the service |
| WatchTimelines.DoneIff | src/lpr_cpe_demo/digital_twin/install_assurance.py:557-580 | an action is executed exactly when its event has come |
| WatchTimelines.OrdersIff | src/lpr_cpe_demo/digital_twin/install_assurance.py:721-754 | an episode names its work order from the dispatch on and its MR from the hand-over on |
| WatchTimelines.MaturityIs | src/lpr_cpe_demo/digital_twin/install_assurance.py:557-580 | the watch matures after 24 h, or one tail after the executed repair, else the executed remote action, if that is later |
| WatchTimelines.RecoveringIsRepairedIff | src/lpr_cpe_demo/digital_twin/install_assurance.py:464-478 | a RECOVERING episode has had its remote action if and only if its finding has come |
| WatchTimelines.RecoveringFromNothing | src/lpr_cpe_demo/digital_twin/install_assurance.py:464-478 | an install that has just started is RECOVERING without finding or action when its scenario plans one |
| WatchTimelines.PersistentCourse | src/lpr_cpe_demo/digital_twin/install_assurance.py:265-341 | persistent impairment: AMBER at 1 h, incident and RED at 3, work order at 5, MR at 7, closed and GREEN at 12.5 |
| WatchTimelines.CommonCauseCourse | src/lpr_cpe_demo/digital_twin/install_assurance.py:265-341 | shared-tap impairment: the same at 45 min, 1.5, 3, 4 and 8.5 h |
| WatchTimelines.RemoteCourses | src/lpr_cpe_demo/digital_twin/install_assurance.py:265-341 | the three remotely stabilized scenarios: when AMBER, acted on and GREEN; passed after 24 h or one tail after the action |
| WatchTimelines.IdleCourses | src/lpr_cpe_demo/digital_twin/install_assurance.py:265-341 | healthy watches pass at 24 h; the amber one stays AMBER from 2 h on; the red one is RED from 1 h on and an incident, never closed, from 3 |
| WatchTimelines.StartsAt | src/lpr_cpe_demo/digital_twin/install_assurance.py:243-248 | the active scenarios start 12, 18 and 20 h into the watch, the others with it |
| WatchTimelines.PassedHow | src/lpr_cpe_demo/digital_twin/install_assurance.py:664-675 | a watch that passed did so after a remote action exactly when its scenario plans one |
| WatchTimelines.PlacesOfScenarios | src/lpr_cpe_demo/digital_twin/install_assurance.py:218-240 | which place of the cohort plays which scenario; all others are healthy |
| InstallWatch.CollectEpisodes | src/lpr_cpe_demo/digital_twin/install_assurance.py:516-763 | one episode per install in order; an incident exists exactly when an episode was promoted to it, and is made of those episodes in order |
| InstallWatch.IncidentLists | src/lpr_cpe_demo/digital_twin/install_assurance.py:721-754 | an incident has the status and times its first episode gave it and lists the services, ids, work orders and MRs of all its episodes |
| InstallWatch.SortedSetHasAll | src/lpr_cpe_demo/digital_twin/install_assurance.py:766-770 | removing repeats and sorting keeps exactly the members of a list, once each and in order |
| InstallWatch.BuildWatch | src/lpr_cpe_demo/digital_twin/install_assurance.py:516-770 | the same for installs looked at as of a given time, with each incident's lists sorted and without repeats at the end |
| WatchIncidents.IncidentHolds | src/lpr_cpe_demo/digital_twin/install_assurance.py:704-770 | an incident exists exactly for an id that some episode was promoted to, and lists exactly the services, ids, work orders and MRs of those episodes, each once and in order |
| WatchIncidents.FirstGivesTimes | src/lpr_cpe_demo/digital_twin/install_assurance.py:704-754 | the first such episode gives the incident its opening and closing times |
| WatchCohort.SlotsAllDraw | src/lpr_cpe_demo/digital_twin/install_assurance.py:185-207 | with three general HFC and three PON rows of their own service each of the first six slots draws |
| WatchCohort.PairAtSix | src/lpr_cpe_demo/digital_twin/install_assurance.py:167-207 | then the shared-delimiter pair stands at places 6 and 7, which the common-cause scenario belongs to |
| WatchCohort.WatchSharedTap | src/lpr_cpe_demo/digital_twin/install_assurance.py:494-763 | from cohort to watch: from 1.5 h on the pair is promoted to one incident of its delimiter, which lists both services |
| InstallWatch.RateIsProportion | src/lpr_cpe_demo/digital_twin/install_assurance.py:481-486 | a rate of a part in its whole is the nearest hundred-thousandth, in [0, 1]; there is none exactly when the whole is empty |
| InstallWatch.RatesAreProportions | src/lpr_cpe_demo/digital_twin/install_assurance.py:772-783 | passed episodes are matured and remotely stabilized ones intervened, so both rates lie in [0, 1] |
| InstallWatch.PartitionsBalance | src/lpr_cpe_demo/digital_twin/install_assurance.py:802-809 | the lifecycle and the health partitions each sum to the number of episodes |
| CareCorrelation.MatchIsBestRanked | src/lpr_cpe_demo/digital_twin/care.py:61-87 | a contact matches exactly when its service has a ticket not opened after it, and no such ticket outranks the match |
| CareCorrelation.MatchPrefers | src/lpr_cpe_demo/digital_twin/care.py:61-87 | the match is proactive if some eligible ticket is, severe if some eligible one of its class is, and no eligible one of its class and severity was opened earlier |
| CareCorrelation.MatchIsFirstRead | src/lpr_cpe_demo/digital_twin/care.py:61-87 | among eligible tickets that agree in all three the match is the first in the list |
| CareCorrelation.AttachedState | src/lpr_cpe_demo/digital_twin/care.py:90-101 | opened_at is the minimum of the original and the matched openings; origin is PREDICTIVE if something matched, else kept or set to REACTIVE |
| CareCorrelation.ContactOrderIrrelevant | src/lpr_cpe_demo/digital_twin/care.py:90-101 | opening time and origin do not depend on the order of the matches |
| CareDesk.Incident.Absorb | src/lpr_cpe_demo/digital_twin/care.py:90-101 | a contact writes its match into the incident record in place |
| CareDesk.FileMatch | src/lpr_cpe_demo/digital_twin/care.py:90-101 | a contact updates its root incident and no other |
| CareDesk.OpenRecords | src/lpr_cpe_demo/digital_twin/care.py:103-162 | the ticket and review of a contact carry its incident, match and the status the incident shows |
| CareDesk.TakeContact | src/lpr_cpe_demo/digital_twin/care.py:75-162 | one contact updates its root incident only and opens one ticket and one review that show it |
| CareDesk.TakeContacts | src/lpr_cpe_demo/digital_twin/care.py:75-162 | the loop over all contacts leaves every incident as its own contacts left it |
| CareDesk.AfterIsAttachAll | src/lpr_cpe_demo/digital_twin/care.py:75-101 | an incident's final state depends on its own contacts only |
| CareDesk.BuildCareRecords | src/lpr_cpe_demo/digital_twin/care.py:44-163 | every incident ends with all its matches attached; per contact, in order, one new ticket and one new review mirror incident and match |
| CareDesk.ContactOrderDoesNotMatter | src/lpr_cpe_demo/digital_twin/care.py:75-101 | for any order of the contacts every incident ends with the same opening time and origin |
| CareDesk.ContactTicketIdOrderFreeIff | src/lpr_cpe_demo/digital_twin/care.py:75-101 | for any contacts, predictive_ticket_id is the same for every order of them if and only if the matched contacts of the incident share one ticket |
| CareDesk.TwoContactsDisagree | src/lpr_cpe_demo/digital_twin/care.py:75-101 | two contacts and two tickets of one service for which the order of the contacts decides the recorded id |
| CareDesk.RefreshTicket | src/lpr_cpe_demo/digital_twin/care.py:172-181 | the ticket mirrors its incident afterwards and reports a change exactly when it did not before |
| CareDesk.RefreshTickets | src/lpr_cpe_demo/digital_twin/care.py:172-181 | all tickets mirror their incidents; exactly the ids of those that did not are reported |
| CareDesk.RefreshReviews | src/lpr_cpe_demo/digital_twin/care.py:182-186 | reviews of changed tickets take their incident's status up to the first unknown incident, which raises KeyError; the rest stay |
| CareDesk.RefreshCareStatus | src/lpr_cpe_demo/digital_twin/care.py:166-187 | tickets are closed exactly when their incident is, with its time; the two changed sets are exactly what changed; KeyError is raised exactly when a review of a changed ticket names an unknown incident, and without it such a review shows its incident's status |
| CareDesk.RefreshTwice | src/lpr_cpe_demo/digital_twin/care.py:166-187 | a second refresh over the same incidents always succeeds, reports nothing and leaves every ticket and review, reached or not, as the first left it, even when the first raised |
| CareDesk.MissReview | src/lpr_cpe_demo/digital_twin/care.py:166-187 | two stale tickets, the first with a review of an unknown incident: the refresh raises and neither it nor a second one reaches the other review |
| CareDesk.ReopenAndRefresh | src/lpr_cpe_demo/digital_twin/care.py:166-187 | once the other incident alone is reopened, refreshing brings that review up to date |
| CareDesk.MissedReview | src/lpr_cpe_demo/digital_twin/care.py:166-187 | such a case, from records to the third refresh |
| CareDesk.BuiltReviewsAreKnown | src/lpr_cpe_demo/digital_twin/care.py:134-186 | records just built can always be refreshed: their reviews name registered incidents |

## Left out

- Floating point: amounts, hours, scores and distances are exact, so binary rounding of intermediate sums is not modelled.
- Value at risk, truck-roll cost, travel plans and crew-hours are given inputs: they come from float and geographic
  formulas. The urgency multiplier is exact: `UrgencyDecay` rounds the real power, not its float approximation.
- The CSV parser and row normaliser: replaced by `ParserOutput`, which states what they guarantee (rows known apart by
  source, file and line; an error-free identity row has its service id as record id; an install row's one declared
  timestamp is its install time). Which texts are timestamps or numbers is given; MAC addresses are already lower-cased.
- The CSV reader: a malformed header row raises before any row is read.
- Value and cross-source checks other than the telemetry ranges and the reading of times raise warnings only, and those
  are an arbitrary input; the correlation report and the timeline are not part of the model.
- Rows of one import are one sequence in reading order instead of a list per source; row and file limits appear only as
  parser issues.
- Texts of issues, their record-id lists and service ids.
- `ImportBatch` takes the pipeline's verdict, the agent's success, the existence of a run and the success of the
  projection as inputs; the pipeline itself is `EvidencePipeline` and `EvidenceIntegrity`.
- Crashes between two file writes of one call, batch creation details (id, mode, as_of), and timestamps other than the scenario's.
- `LockedBatch` reads a batch when a call enters and writes it when it leaves, since calls read before they write; dying
  holders are part of `BatchLock` only.
- File-system timing: a failing `stat` counts as a lock that is not stale, and each removal of the lock directory is one atomic step.
- Digests: SHA-256 and the ids derived from it are opaque, never assumed injective.
- CaseGraphChecker.CheckManifest: states when a manifest raises issues, not their wording or order, which only end up in an error text.
- CaseGraphChecker.CheckLocal: states when a record raises an issue, not which text it gets.
- CaseGraphChecker.CheckResolutions: states when a resolution raises an issue, not which text it gets.
- DispatchProjection.Project: a case is its id and its work-order and MR ids; routes, benchmarks, priorities and labels of a case are not modelled, and the site assignment is a given set.
- JSON cells are text, null or absent; a number in an id field is not modelled.
- CostProperties.SummaryPartitions: covers cost, case and truck-roll totals; the household, crew-share and ferry aggregates are sums of the same kind.
- `execution_economics_missing` and the notes and roles of ledger lines.
- CareDesk.BuildCareRecords: a ticket carries its incident, match and shown status, a review its ticket, incident and incident status; SLA dates, priorities and other copied fields are left out.
- Observation rows of the install watch: only the last one, at the age cut to whole minutes, since it alone decides health.
- Network-before-call metrics, contacts and CADDI contexts of the install watch.
- The workflow engine, agents, MCP tools, persistence, HTTP and user interfaces.
