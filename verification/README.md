# SalesPilot: a verified model of its service layer

SalesPilot is a sales back office around an AI agent. Its services keep rows in a database, hand work
to the agent, and are called back later, twice or never. This project models the services in which
that goes wrong most easily, and proves what every run of them keeps.

* **Feedback forms** (`Slugs`, `Questions`, `TypeCounts`, `Answers`, `Analytics`, `AnalyticsFacts`,
  `AnalyticsShown`, `FormStore`, `FormService`, `FormRuns`, `FormOutcomes`): the public-link slugs, the
  question normaliser, the answer check, the analytics, and the AI-suggestion job that lives inside a
  form. `FormService` is the service as a class over its table, each method proved against the function
  of `FormStore` that says what it does, to keep the invariant, and never to meet the unique index on
  slugs; `FormRuns` proves what holds after any sequence of operations, and `FormOutcomes` says of each
  operation, field by field and without those functions, when it is refused and what it writes.
* **Races against a unique index** (`PlaybookVersions`, `DiscoveryRuns`, `Scheduler`, `Dedup`,
  `DiscoveryService`): each call is a small program whose database steps interleave freely with those
  of any number of other calls, and whose database calls may fail. The theorems hold for every
  sequence of steps. The classes run one call against what others commit in between.
* **Lifecycles** (`TuiRegistry`, `TuiHandler`, `TuiSessions`, `AISettings`, `PlaybookJobs`,
  `PlaybookJobOutcomes`, `ProfileContent`, `Profiles`, `ProfileRaces`, `ProfileRaceFacts`): the terminal sessions, the AI
  configuration kept in two places, the playbook jobs with their many writers, and the versioned company
  profile.

`Text` and `Collections` hold the string primitives and the counting facts the rest shares.
`dafny verify dfyconfig.toml` checks everything.

Time, new identifiers, the outcome of each database call, the agent and the other callers are
parameters: a property that holds for all of them holds whatever they do. Float64 is `real`, Go's
division toward zero is written out, and times are whole seconds or ticks.

## Where the code does less than it says

* `StartRun` is documented to start a fresh run for a nil or empty key
  (`internal/service/discovery_service.go:57-63`). A pointer to the empty string is stored as a key, and
  the unique index holds it like any other, so the second such trigger fails:
  `DiscoveryRuns.SecondEmptyKeyFails`. `DiscoveryRuns.KeylessStarts` gives the exact condition.
* The profile request admits a weight of 0 (`internal/http/dto/profile.go:46-56`), but the columns
  declare defaults (`internal/domain/profile.go:88-124`) and the ORM writes a declared default in place of
  a zero value. A save stores what it merged if and only if the request sets no such field to zero
  (`Profiles.SaveLoadsBack`); `Profiles.ZeroWeightComesBack` saves a weight of 0 and loads 10.
* Of two profile saves at once the second is said to wait and then number its version after the first
  (`internal/repository/profile_repo.go:79-82`). Under the database's default isolation the waiting
  select looks again at the row it waited for, finds it demoted and takes version 1, which the unique
  index refuses. A save that first asked for the current row when there were n versions goes through if
  and only if there are still n when it commits (`ProfileRaceFacts.GoesThroughIff`, with
  `ProfileRaceFacts.WaiterIsRefused` as the instance).
* A save reads its base outside the transaction, so it can drop what another changed in between
  (`ProfileRaceFacts.VisionIsLost`). It loses nothing if and only if the version it read and the one before
  its own agree wherever its request is silent (`ProfileRaceFacts.NothingIsLostIff`).
* The limit on clarification rounds is kept by the prompt only. It holds all through a run if and only
  if no applied reply asks for clarification in round three or later (`FormRuns.LimitHoldsIff`), which an
  agent that keeps to its instructions ensures (`FormRuns.ObedientStaysInRounds`); with another,
  `FormRuns.StubbornAgentGoesOn` reaches any round.
* `validateAnswers` is idempotent on accepted answers if and only if questions that share an ID agree on
  what they keep of them (`Answers.IdempotentIff`); `normalizeQuestions` does not force distinct IDs, and
  `Answers.RepeatedIdsBreakIdempotence` shows two that disagree.
* A finished playbook job stays finished exactly when the next call is not a report of failure, a
  refinement or its deletion (`PlaybookJobs.FinishedStaysIff`): a late callback undoes a result
  (`PlaybookJobs.LateCallbackOverwrites`), although a late dispatch failure does not.
* A failed insert after the old link was removed leaves an event without a playbook
  (`PlaybookJobs.FailureUnlinksEvent`); `PlaybookJobs.GeneratingTakesTheLink` says exactly when.

## Model

| member | source | states |
|---|---|---|
| Text.AtoiOfItoa | internal/service/feedback_ai_service.go:126-163 | decimal printing followed by parsing gives the number back for every count that fits the integer type |
| Text.ItoaInjective | internal/service/feedback_form_service.go:68-75 | different numbers print differently |
| Slugs.SlugifyIsWords | internal/service/feedback_form_service.go:41-48 | `slugify` keeps exactly the alphanumeric runs of the lower-cased text, joined by single dashes |
| Slugs.SlugIsFixedPoint | internal/service/feedback_form_service.go:41-48 | a text is a slug if and only if `slugify` leaves it alone |
| Slugs.CandidatesDiffer | internal/service/feedback_form_service.go:68-75 | the probes base, base-2, base-3, ... are pairwise different |
| Slugs.TakenProbes | internal/service/feedback_form_service.go:65-76 | n probes can only all be taken if n slugs are, so the search ends within one probe more than there are slugs |
| Slugs.FirstFree | internal/service/feedback_form_service.go:65-76 | the search finds a free candidate all of whose predecessors are taken |
| Slugs.UniqueSlug | internal/service/feedback_form_service.go:54-77 | the search returns the first free candidate of the base slug, with as many lookups as that takes, and stops at a failing lookup exactly when every candidate the database answered for is taken |
| Slugs.AllocatedSlugIsGood | internal/service/feedback_form_service.go:54-77 | an allocated slug is non-empty, a fixed point of `slugify`, and free unless it is the form's own |
| Slugs.AllocatedIsFirstUntaken | internal/service/feedback_form_service.go:54-77 | the base is what the wish leaves, else what the title leaves, else "form-" and eight random digits; the slug is the base when that is the form's own, else the first of base, base-2, base-3, ... that is not taken |
| Slugs.SlugIgnoresCase | internal/service/feedback_form_service.go:41-48 | texts that differ only in the case of their letters have the same slug |
| Questions.NormalizeQuestions | internal/service/feedback_form_service.go:82-125 | the loop normalises every question in order or stops with the error of the first bad one |
| Questions.NormalizedIsCanonical | internal/service/feedback_form_service.go:82-125 | a question is accepted exactly when it has a label, a known type and, for a choice, an option that is not blank; what comes out has an ID, a clean label and only the fields of its type, in range |
| Questions.NormalizeAllIdempotent | internal/service/feedback_form_service.go:82-125 | a list is accepted exactly when each question is, and normalising it again changes nothing |
| Questions.NormalizedFieldByField | internal/service/feedback_form_service.go:82-125 | each field of each accepted question is what was given: caption and labels trimmed, an ID filled in, a scale outside 2..10 replaced by 5, the fields of other types emptied |
| Questions.FirstRefused | internal/service/feedback_form_service.go:82-125 | the error is that of the first unacceptable question: no label, else an unknown type, else no option |
| Questions.CleanOptionsKeep | internal/service/feedback_form_service.go:106-117 | exactly the options that are not blank are kept, trimmed, each after those kept before it |
| Questions.SanitizeSuggestions | internal/service/feedback_ai_service.go:446-480 | the loop keeps, in order, the sanitised form of exactly the usable suggestions |
| Questions.SurvivorIsAccepted | internal/service/feedback_ai_service.go:446-480 | a survivor is fixed by sanitising, and the normaliser accepts it with nothing changed but the ID filled in |
| Questions.SanitizeAllIdempotent | internal/service/feedback_ai_service.go:446-480 | sanitising a list twice is sanitising it once, and the normaliser accepts every survivor as it stands |
| Questions.SanitizedFieldByField | internal/service/feedback_ai_service.go:446-480 | exactly the usable suggestions are kept, in order, each field by field as it was given |
| Questions.Evaluate | internal/service/feedback_ai_service.go:165-193 | confidence is the reply's brought into 0..100; the user is asked exactly when it is under 85 and there is something to ask, then the first four questions at most and no suggestion; otherwise every usable suggestion is passed on |
| TypeCounts.ParseSuggestTypeCounts | internal/service/feedback_ai_service.go:86-124 | one unreadable value of a known type refuses the request; otherwise exactly the known types are read |
| TypeCounts.TypeCountsToStrings | internal/service/feedback_ai_service.go:126-142 | every count is stored as its decimal text or as "random" |
| TypeCounts.TypeCountsFromStrings | internal/service/feedback_ai_service.go:144-163 | every stored text is read back, unreadable ones as zero |
| TypeCounts.StoreRoundTrip | internal/service/feedback_ai_service.go:126-163 | reading back undoes storing if and only if every count is one the parser can produce |
| TypeCounts.ParsedSpecSurvivesStorage | internal/service/feedback_ai_service.go:86-163 | whatever the request parses to survives being stored and read back |
| TypeCounts.CountsReadAs | internal/service/feedback_ai_service.go:86-124 | a whole number that fits counts as itself, a negative one and null as 0, a text only if it says "random" in any case |
| TypeCounts.CountsStoredAs | internal/service/feedback_ai_service.go:126-163 | stored text is "random" or parses to the count; text that is neither is read back as 0 |
| Answers.ValidateAnswers | internal/service/feedback_form_service.go:600-658 | the loop gives the verdict of the per-question checks in form order, stopping at the first error; what it stores and what it refuses is said by the rows below |
| Answers.AcceptedIff | internal/service/feedback_form_service.go:600-658 | answers are accepted exactly when each is in range and no required question is left out |
| Answers.AcceptedFollowsForm | internal/service/feedback_form_service.go:600-658 | accepted answers come in form order, at most one per question, each in range and stripped to the field of its type |
| Answers.StoredAsGiven | internal/service/feedback_form_service.go:600-658 | an answer is stored for a question exactly when one was given for its ID, with that rating, that choice or that text trimmed, and no other field |
| Answers.GivenIsLast | internal/service/feedback_form_service.go:601-604 | of several answers given for one ID the last one is meant |
| Answers.FirstRefusal | internal/service/feedback_form_service.go:606-652 | a refusal names the first question whose value is refused, and the reason that applies to it |
| Answers.RequiredIsAnswered | internal/service/feedback_form_service.go:644-650 | each required question has an accepted answer that says something |
| Answers.IdempotentIff | internal/service/feedback_form_service.go:600-658 | checking accepted answers again accepts them as they are if and only if, for every question answered, the last question with its ID drops nothing of the answer that this one keeps |
| Answers.ValidationIdempotent | internal/service/feedback_form_service.go:600-658 | with distinct question IDs, checking accepted answers again accepts them as they are |
| Answers.RepeatedIdsBreakIdempotence | internal/service/feedback_form_service.go:600-658 | a witness: two questions with one ID that disagree, so the second check changes the outcome |
| Analytics.Round1IsClose | internal/service/feedback_service.go:169-171 | rounding gives the nearest tenth of a non-negative average, the higher of two as near, and never passes a whole bound the average lies within |
| Analytics.NearestTenthIsUnique | internal/service/feedback_service.go:169-171 | there is only one such tenth |
| Analytics.FirstDefsAreFirst | internal/service/feedback_form_service.go:715-731 | every question ID appears once, with its first definition, in order of first appearance |
| Analytics.Aggregate | internal/service/feedback_form_service.go:715-833 | for any forms and submissions the imperative fold computes the analysis of which `AnalyticsShown` says every figure; no index or division fault occurs, and the only panic is a negative scale |
| Analytics.CountAnswer | internal/service/feedback_form_service.go:738-788 | one answer changes the statistics of its question and the overall counters as the declarative step says |
| AnalyticsFacts.AccumulatedIsCounted | internal/service/feedback_form_service.go:738-788 | responses, totals, stars per level, picks per option and texts are the counts of the in-range answers |
| AnalyticsFacts.TextsInOrder | internal/service/feedback_form_service.go:738-788 | texts are the non-blank answers, trimmed, in the order they came in |
| AnalyticsFacts.DistributionSumsToResponses | internal/service/feedback_form_service.go:738-788 | a rating's distribution sums to its responses |
| AnalyticsFacts.ChoicesSumToPicks | internal/service/feedback_form_service.go:738-788 | a choice question's tallies sum to the options picked |
| AnalyticsFacts.AverageIsMean | internal/service/feedback_form_service.go:789-800 | a shown average is the nearest tenth of the true mean and stays within the scale |
| AnalyticsFacts.OverallAddsUp | internal/service/feedback_form_service.go:738-788 | the overall counters are the per-question counts added up |
| AnalyticsFacts.RatingSumAddsUp | internal/service/feedback_form_service.go:738-788 | the overall rating sum is the per-question totals, each brought to a scale of five |
| AnalyticsFacts.HeadlineInRange | internal/service/feedback_form_service.go:715-833 | the overall rating lies in 0..5 and NPS in -100..100, whatever was answered |
| AnalyticsShown.HeadlineShows | internal/service/feedback_form_service.go:754-833 | the shown NPS is the percentage of promoters less detractors among all NPS responses with its fraction dropped, 0 without any; the shown rating is the nearest tenth of the mean of all ratings on a scale of five, 0 without any |
| AnalyticsShown.AnalysisShows | internal/service/feedback_form_service.go:715-833 | the totals are the numbers of forms and submissions, and there is one entry for each definition, in order, with its caption and type, its counts, the nearest tenth of its mean, its texts in order, and nothing in the fields of other types |
| AnalyticsShown.NpsGroups | internal/service/feedback_form_service.go:763-773 | promoters are the answers of 9 or 10, detractors those of 0 to 6, and every answer of 0 to 10 is a response |
| AnalyticsShown.RatingGroups | internal/service/feedback_form_service.go:754-762 | the responses to a rating are the answers within its scale, and each star counts those who gave it |
| AnalyticsFacts.AnalysisPermuted | internal/service/feedback_form_service.go:715-833 | permuting the submissions changes nothing but the order of texts |
| AnalyticsFacts.AcceptedCountsOnce | internal/service/feedback_form_service.go:600-658 | the value given to a question of a form with distinct IDs is counted exactly once among the accepted answers |
| AnalyticsFacts.ResponsesCountSubmissions | internal/service/feedback_form_service.go:600-833 | while a form with distinct IDs stays unedited, a question's responses are the accepted submissions that answered it |
| FormService.FeedbackForms.Create | internal/service/feedback_form_service.go:128-149 | one new draft under a fresh slug with canonical questions, or nothing changed |
| FormService.FeedbackForms.Update | internal/service/feedback_form_service.go:153-191 | the edited row keeps its job and, while the AI is at work, its status; a blank wish keeps the slug |
| FormService.FeedbackForms.Publish | internal/service/feedback_form_service.go:194-210 | a form with questions is published, one without is refused |
| FormService.FeedbackForms.AISuggest | internal/http/handlers/feedback_form_handler.go:232-253 | an unreadable type count refuses the request before anything is stored; otherwise the suggestion starts |
| FormService.FeedbackForms.StartAISuggest | internal/service/feedback_form_service.go:244-327 | the form gets a new job of round 0: sent out for processing, or back to the user with the standard questions when the prompt says too little; refused while one is being processed |
| FormService.FeedbackForms.MarkAISuggestFailed | internal/service/feedback_form_service.go:355-371 | a form still being processed goes back to draft with the error, any other is left alone |
| FormService.FeedbackForms.CompleteAISuggest | internal/service/feedback_form_service.go:378-426 | a callback is applied to a form that is being processed, and leaves every form alone otherwise; what it leaves there is said by `FormOutcomes.CallbackOutcome` |
| FormService.FeedbackForms.SubmitClarifyAnswers | internal/service/feedback_form_service.go:433-475 | each open question is recorded with its answer, the round goes up by one, and the task goes out again, forced to a result from round three on |
| FormService.FeedbackForms.ClearAIJob | internal/service/feedback_form_service.go:499-515 | the job is dropped, and a form the AI was at work on is a draft again |
| FormService.FeedbackForms.ReapStaleAISuggest | internal/service/feedback_form_service.go:522-546 | exactly the forms stuck in processing since the cutoff are failed, save the rows whose write fails |
| FormRuns.StepKeepsInvariant | internal/service/feedback_form_service.go:54-546 | every operation keeps the invariant, and the unique index on slugs never rejects a row |
| FormRuns.ReachableInvariant | internal/service/feedback_form_service.go:54-546 | in every reachable state no two forms share a slug, slugs are non-empty fixed points of `slugify`, questions are canonical, processing_ai has a job with no open and no pending questions, need_clarification one with one to four open questions: the repair branches for a missing job are unreachable |
| FormRuns.ReachableFormsAreMakeable | internal/service/feedback_form_service.go:82-125 | no stored form makes the analytics panic |
| FormRuns.StepOfForm | internal/service/feedback_form_service.go:128-546 | whatever the operation, a job's request stays and its history grows only by the accepted answers; a task goes out exactly when the form starts being processed |
| FormRuns.OneResultPerEntry | internal/service/feedback_form_service.go:372-426 | between two steps that apply a result to a form a task for it is sent, so each entry into processing has at most one result |
| FormRuns.OneResultPerTask | internal/service/feedback_form_service.go:372-426 | in total, the results applied to a form, plus the task still out, are no more than the tasks sent for it |
| FormRuns.RoundCountsSubmissions | internal/service/feedback_form_service.go:433-475 | the round is the number of accepted submissions since the job began, and the history holds between one and four entries a round |
| FormRuns.EveryRoundUsesTheRequest | internal/service/feedback_form_service.go:433-475 | the task a form waits for carries the type counts of the request that began the job, in every round |
| FormRuns.ForcedFromRoundThree | internal/service/feedback_form_service.go:451-472 | a task is forced to a final result exactly from round three on |
| FormRuns.LimitHoldsIff | internal/service/feedback_ai_service.go:41-44 | all through a run no job goes past round three, or asks in it, if and only if no applied reply asks for clarification in round three or later |
| FormRuns.ObedientStaysInRounds | internal/service/feedback_ai_service.go:41-44 | if applied replies answer the latest task and forced replies ask nothing, the limit holds all through |
| FormRuns.StubbornAgentGoesOn | internal/service/feedback_ai_service.go:41-44 | without that, every round can be reached |
| FormOutcomes.EveryStepDoesItsWork | internal/service/feedback_form_service.go:54-546 | after every run each operation has exactly its outcome, writes exactly its row, and sends exactly its task, as the rows below say |
| FormOutcomes.CreateOutcome | internal/service/feedback_form_service.go:128-149 | a form is created exactly when all questions are acceptable and its ID is new: a draft without a job, questions in stored form, unknown languages Indonesian, a free slug |
| FormOutcomes.UpdateOutcome | internal/service/feedback_form_service.go:153-191 | title, language and questions are the request's, the job stays, the status is draft again unless the AI is at work, and the slug changes only on a wish |
| FormOutcomes.PublishOutcome | internal/service/feedback_form_service.go:194-210 | not found, refused without questions, else published with nothing else changed |
| FormOutcomes.StartOutcome | internal/service/feedback_form_service.go:244-327 | refused for an unreadable count or a form in process; else the row has a fresh job of round 0 for the request, with confidence 40 and the standard questions when fewer than three words and no file came, or in process with its task sent |
| FormOutcomes.WordsAreStarts | internal/service/feedback_ai_service.go:54-61 | the words of a prompt are the places where one starts |
| FormOutcomes.FailOutcome | internal/service/feedback_form_service.go:355-371 | exactly a form in process goes back to draft with the reason, its open and pending questions cleared, the rest of its job kept |
| FormOutcomes.CallbackOutcome | internal/service/feedback_form_service.go:378-426 | a reply that is unsure and asks leaves need_clarification with the first four questions and nothing pending; any other reply leaves draft with every usable suggestion pending and no question open; confidence is clamped and the error cleared; a callback without readable content leaves draft with the named reason and both lists empty |
| FormOutcomes.SubmitOutcome | internal/service/feedback_form_service.go:433-475 | exactly a form that waits for answers takes them: each open question goes into the history with the answer at its place, trimmed, or the note that there is none; the round goes up by one and the task is sent, forced from round three on |
| FormOutcomes.ClearOutcome | internal/service/feedback_form_service.go:499-515 | the job goes, a form the AI was at work on is a draft, and any other status stays |
| FormOutcomes.SweepOutcome | internal/service/feedback_form_service.go:522-546 | a form fails exactly if it is in process, not touched after the cutoff, and its write does not fail; every other row stays as it is |
| PlaybookVersions.VersionsAreExact | internal/service/playbook_service.go:91-125 | under every interleaving the versions stored for a target are 1..n in commit order, with no gap or repeat |
| PlaybookVersions.RowsAreImmutable | internal/service/playbook_service.go:91-125 | stored rows never change and never go |
| PlaybookVersions.ConflictNeedsFourOthers | internal/service/playbook_service.go:97-125 | a call that gives up on a version conflict saw at least four rows of its target committed by others while it ran, and stored nothing |
| PlaybookVersions.SuccessStoresOnce | internal/service/playbook_service.go:97-125 | a call that succeeds stored its content exactly once, after it began, under the version it reports; any other stored nothing |
| PlaybookVersions.CreationFollowsVersion | internal/service/playbook_service.go:97-125 | with one clock that ticks at every stamp, creation order is version order within a target |
| PlaybookVersions.EveryStepDoesItsWork | internal/service/playbook_service.go:97-125 | after every run a read learns the number of the target's rows, an insert stores the next version unless a row has it, and then the call reads again, three times at most, before it gives up; nothing else changes |
| PlaybookVersions.PlaybookTable.PersistNewVersion | internal/service/playbook_service.go:97-125 | the call fails with a version conflict exactly when others store a row of the target in each of its four windows and nothing else fails, with another error exactly when the first attempt without a conflict has one, and otherwise stores its content last, as the one row of its own |
| PlaybookVersions.CallEndsOneWay | internal/service/playbook_service.go:97-125 | of the ways to end, all attempts lost, or a first attempt without a conflict that fails or goes through, every call takes exactly one |
| PlaybookVersions.PlaybookTable.GetLatestVersion | internal/repository/playbook_repo.go:49-63 | the highest version of the target, 0 without rows |
| PlaybookVersions.ListCustom | internal/service/playbook_service.go:243-261 | the loop keeps the rows whose target stands nowhere before them |
| PlaybookVersions.ListedInOrder | internal/service/playbook_service.go:243-261 | the listed rows are the first of their targets, in the order of the rows |
| PlaybookVersions.ListedOnce | internal/service/playbook_service.go:243-261 | no target is listed twice |
| PlaybookVersions.EveryTargetListed | internal/service/playbook_service.go:243-261 | every target is listed |
| PlaybookVersions.ListedIsLatest | internal/service/playbook_service.go:243-261 | whatever interleaving filled the table, each row kept from the newest-first rows carries the highest version of its target |
| DiscoveryRuns.OneRowPerKey | internal/service/discovery_service.go:57-101 | under every interleaving of lookup, create and re-read no two run rows share a key |
| DiscoveryRuns.SameKeySameRun | internal/service/discovery_service.go:57-101 | all callers with one non-empty key that got a run got the same run, and at most one was told it started it |
| DiscoveryRuns.ConflictIsResolved | internal/service/discovery_service.go:87-99 | the row read again after a conflict is always there |
| DiscoveryRuns.KeylessStarts | internal/service/discovery_service.go:57-101 | a trigger without a real key starts a run if and only if its key is not an empty string that some row holds already |
| DiscoveryRuns.SecondEmptyKeyFails | internal/service/discovery_service.go:62-63 | two triggers with a pointer to the empty string: the second fails |
| DiscoveryRuns.ExecutedOnce | internal/service/discovery_service.go:147-192 | the pipeline is executed at most once per run and at most once per key |
| DiscoveryRuns.EveryStepProgresses | internal/service/discovery_service.go:103-145 | each step moves each run by at most one status, pending to running or running to success or failed, and new runs are pending |
| DiscoveryRuns.EndedAfterRunning | internal/service/discovery_service.go:103-145 | a run that is over was pending first and running after that |
| DiscoveryRuns.LifeIsOrdered | internal/service/discovery_service.go:103-145 | nothing of a run goes back, its end is for good, and it has a finishing time exactly when it is over |
| DiscoveryRuns.EveryStepDoesItsWork | internal/service/discovery_service.go:57-145 | after every run each due step does its work: a lookup finds a row of the key if there is one, an insert adds a pending row unless the key is taken, the mark makes the run running, and the end stamps it with what was saved, failed exactly when nothing was found and something went wrong |
| DiscoveryService.Discovery.StartRun | internal/service/discovery_service.go:64-101 | with a real key the caller gets the one row of the key unless a call fails that it cannot do without, and has started it exactly when nobody held the key before the insert; the failing calls are named exactly |
| DiscoveryService.Discovery.ExecuteRun | internal/service/discovery_service.go:108-145 | the run ends stamped, its found count is the number of rows this run added, and it failed exactly when nothing was found, old or new, and something went wrong; a failing fetch or first update leaves everything as it was, a failing last update leaves the run running |
| DiscoveryService.GetActive | internal/repository/discovery_run_repo.go:73-88 | the newest of the runs pending or running, if there is any |
| DiscoveryService.Discovery.RunAsync | internal/service/discovery_service.go:147-192 | nothing starts while a run is in flight or no source can be crawled; otherwise the answer is that of the start, an execution is launched exactly when this call started the run, and it ends the run exactly when none of its calls fails |
| DiscoveryService.Discovery.RunOnce | internal/service/discovery_service.go:199-231 | one failing candidate does not stop the rest; each saved candidate has its own new row, the saved count is the number of those rows, every other new row is another's, each duplicate found its key in the table, saved before by this run or brought in, and errors count what was not saved or not scored |
| DiscoveryService.Discovery.PersistCandidate | internal/service/discovery_service.go:233-259 | a candidate is a duplicate exactly when its key is in the table or others bring it in before the insert, given up exactly when a call it comes to fails, and else saved as the one new row that is not another's |
| DiscoveryService.UndisturbedSaves | internal/service/discovery_service.go:199-259 | in a batch that nothing disturbs a candidate is saved exactly when it has no key, or is the first of its key and the table did not hold it |
| DiscoveryService.SavedCountsRows | internal/service/discovery_service.go:199-231 | the number saved is the number of rows the run added |
| Scheduler.Tick | internal/ai/scheduler.go:84-112 | a tick triggers exactly when crawling is enabled, under a key of its frequency and its period of one, three or seven days, which two ticks of one frequency share exactly when they fall in one period |
| Scheduler.KeyNamesPeriod | internal/ai/scheduler.go:103-109 | for any two frequencies, whatever they are called, the keys agree exactly when frequency and period do |
| Scheduler.ScheduledRunsAreFew | internal/ai/scheduler.go:25-112 | however ticks and triggers interleave, the runs created for ticks at times in [a, b] under one frequency of interval I number at most b/I - a/I + 1 |
| Scheduler.CreatedRunsAreFew | internal/ai/scheduler.go:25-112 | by creation time: of runs created in [a, b], each within some lag of its tick, at most b/I - (a - lag)/I + 1 |
| Dedup.OneTenderPerKey | internal/service/discovery_service.go:233-259 | under every interleaving of runs, manual additions, edits and deletions no two tenders hold one dedup key |
| Dedup.EveryCandidateIsCounted | internal/service/discovery_service.go:199-231 | saved, duplicates and persist errors account for every candidate a run has dealt with |
| Dedup.EveryKeyIsHeld | internal/service/discovery_service.go:233-259 | a keyed candidate dealt with without error has a tender with its key from then on, except exactly while that tender is deleted and none was stored under the key since |
| Dedup.OutcomesAreTrue | internal/service/discovery_service.go:233-259 | a reported duplicate has a key; the tender of a saved candidate is in the table under the candidate's key, however edited, unless deleted |
| Dedup.EveryOutcomeWasDecided | internal/service/discovery_service.go:233-259 | under every interleaving each outcome was decided by one step, truly of the table as that step found it: a duplicate's key was held before, and a saved candidate became one new row under a key that none held |
| Dedup.ReplaySavesOnlyKeyless | internal/service/discovery_service.go:199-259 | a second run over a batch that went through saves only candidates without a key, as long as the keys are still held when it begins and none is deleted while it is at work |
| TuiRegistry.TicketStore.Issue | internal/hermestui/ticket.go:36-44 | expired tickets go, the new one is good for thirty seconds |
| TuiRegistry.TicketStore.Consume | internal/hermestui/ticket.go:46-62 | the ticket is gone whatever the answer, which is its user exactly while it is good |
| TuiRegistry.TicketStore.Sweep | internal/hermestui/ticket.go:64-72 | exactly the expired tickets go |
| TuiRegistry.IssuedLasts | internal/hermestui/ticket.go:36-72 | a ticket is good for thirty seconds, and issuing one removes exactly the tickets that are over |
| TuiRegistry.Registry.Open | internal/hermestui/registry.go:51-64 | the session is registered for its user with no connections and no idle time |
| TuiRegistry.Registry.IncConn | internal/hermestui/registry.go:88-96 | one more connection for an open session, nothing for any other |
| TuiRegistry.Registry.DecConn | internal/hermestui/registry.go:98-104 | one connection less for an open session that has any |
| TuiRegistry.Registry.Close | internal/hermestui/registry.go:115-128 | the first close of an open session cancels and removes it and answers true, any other changes nothing |
| TuiRegistry.Registry.SweepExpired | internal/hermestui/registry.go:130-148 | exactly the sessions idle too long or too old are cancelled and removed, and each is reported once with its user |
| TuiRegistry.ExpiredIff | internal/hermestui/registry.go:130-148 | a session is overdue exactly when it had no frame for more than half an hour or began more than four hours ago |
| TuiHandler.HermesTuiHandler.Enter | internal/http/handlers/hermes_tui_handler.go:151-199 | the ticket is gone whatever happens; a good one becomes a session with its cookie, and one whose cookie cannot be signed is closed at once without an audit end |
| TuiHandler.HermesTuiHandler.CookieGate | internal/http/handlers/hermes_tui_handler.go:206-225 | only a cookie of a live session passes |
| TuiHandler.HermesTuiHandler.EndSession | internal/http/handlers/hermes_tui_handler.go:290-312 | the first call ends an open session and writes its end, another writes nothing |
| TuiHandler.HermesTuiHandler.SweepTick | internal/http/handlers/hermes_tui_handler.go:318-337 | each overdue session is ended, and its end written once unless the write fails |
| TuiSessions.TicketOpensOnce | internal/http/handlers/hermes_tui_handler.go:151-199 | a ticket opens at most one session, for its user, within its time to live |
| TuiSessions.TicketOpensIff | internal/http/handlers/hermes_tui_handler.go:151-199 | after every run a ticket opens a session exactly when it was issued, was not presented before and is at most thirty seconds old; the session is its user's, begins now and has no connection |
| TuiSessions.CancelledIsClosed | internal/hermestui/registry.go:45-148 | a context is cancelled exactly when its session was opened and is registered no more |
| TuiSessions.NeverReopens | internal/hermestui/registry.go:32-36 | a closed session stays closed |
| TuiSessions.EndedOnce | internal/http/handlers/hermes_tui_handler.go:286-337 | explicit ends and sweeps together report a session exactly once, when it closes, and its audit end is written at most once |
| TuiSessions.SweepEndsOverdue | internal/http/handlers/hermes_tui_handler.go:314-337 | after every run a sweep ends exactly the sessions idle for more than half an hour or older than four hours, reports and writes each end once, and leaves the others as they are |
| TuiSessions.EndCloses | internal/http/handlers/hermes_tui_handler.go:286-312 | an explicit end closes an open session and writes one end; one whose cookie cannot be signed closes without |
| TuiSessions.FrameKeepsAwake | internal/hermestui/registry.go:78-86 | a frame of an attached pump makes its open session active now, and changes nothing else |
| TuiSessions.ActivityIsFrames | internal/hermestui/registry.go:51-104 | only a frame changes when a session was last active, and nothing its user or its start |
| TuiSessions.PumpsComeAndGo | internal/http/handlers/hermes_tui_handler.go:237-284 | a pump is let in exactly for an open session, is attached when it says so, and is gone when it leaves |
| TuiSessions.ConnsArePumps | internal/http/handlers/hermes_tui_handler.go:237-284 | an open session counts exactly its attached pumps |
| TuiSessions.LeavingIsCounted | internal/hermestui/registry.go:98-104 | a pump that leaves an open session always finds a connection to take off |
| AISettings.AISettingService.Update | internal/service/ai_setting_service.go:66-136 | the bridge is pushed first, the row is written once the bridge accepted, and a failed write rolls the bridge back; when it succeeds and what it leaves is said by the rows below |
| AISettings.AISettingService.RollbackBridge | internal/service/ai_setting_service.go:138-163 | the old configuration is pushed again when there is one that can be read and the bridge takes it |
| AISettings.AISettingService.Rehydrate | internal/service/ai_setting_service.go:214-249 | pushes the active row when it can be read and the bridge takes it, and changes nothing otherwise |
| AISettings.UpdateSucceedsIff | internal/service/ai_setting_service.go:78-136 | an update succeeds if and only if the encryption key is set, the provider known, a key typed or the active row's opened, and none of read, push, encryption and write fails; each of the eight failures has its exact condition |
| AISettings.UpdateLeaves | internal/service/ai_setting_service.go:78-163 | on success one more row holds the request under the key meant, alone active, and the bridge runs it; turned away before the push nothing changes; failed after it the rows stay and the bridge runs the active row again if that opens and is taken, else what was pushed |
| AISettings.RehydratePushesIff | internal/service/ai_setting_service.go:214-249 | a rehydrate pushes if and only if the encryption key is set, the active row is read and opened, and the bridge accepts; then the bridge runs that row, and otherwise nothing changes |
| AISettings.UpdateIsAllOrNothing | internal/service/ai_setting_service.go:66-163 | from copies that agree, success leaves both new and failure both old, except exactly when the row was lost after the push and there was no old configuration, it could not be read, or the rollback failed |
| AISettings.DivergesOnlyWhenStuck | internal/service/ai_setting_service.go:66-163 | the copies differ after an update if and only if that happened and the pushed configuration is not the one that ran before |
| AISettings.RehydrateRestores | internal/service/ai_setting_service.go:214-249 | from any state a rehydrate that pushes makes the copies agree and leaves the rows alone |
| AISettings.AtMostOneActive | internal/repository/ai_setting_repo.go:35-50 | no run leaves two rows active |
| AISettings.BlankUpdatesKeepTheKey | internal/service/ai_setting_service.go:193-212 | the plaintext key survives any number of updates that leave it blank, with any faults |
| AISettings.MaskShowsOnlyEnds | internal/service/ai_setting_service.go:251-262 | two keys show the same hint exactly when they agree on the length of a short key or the ends of a long one |
| AISettings.MaskShape | internal/service/ai_setting_service.go:251-262 | a hint shows no character of a key of up to seven, and the first three and last four of a longer one |
| Text.Headline | internal/service/playbook_job_service.go:160-174 | the title derived from a prompt is never empty and at most 81 characters long, unless it is the default |
| Text.HeadlineIsFirstLine | internal/service/playbook_job_service.go:160-174 | the title is what the trimmed prompt has before its first line break or full stop, trimmed, and if longer than 80 its first 80 characters with an ellipsis |
| PlaybookJobs.PlaybookJobService.CreateCustom | internal/service/playbook_job_service.go:354-391 | a job in progress under the typed title or a derived one; refused without prompt and document |
| PlaybookJobs.PlaybookJobService.CreateForEvent | internal/service/playbook_job_service.go:393-473 | the old link goes first, then the new job takes it; each failing call stops there |
| PlaybookJobs.PlaybookJobService.Complete | internal/service/playbook_job_service.go:258-289 | content finishes the job and may retitle one whose title was not typed; no content fails it with a reason |
| PlaybookJobs.PlaybookJobService.MarkFailed | internal/service/playbook_job_service.go:291-306 | only a running job is turned down |
| PlaybookJobs.PlaybookJobService.Retry | internal/service/playbook_job_service.go:475-509 | exactly a failed job goes back to progress, without its error |
| PlaybookJobs.PlaybookJobService.Refine | internal/service/playbook_job_service.go:511-554 | exactly a finished job with content gets one more revision and is being updated |
| PlaybookJobs.PlaybookJobService.ReapStale | internal/service/playbook_job_service.go:577-602 | exactly the running jobs silent since the cutoff are failed, save the rows whose update fails |
| PlaybookJobs.ReachableJobsAreSound | internal/service/playbook_job_service.go:236-602 | across service, callback, tools, boot sweep and reaper a job has an error exactly when it failed, content when it is finished or being revised, and a title; no event is linked to two jobs |
| PlaybookJobs.EveryWriterFollows | internal/mcp/tools_write.go:67-125 | no writer removes a revision, changes a typed title, prompt or source, or brings a link back |
| PlaybookJobs.HistoryOnlyGrows | internal/service/playbook_job_service.go:514-554 | so over any stretch in which a job is not deleted |
| PlaybookJobs.FinishedCanBeRefined | internal/service/playbook_job_service.go:518-527 | the refusal for missing content is never reached |
| PlaybookJobs.GeneratingTakesTheLink | internal/service/playbook_job_service.go:393-473 | after success the new job alone is linked to the event; after failure the event keeps its job, except exactly when the old link went and the new row could not be written |
| PlaybookJobs.FailureUnlinksEvent | internal/service/playbook_job_service.go:417-468 | a witness: a run from the empty table in which generating again fails and leaves an event that had a playbook without one |
| PlaybookJobs.NothingIsLeftStuck | internal/repository/playbook_job_repo.go:75-87 | after the boot sweep nothing is running; after the reaper nothing stale that it could write, and the rest is untouched |
| PlaybookJobs.FinishedStaysIff | internal/service/playbook_job_service.go:258-554 | in every reachable table a finished job stays finished if and only if the next call is not a callback without content, a failure by the agent's tool, an accepted refinement or its deletion |
| PlaybookJobs.ContentIsTheLastBrought | internal/mcp/tools_write.go:67-99 | while a job is not deleted its content is never lost: it is what the last callback or tool that brought any brought |
| PlaybookJobs.LateCallbackOverwrites | internal/service/playbook_job_service.go:258-289 | a witness: a run from the empty table in which a second callback turns a finished job into a failed one |
| PlaybookJobOutcomes.EveryWriterDoesItsWork | internal/service/playbook_job_service.go:236-602 | after every run each writer, service, callback, tool, reaper, boot sweep or deletion, writes exactly its rows with exactly its fields |
| PlaybookJobOutcomes.CustomOutcome | internal/service/playbook_job_service.go:354-391 | refused exactly without prompt and document; else a fresh job in progress under the typed title or the derived one |
| PlaybookJobOutcomes.EventOutcome | internal/service/playbook_job_service.go:393-473 | each refusal has its exact condition; the old link and nothing else of any job goes when it was found and could be taken off, and on success the new job alone is added |
| PlaybookJobOutcomes.CompleteOutcome | internal/service/playbook_job_service.go:258-289 | content finishes the job under the agent's title unless one was typed; without content it fails with the reason given or the standard one and keeps its content |
| PlaybookJobOutcomes.RetryOutcome | internal/service/playbook_job_service.go:475-509 | exactly a failed job is in progress again, without its error and with everything else kept |
| PlaybookJobOutcomes.RefineOutcome | internal/service/playbook_job_service.go:511-554 | each refusal has its exact condition; else the instruction is added at the end of the revisions and the job is being updated |
| ProfileContent.MergeKeywords | internal/service/profile_service.go:307-325 | the keyword sets of a request replace those there were, one for one and in order, in Indonesian unless told otherwise |
| ProfileContent.MergeTwice | internal/service/profile_service.go:195-325 | merging a request over its own result changes nothing more |
| ProfileContent.MergedFieldByField | internal/service/profile_service.go:195-325 | every field of a merge is the request's own value for it, or the base's when the request gives none; missing parts come from the template |
| ProfileContent.TemplateIsBalanced | internal/service/profile_service.go:25-107 | the template is unnamed, daily and not crawled, asks for Indonesia, a milliard rupiah, a week and four kinds of procurement; its eight weights add up to a hundred and its thresholds descend |
| ProfileContent.StoredIsTrue | internal/domain/profile.go:102-124 | what is stored is what was to be stored exactly when nothing in it is a zero with a declared default |
| ProfileContent.StoredFieldByField | internal/domain/profile.go:88-124 | storing changes a field only if it is an empty frequency, currency or language or a scoring number 0, and then to its own declared default |
| ProfileContent.MergeZeroIff | internal/service/profile_service.go:195-325 | merged over what a save can find, a request leaves such a zero exactly when it asks for one |
| Profiles.ProfileRepo.CreateVersion | internal/repository/profile_repo.go:68-149 | the transaction demotes, inserts the root and every child under the next version, or leaves everything as it was |
| Profiles.ProfileRepo.Save | internal/service/profile_service.go:193-234 | the request merged over the current version, or over the template, becomes the next version |
| Profiles.VersionsAreExact | internal/repository/profile_repo.go:68-149 | after k successful saves the versions are exactly 1..k, version k alone is current, and every child belongs to a version |
| Profiles.HistoryStays | internal/repository/profile_repo.go:68-149 | an older version loads the same after any later saves; its rows lose at most the current flag |
| Profiles.SaveLoadsBack | internal/repository/profile_repo.go:30-149 | in every reachable state what a save leaves current is the merge if and only if the request sets no field with a declared default to zero |
| Profiles.ZeroWeightComesBack | internal/domain/profile.go:117-117 | a witness: a delivery-risk weight of 0 loads back as 10 |
| Profiles.SavingTwiceIsSavingOnce | internal/service/profile_service.go:193-234 | the same request saved twice leaves the same content as once, in a version of its own |
| ProfileContent.SameMergeIff | internal/service/profile_service.go:195-325 | stored over two bases a request gives the same exactly when they agree wherever it is silent |
| ProfileRaceFacts.RacesKeepVersions | internal/repository/profile_repo.go:68-149 | under every interleaving of reads, locking selects, commits and aborts the versions are exactly 1..k, the last alone is current, and every child belongs to one |
| ProfileRaceFacts.SavedOverWhatItRead | internal/service/profile_service.go:193-234 | a save that went through is the request merged over the version that was current when it read its base, stored after it |
| ProfileRaceFacts.NothingIsLostIff | internal/service/profile_service.go:193-234 | in every reachable state a save that went through is its request merged over its predecessor if and only if the version it read and the predecessor agree on every field the request leaves out |
| ProfileRaceFacts.NextVersionLosesNothing | internal/service/profile_service.go:193-234 | a save whose version directly follows what it saw loses nothing |
| ProfileRaceFacts.GoesThroughIff | internal/repository/profile_repo.go:79-104 | over every run, a save that first asked for the current row when there were n versions goes through if and only if there are still n when it commits, and is refused otherwise |
| ProfileRaceFacts.WaiterIsRefused | internal/repository/profile_repo.go:79-93 | the instance: who waited for the lock of a save that committed is refused, and changes nothing |
| ProfileRaceFacts.FirstOrRefused | internal/repository/profile_repo.go:79-104 | who finds no current row saves version 1 exactly when there is no version by then |
| ProfileRaceFacts.VisionIsLost | internal/service/profile_service.go:193-234 | a witness: a run of two saves that both go through, after which the vision the first one set is gone |
| ProfileRaceFacts.EveryStepDoesItsWork | internal/repository/profile_repo.go:68-149 | after every run a select locks the current row, waits for it or finds none; a commit of a call whose row is still current adds the request merged over what it read and leaves the older versions, any other changes nothing; an abort frees the lock |

## Left out

- FormService.FeedbackForms.StartAISuggest: the fixed error messages and the standard questions are short names, and prompts, documents and the creator of a form are not kept, because only their presence matters to the states.
- FormService.FeedbackForms.Update: one method is one step; an edit that another overwrites between read and write is accepted by the source's own comments. The same holds for the playbook jobs and the AI settings; the profile's saves are taken apart in `ProfileRaces`.
- FormRuns.StepKeepsInvariant: a write that fails is a step not taken, except in the sweeps, where the other rows go on.
- Slugs.SlugifyIsWords: text is ASCII; other letters lower-case and trim differently.
- Questions.NormalizeQuestions: nil and empty lists are one value, as they are once a row has been through its JSON column. The same holds for the profile's lists.
- Analytics.Aggregate: averages are exact real numbers before rounding; float64 error is not modelled.
- PlaybookVersions.CreationFollowsVersion: needs the one strictly increasing clock; rows stamped alike or by clocks that disagree can be listed in either order.
- DiscoveryRuns.ExecutedOnce: `RunAsync` first looks for an active run, without any lock; a trigger turned away there takes no step here, so nothing is claimed about runs with different keys at one time.
- DiscoveryRuns.LifeIsOrdered: a run whose process dies stays pending or running; nothing in the source ends it.
- Scheduler.ScheduledRunsAreFew: speaks of the times of ticks, which is what the key holds; for creation times see `Scheduler.CreatedRunsAreFew`.
- Dedup.OutcomesAreTrue: an edit changes the title and stands for edits of any field but the key, which none changes.
- Dedup.OneTenderPerKey: the dedup key is whatever the hash gives; that different tenders get different keys is not claimed.
- TuiSessions.EndedOnce: at most one audit end, not exactly one: a session whose cookie cannot be signed closes without one, and the write itself may fail.
- AISettings.UpdateIsAllOrNothing: one update at a time, and a push the bridge rejects is taken to leave it as it was. Sealing is ideal: what one encryption key sealed it opens, and no other key does.
- Text.Headline: the limit counts characters, not bytes, which is the same on ASCII text.
- PlaybookJobs.PlaybookJobService.CreateForEvent: attachments and the assembled prompt are not kept.
- Profiles.SaveLoadsBack: rests on the ORM writing a column's declared default for a zero value, and on reading a version's keyword sets in the order they were inserted.
- ProfileRaceFacts.WaiterIsRefused: rests on the default isolation level of the database, read committed, and on its re-checking a row it waited for. An insert and its commit are one step, which the unique index makes them.
- The public submission guards, prompts, PDF and deck rendering, files, mail and HTTP: input and output with no state to keep.
- Tender and prospect transitions, roles, dashboards and pagination: correct, but every fact about them can be read off one body.
- The event-analysis reaper, which scans only the first 500 events.
- The network clients of the bridge and the React front end.
