# fstests runner and results checker — a Dafny model

This project models the two pieces of logic in the KernelCI pipeline
services that have real invariants:

* **The job dispatch coordinator** (`FstestsRunner` in
  `src/fstests/runner.py`). It listens on the store's notification channel
  for checkouts, or fetches one configured checkout directly. For each
  checkout it submits a child record, layers the base, plan and device
  parameters into a job descriptor, and hands the descriptor to the
  execution backend (generate, save, submit). It then waits for the job
  before it receives the next checkout.
* **The results checker** (`src/results_checker.py`). Its query compiler
  (`_parse_settings`, `_parse_block_settings`) turns a settings preset into
  an ordered list of store filters. Its `Reporter` renders test suites,
  test cases, kbuilds and regressions as framed text reports. A regression
  embeds the full reports of its pass and fail records.

## Layout

| file | module | what it holds |
|---|---|---|
| `wrappers.dfy` | `Wrappers` | `Option`, and `Result` for a call that returns or raises |
| `values.dfy` | `Values` | the subset of decoded YAML/JSON values the core handles; truthiness; `dict.update` |
| `seqs.dfy` | `Sequences` | two concatenation facts the loop proofs call |
| `query_compiler.dfy` | `QueryCompiler` | specification functions of the query compiler, and lemmas about them |
| `results_checker.dfy` | `ResultsChecker` | the service object and its loops, each proved to compute those functions |
| `reports.dfy` | `Reports` | records, the store, each report kind's text, and lemmas about them |
| `report_builder.dfy` | `ReportBuilder` | the `Reporter` object whose methods build the reports part by part |
| `dispatch.dfy` | `Dispatch` | outside calls as a trace, and the calls and result of each runner operation, with lemmas |
| `runner.dfy` | `Runner` | the `FstestsRunner` object, whose methods record every outside call in `trace` |

### How the outside world is modelled

* **Runner.** Every call the runner makes to the store, the channel, the
  scratch directory or the backend is a `Dispatch.Call`. Its answer comes
  from a `Dispatch.World` of functions:
  * an answer of `None` (or `false`) stands for a call that raises;
  * the i-th `receive_node` gives the i-th event of a finite list, and an
    operator interrupt follows the last event;
  * `clock(i)` is the timestamp prefix of the i-th job (`0` in direct mode).

  Each method of `Runner.FstestsRunner` ensures that it appends exactly the
  calls the matching `Dispatch` function lists, and returns exactly the
  result that function gives.
* **Reporter.** The store is a sequence of records in query order.
  `get_node_obj` resolves an id to the first record with that id.
  `find({'parent': id})` gives the records with that parent, in store
  order.

### Behaviour worth noting

* **Announcement failure.**
  * In subscription mode the announcement `print` reads `_id` and slices
    `revision['commit']`.
  * A checkout for which that raises ends the loop, because the exception
    is caught outside the `while True` (`src/fstests/runner.py:125-135`).
  * A missing `shell` device config ends the loop in the same way.
  * Either way, unsubscribe still runs in `finally`, and no later checkout
    is received.
* **Failures inside one job.**
  * `_run_single_job` ends in `finally: return True`
    (`src/fstests/runner.py:118-119`). Every failure inside one job is
    therefore swallowed, including a backend step that leaves `job_result`
    unbound (`src/fstests/runner.py:100-103`), and the loop goes on.
  * `_create_node` and `node['revision']` run outside the `try` of
    `_schedule_job`. Their failures reach the same `finally`.
* **Empty `repos`.** An item whose `repos` is an empty list (or `""` or
  `{}`, which iterate to nothing) yields one filter, as the `if repos:`
  condition does. The docstring of `_parse_block_settings`
  (`src/results_checker.py:174-180`) speaks of one query parameter set per
  `repos` item and of a single set when the block defines no repos. The
  code treats an empty list as defining no repos, so it yields one set
  rather than none.
* **Suite or case.** Whether a `test` record is a suite is
  `is_test_suite()`. That method belongs to the record library, so it is
  the record's `isSuite` flag here. A suite report lists whatever records
  name it as parent, and that list may be empty.
* **The date key.** The date bound is the key `created__gt`.

## Model

| member | source | states |
|---|---|---|
| QueryCompiler.BaseFilter | src/results_checker.py:189-193 | the base filter has exactly the keys `kind`, `state` and `created__gt`, bound to the kind, the state and the date |
| QueryCompiler.Prefixed | src/results_checker.py:203-206 | a repos entry keeps every value, each under `data.kernel_revision.` plus its key, and has no other key |
| QueryCompiler.PrefixInjective | src/results_checker.py:204-205 | two keys that are distinct stay distinct once namespaced, so no repos field overwrites another |
| QueryCompiler.RepoEntries | src/results_checker.py:201-202 | iterating `item.pop('repos')` succeeds exactly for a list of mappings, `""` or `{}`; for a list it visits the entries in order; otherwise it raises |
| QueryCompiler.ItemFilters | src/results_checker.py:198-213 | an item yields filters exactly when it is a mapping whose repos can be iterated, and then at least one |
| QueryCompiler.PoppedItem | src/results_checker.py:201-202 | `pop` leaves a mapping item with the same entries minus `repos`; any other value is untouched |
| QueryCompiler.Then | src/results_checker.py:219-225 | results compiled one after another: the first error wins, otherwise the filters concatenate |
| QueryCompiler.BlockKind | src/results_checker.py:219-228 | a block name selects a record kind exactly when it is `tests`, `kbuilds` or `regressions` |
| QueryCompiler.ItemsFilters | src/results_checker.py:197-214 | definition: the item loop, stopping at the first rejected item; ItemsFiltersErr, ItemsFiltersAppend, FilterCount and FiltersKeepBase state its properties |
| QueryCompiler.BlockFilters | src/results_checker.py:172-214 | definition of `_parse_block_settings`' result; FalsyBlock, BlockFiltersErr and BlockKeepsBase state its properties |
| QueryCompiler.ItemsAfter | src/results_checker.py:201-202 | definition of the items as `pop` leaves them; ItemsAfterAt and RecompiledBlock state its properties |
| QueryCompiler.BlockAfter | src/results_checker.py:201-202 | definition of the block as `pop` leaves it; ReposPopped states its property |
| QueryCompiler.NamedBlockFilters | src/results_checker.py:219-228 | definition of one named block's result; NamedBlockKinds states its property |
| QueryCompiler.SettingsFilters | src/results_checker.py:217-229 | definition of `_parse_settings`' result; SettingsFiltersErr, SettingsFiltersAppend, UnknownBlockRaises and FirstRejectedBlock state its properties |
| QueryCompiler.PresetAfter | src/results_checker.py:219-228 | definition of the preset as `_parse_settings` leaves it; PresetPopped and PresetAfterAt state its properties |
| QueryCompiler.ItemFiltersShape | src/results_checker.py:207-213 | an accepted item with n repos entries yields max(1, n) filters; the j-th is base, overridden by the item's fields, overridden by the j-th entry namespaced |
| QueryCompiler.RepoItemShape | src/results_checker.py:209-211 | with n > 0 entries an item yields exactly n filters, one per entry in order |
| QueryCompiler.PlainItemShape | src/results_checker.py:212-213 | with no entries an item yields the single filter base + fields |
| QueryCompiler.FilterCount | src/results_checker.py:197-214 | a block whose items are all accepted yields the sum of its items' widths |
| QueryCompiler.ItemsFiltersErr | src/results_checker.py:198-214 | compiling a list of items fails exactly when one of them is rejected |
| QueryCompiler.ThenAssoc | src/results_checker.py:218-225 | chaining compile results is associative |
| QueryCompiler.ItemsFiltersAppend | src/results_checker.py:198-213 | the filters of `xs + ys` are those of `xs` followed by those of `ys`; the first rejected item decides the error |
| QueryCompiler.PrefixedHasNoRepos | src/results_checker.py:205 | no namespaced key is `repos` |
| QueryCompiler.FiltersWithoutRepos | src/results_checker.py:199-213 | no emitted filter holds the key `repos`, and every filter keeps every key of the base filter |
| QueryCompiler.PrefixedKeysNamespaced | src/results_checker.py:204-205 | every key of a namespaced entry starts with `data.kernel_revision.` |
| QueryCompiler.ItemKeepsBase | src/results_checker.py:199-213 | every filter of an accepted item keeps the value of each base key that the item's own fields do not name |
| QueryCompiler.FiltersKeepBase | src/results_checker.py:198-213 | every filter of a list of items comes from one item and keeps each base value that item's fields do not override |
| QueryCompiler.BlockKeepsBase | src/results_checker.py:189-214 | a block's filters are the base filter itself for a falsy block, and otherwise keep the block's kind, state and date wherever the item's fields do not override them |
| QueryCompiler.FalsyBlock | src/results_checker.py:194-195 | a falsy block yields exactly the base filter |
| QueryCompiler.BlockFiltersErr | src/results_checker.py:194-214 | compiling a block fails exactly when it is truthy and is either not a list or holds a rejected item |
| QueryCompiler.ReposPopped | src/results_checker.py:201-202 | after a block compiles, every item of it is a mapping without `repos` |
| QueryCompiler.NamedBlockKinds | src/results_checker.py:219-228 | `tests`, `kbuilds` and `regressions` compile with kinds test, kbuild and regression, all in state `done`; any other name raises `NotImplementedError`. The message is fixed; the block name the model's `NotImplemented` carries is a label of the model |
| QueryCompiler.SettingsFiltersAppend | src/results_checker.py:218-229 | blocks compile in preset order, and their filters concatenate |
| QueryCompiler.SingleBlockPreset | src/results_checker.py:219-225 | a one-block preset compiles to that block's filters |
| QueryCompiler.SettingsFiltersErr | src/results_checker.py:217-229 | compiling a preset fails exactly when one of its blocks has an unknown name or is rejected |
| QueryCompiler.UnknownBlockRaises | src/results_checker.py:226-228 | an unknown block name reached after only accepted blocks raises `NotImplementedError`, whatever follows it. The name carried by the model's `NotImplemented` is a label of the model, since the source's message is fixed |
| QueryCompiler.PresetPopped | src/results_checker.py:219-225 | after a preset compiles, every block has been through `_parse_block_settings` and no item of a list block keeps `repos` |
| QueryCompiler.TreeEntryPrefixed | src/results_checker.py:204-206 | a repos entry naming only a tree becomes the single filter key `data.kernel_revision.tree` |
| QueryCompiler.PoppedItemWidth | src/results_checker.py:201-213 | once popped, an accepted item stays accepted and yields exactly one filter |
| QueryCompiler.UnitWidths | src/results_checker.py:209-213 | items that yield one filter each yield as many filters as there are items |
| QueryCompiler.RecompiledBlock | src/results_checker.py:201-202 | because `pop` mutates the preset, compiling a block a second time ignores its former repos and yields one filter per item |
| QueryCompiler.ItemsFiltersSingle | src/results_checker.py:198-213 | a one-item list yields that item's filters |
| QueryCompiler.FirstRejectedItem | src/results_checker.py:198-208 | the first rejected item decides the error of its block |
| QueryCompiler.ItemsAfterAt | src/results_checker.py:198-202 | when item i is the first rejected one, `pop` has reached items 0..i and no later item |
| QueryCompiler.FirstRejectedBlock | src/results_checker.py:219-228 | the first unknown or rejected block decides the error of the preset |
| QueryCompiler.PresetAfterAt | src/results_checker.py:219-228 | when block i is the first to fail, blocks 0..i-1 are processed, block i is processed only if its name is known, and later blocks are untouched |
| QueryCompiler.AcceptedBlock | src/results_checker.py:219-225 | one more accepted block appends its filters and keeps the preset accepted |
| QueryCompiler.AcceptedItem | src/results_checker.py:198-213 | one more accepted item appends its filters and keeps the block accepted |
| Values.Update | src/fstests/runner.py:94-95 | `dict.update`: every field of the update wins, and every other key of the original keeps its value |
| ResultsChecker.PrefixRepo | src/results_checker.py:203-206 | the key-by-key loop builds exactly the namespaced entry |
| ResultsChecker.CollectRepos | src/results_checker.py:201-206 | the repos loop raises exactly when iterating the value raises; otherwise it yields each entry namespaced, in order |
| ResultsChecker.CollectListed | src/results_checker.py:202-206 | a listed repos value raises exactly when one entry is not a mapping; otherwise every entry is namespaced in order |
| ResultsChecker.ResultsChecker.ParseBlockSettings | src/results_checker.py:172-214 | the item loop returns exactly the block's specified filters or error, and leaves the block's items exactly as `pop` leaves them |
| ResultsChecker.ResultsChecker.ParseItem | src/results_checker.py:198-213 | one item's filters or error, and the item after `pop` |
| ResultsChecker.ResultsChecker.PopRepos | src/results_checker.py:199-206 | the item's own fields without `repos`, and the namespaced entries; raises exactly when the item is rejected |
| ResultsChecker.ResultsChecker.EmitFilters | src/results_checker.py:209-213 | the merged item alone when there are no entries, else one filter per entry in order |
| ResultsChecker.ResultsChecker.ParseNamedBlock | src/results_checker.py:220-228 | a block compiled under the kind its name selects; an unknown name raises before the body is read |
| ResultsChecker.ResultsChecker.ParseSettings | src/results_checker.py:217-229 | compiles the held preset to exactly its specified filters or error, and leaves the preset as the `pop`s of the blocks reached leave it |
| ResultsChecker.ResultsChecker.ParseBlocks | src/results_checker.py:218-229 | the block loop returns the preset's specified filters or error, and the blocks as processing leaves them |
| ResultsChecker.ItemFiltersOf | src/results_checker.py:207-213 | the emitted filters of an accepted item are its specified filters |
| Reports.Get | src/results_checker.py:122-123 | a resolved reference is a store record with that id; resolution fails exactly when no record has it |
| Reports.Children | src/results_checker.py:85 | `find({'parent': id})` returns exactly the store records whose parent is `id`; their number and order are stated by ChildrenInStoreOrder |
| Reports.MatchIndices | src/results_checker.py:85 | the positions of the store records whose parent is `id`: all of them and no others, in increasing order |
| Reports.ChildrenInStoreOrder | src/results_checker.py:85 | the find result has one record per matching store position, the j-th being the record at the j-th such position, so it is exactly the matches in store order |
| Reports.NatToString | src/results_checker.py:86 | the case count is rendered as a non-empty string of decimal digits |
| Reports.Repeat | src/results_checker.py:90 | `c * n` is n copies of c (the 8-space indent, the 60-`=` banner) |
| Reports.SuiteReport | src/results_checker.py:68-94 | definition of `_create_test_suite_report`; SuiteCaseEntries and ChildrenInStoreOrder state its properties |
| Reports.CaseReport | src/results_checker.py:44-66 | definition of `_create_test_case_report`; CaseLogChoice states its properties |
| Reports.KbuildReport | src/results_checker.py:97-118 | definition of `_create_kbuild_report` |
| Reports.RegressionReport | src/results_checker.py:120-131 | definition of `_create_regression_report`; RegressionCases and RegressionEmbeds state its properties |
| Reports.KindReport | src/results_checker.py:134-144 | definition of the kind dispatch; RenderDispatch and KindReportDepthFree state its properties |
| Reports.Render | src/results_checker.py:133-147 | definition of `create_report`; RenderFramed, RenderDispatch, RenderMonotone and BoundedBudgetIrrelevant state its properties |
| Reports.Bounded | src/results_checker.py:122-130 | definition: the pass/fail chain below a record fits the budget; BoundedRenders states its property |
| Reports.DecimalRoundTrip | src/results_checker.py:86 | reading the rendered case count back gives the count |
| Reports.JoinConcat | src/results_checker.py:94 | joining two non-empty part lists puts one separator between their joins |
| Reports.CaseLinesSnoc | src/results_checker.py:87-93 | one more test case adds its three-part entry at the end |
| Reports.CaseLinesAt | src/results_checker.py:87-93 | a suite report lists three parts per case, the k-th case's parts at 3k |
| Reports.EntriesAfterHead | src/results_checker.py:69-93 | after the eight header parts and the count line come the case entries, the k-th at 9 + 3k |
| Reports.SuiteCaseEntries | src/results_checker.py:85-93 | the `Test cases: N` line holds the number of records whose parent is the suite, followed by one (name, id, result) entry per such record, in find order |
| Reports.CaseLogChoice | src/results_checker.py:52-58 | a case report fails exactly when the parent does not resolve; otherwise its log line is the parent's `lava_log`, the no-log marker, or the no-artifacts marker, as the parent's artifacts dictate |
| Reports.RenderFramed | src/results_checker.py:145-147 | every rendered report starts with the 60-`=` banner and a newline, and ends with a newline, the banner and a newline |
| Reports.RenderDispatch | src/results_checker.py:133-144 | each kind goes to its renderer, a test to the suite or case renderer by `is_test_suite()`; any other kind raises |
| Reports.RenderRegression | src/results_checker.py:141-142 | one level of `create_report` on a regression frames its regression report |
| Reports.RegressionCases | src/results_checker.py:120-131 | an unresolved pass or fail reference fails the report; otherwise the pass report's error, then the fail report's, propagates; otherwise the report is the header and both reports |
| Reports.KindReportDepthFree | src/results_checker.py:134-140 | only a regression's report depends on the recursion budget |
| Reports.RegressionEmbeds | src/results_checker.py:127-131 | a rendered regression report embeds, verbatim and in this order, the full report of its pass record and then that of its fail record |
| Reports.JoinThreeMore | src/results_checker.py:127-131 | joining a head and three more parts |
| Reports.RenderMonotone | src/results_checker.py:133-147 | once a report does not run out of budget, a larger budget gives the same report |
| Reports.RegressionMonotone | src/results_checker.py:120-131 | the regression case of that: a larger budget gives the same regression report |
| Reports.EmbeddedMonotone | src/results_checker.py:128-130 | the pass report, and the fail report when the pass one renders, are the same on a larger budget |
| Reports.RegressionFromParts | src/results_checker.py:120-131 | a regression report is the same on two budgets when its embedded reports are |
| Reports.BoundedRenders | src/results_checker.py:128-130 | a record whose pass/fail chain fits the budget never runs out of it |
| Reports.BoundedBudgetIrrelevant | src/results_checker.py:133-147 | for a chain of finite depth the recursion ends, with the same report for every budget at least that depth |
| Reports.SelfReferenceExhausts | src/results_checker.py:122-128 | a regression whose pass reference resolves to itself exhausts every budget |
| ReportBuilder.Reporter.CreateTestCaseReport | src/results_checker.py:44-66 | the appended parts, joined, are exactly the specified case report; a missing parent fails it |
| ReportBuilder.Reporter.CreateTestSuiteReport | src/results_checker.py:68-94 | the header, the count line and one entry per child, appended in order, are exactly the specified suite report |
| ReportBuilder.Reporter.CreateKbuildReport | src/results_checker.py:97-118 | exactly the specified kbuild report; absent artifacts fail it |
| ReportBuilder.Reporter.CreateRegressionReport | src/results_checker.py:120-131 | resolves both references, then renders pass before fail; exactly the specified regression report or its error |
| ReportBuilder.Reporter.CreateReport | src/results_checker.py:133-147 | the kind dispatch and banner frame give exactly the specified rendering |
| Dispatch.ChildRecord | src/fstests/runner.py:55-61 | definition of the child record; ChildRecordFields states its properties |
| Dispatch.CreateNode | src/fstests/runner.py:54-62 | definition of `_create_node`'s calls and result; AnchorBeforeBackend states its properties |
| Dispatch.BaseParams | src/fstests/runner.py:68-93 | definition of the base parameters; BaseBindings states its properties |
| Dispatch.JobParams | src/fstests/runner.py:94-95 | definition of the layered parameters; ParamsPrecedence states its properties |
| Dispatch.Backend | src/fstests/runner.py:96-99 | definition of the backend calls; BackendShape states its properties |
| Dispatch.ScheduleJob | src/fstests/runner.py:64-103 | definition of `_schedule_job`'s calls and result; ScheduleOutcome, AnchorBeforeBackend and ScheduleCallKinds state its properties |
| Dispatch.RunSingleJob | src/fstests/runner.py:105-119 | definition of `_run_single_job`'s calls; SingleJobWaits and SingleJobOnce state its properties |
| Dispatch.Announceable | src/fstests/runner.py:128-129 | definition: the announcement `print` can read `_id` and slice `revision['commit']`; ListenStops states its role |
| Dispatch.Iteration | src/fstests/runner.py:127-130 | definition of one pass of the `while True` loop; Runner.FstestsRunner.Step computes it |
| Dispatch.Listen | src/fstests/runner.py:126-135 | definition of the loop's calls; ListenSerialises, ListenStaysOnChannel and ListenStops state its properties |
| Dispatch.SubscribeAndRun | src/fstests/runner.py:121-137 | definition of `_subscribe_and_run`'s calls and result; UnsubscribeOnceLast states its properties |
| Dispatch.RunNodeId | src/fstests/runner.py:139-141 | definition of `_run_node_id`'s calls and result; ModeSelection and RunResult state its properties |
| Dispatch.Run | src/fstests/runner.py:143-152 | definition of `run`'s calls and result; ModeSelection and RunResult state its properties |
| Dispatch.ChildRecordFields | src/fstests/runner.py:54-61 | the child record: parent is the checkout's `_id`, name is the plan's, artifacts and revision are inherited, path is extended by the plan name; building it fails exactly when a key is missing or the path is not a list |
| Dispatch.ParamsPrecedence | src/fstests/runner.py:94-95 | device parameters win over plan parameters, which win over base parameters; the keys are the union |
| Dispatch.BaseBindings | src/fstests/runner.py:68-93 | the base parameters bind the created node's id and tarball URL, the plan name, the revision and the scratch directory; reading them fails exactly when the node lacks an id or a tarball |
| Dispatch.AnchorBeforeBackend | src/fstests/runner.py:64-99 | scheduling makes no call when the child record cannot be built; its first call submits the record; a backend call is only made once the store accepted it |
| Dispatch.ScheduleOutcome | src/fstests/runner.py:64-103 | scheduling never waits or touches the channel; it returns a handle only after four calls ending with the submission that returned it; a submission comes only last, and returns exactly when a handle is the result |
| Dispatch.BackendShape | src/fstests/runner.py:96-99 | the backend generates first and saves second, with one to three calls; only the last may submit |
| Dispatch.StoredThenBackend | src/fstests/runner.py:65-99 | the stored anchor followed by the backend's calls has the scheduling shape |
| Dispatch.SingleJobWaits | src/fstests/runner.py:105-119 | a job first makes its scratch directory; it waits only on the handle the submission just returned, and only as its last call; it never touches the channel |
| Dispatch.AwaitedConcat | src/fstests/runner.py:126-130 | "every submission awaited at once" holds for a concatenation of traces that leaves no submission open |
| Dispatch.ListenSerialises | src/fstests/runner.py:126-130 | in subscription mode each checkout's job finishes before the next receive: every successful submission is followed at once by the wait on its handle |
| Dispatch.ReceiveThenJob | src/fstests/runner.py:127-130 | a receive, a job and the rest of the loop keep submissions awaited |
| Dispatch.OffChannelConcat | src/fstests/runner.py:126-130 | two traces that neither subscribe, unsubscribe nor fetch directly still do not when concatenated |
| Dispatch.ListenStaysOnChannel | src/fstests/runner.py:126-130 | the loop neither subscribes, unsubscribes nor fetches a checkout directly |
| Dispatch.UnsubscribeOnceLast | src/fstests/runner.py:121-137 | once subscribed, the subscription is the first call and unsubscribe is made exactly once, as the last call; no checkout is fetched directly, and every submission is awaited |
| Dispatch.ModeSelection | src/fstests/runner.py:139-150 | with a checkout id configured, `run` fetches it once and never touches the channel; it then runs exactly one job (its scratch directory is the next call, and no trace holds two scratch directories, child records, submissions or waits) when the fetch succeeds and a shell device exists, and nothing more otherwise; without an id it subscribes with the checkout filter and never fetches directly |
| Dispatch.ScheduleCallKinds | src/fstests/runner.py:64-99 | scheduling submits the child record only as its first call and makes no scratch directory |
| Dispatch.SingleJobOnce | src/fstests/runner.py:105-119 | one job makes at most one scratch directory, one child record, one submission and one wait |
| Dispatch.RunResult | src/fstests/runner.py:143-152 | `run` returns `True` whenever it returns; it raises exactly on a failed fetch or a missing shell device in direct mode, and on a failed subscribe or unsubscribe in subscription mode |
| Dispatch.ListenStops | src/fstests/runner.py:126-135 | the loop ends after one receive, scheduling nothing, at an interrupt, a failed receive, a checkout whose announcement raises, or a missing shell device |
| Runner.SubscribedCalls | src/fstests/runner.py:121-137 | a granted subscription: subscribe, the loop, unsubscribe; the result is the unsubscribe's |
| Runner.FstestsRunner.CreateNode | src/fstests/runner.py:54-62 | records exactly the specified calls and returns the store's copy or the raised error |
| Runner.FstestsRunner.ScheduleJob | src/fstests/runner.py:64-103 | records exactly the specified anchor and backend calls, and returns the job handle or the raised error |
| Runner.FstestsRunner.RunSingleJob | src/fstests/runner.py:105-119 | records exactly the specified calls of one job and always returns `True` |
| Runner.FstestsRunner.Step | src/fstests/runner.py:127-130 | one pass of the loop: a receive and the job it starts; it goes on exactly when a checkout came, could be announced, and a shell device exists |
| Runner.FstestsRunner.ListenLoop | src/fstests/runner.py:125-135 | the `while True` loop records exactly the specified listening trace |
| Runner.FstestsRunner.SubscribeAndRun | src/fstests/runner.py:121-137 | subscribe, loop, and unsubscribe in `finally`: exactly the specified calls and result |
| Runner.FstestsRunner.RunNodeId | src/fstests/runner.py:139-141 | fetch once and run one job on the shell device: exactly the specified calls and result |
| Runner.FstestsRunner.Run | src/fstests/runner.py:143-152 | the mode chosen by the checkout id; returns `True` whenever it returns, with exactly the specified calls |

## Left out

- Printing, `traceback.print_exc` and logging are not modelled. Nothing in the core depends on them, except the announcement `print`, whose failure is modelled.
- Both constructors are outside the model (`src/fstests/runner.py:25-52`, `src/results_checker.py:151-169`). They cover reading `API_TOKEN`, creating the output directory, connecting to the store and the lab, loading the YAML settings, selecting the preset (exit when it is missing) and the default date of yesterday. The model's constructors take the resulting values.
- `ResultsChecker._run` and the command classes (argument parsing, `cmd_run`, the service loop) are not part of the core.
- The store, the notification channel, the scratch directory and the backend are oracle functions. Their own behaviour is not modelled, and neither is the real time of day.
- Dispatch.Listen: the receive stream is finite, and the operator interrupts after its last event. A channel that never stops delivering, and so a loop that never ends, is not modelled.
- Dispatch.RunSingleJob: an interrupt in the middle of one job is not a separate event. It is swallowed by `finally: return True`, exactly like a failure, so it could only change the calls made after it.
- Reports.Render: Python recursion has no explicit bound and raises `RecursionError` on a cycle. The model carries a depth budget and returns `DepthExceeded` when it is used up. RenderMonotone, BoundedBudgetIrrelevant and SelfReferenceExhausts show that the budget matters only for a chain deeper than it, such as a cycle.
- `is_test_suite()` and `get_node_obj` belong to the record library. The first is the record's `isSuite` flag; the second resolves an id against the store.
- The reporter's writes to record objects are not modelled: `test_case_obj.parent = node` and the reassignment of `node.data.pass_node` / `fail_node` to the resolved objects. A report never reads them back, except a regression record rendered a second time, which the model does not represent.
- QueryCompiler.SettingsFilters: settings values are trees, so sharing through YAML anchors and aliases is not represented. `yaml.safe_load` gives one shared object for an anchor and each of its aliases, and `item.pop('repos')` (`src/results_checker.py:201-202`) then also removes `repos` from the other occurrences. The model compiles every occurrence with its own `repos`, so such a preset gets more filters in the model than in the code. The same holds for ItemsFilters, BlockFilters, PresetAfter and the methods that compute them.
- QueryCompiler.SettingsFilters: the preset is assumed to be a mapping. The preset type, a sequence of name/body pairs, cannot express a preset that loads as something else, such as `None` for an empty `default:`. `self._preset.items()` (`src/results_checker.py:219`) would raise `AttributeError` there.
- Dictionary key order is not modelled. Python dicts keep insertion order, and these maps do not. The ORDER of the emitted filters and of the recorded calls is modelled.
- `Values.Value` covers only part of what `yaml.safe_load` yields: null, booleans, integers, strings, lists, and mappings with string keys. Floats, dates and timestamps (an unquoted `2024-01-01` in a settings file is a date), binary values, and mappings whose keys are not strings are not modelled. A settings item that holds one of them cannot be expressed.
- Record fields that the reports print with `str()` are strings or `None`. Other types are not rendered.
- The backend gets the device's name rather than its whole config object. The plan and `templates_paths` passed to `generate` are constants of the run and are left out.
- `_db_config.to_yaml()` and `self._runtime.config.lab_type` are configured strings.
