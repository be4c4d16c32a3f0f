# Jest-to-Jira reporter, modelled in Dafny

The reporter listens for Jest's `onTestComplete` events. It moves the Jira
issue mapped to each finished test through a workflow transition: "Done"
for a passing test and "In Progress" for a failing one. The model covers
the whole `JestReporter` class:

- construction: parameter validation and building the Jira client's options;
- the status map and the lookup of a transition by name;
- the memoised `listTransitions` load for the issue of the first test-map key;
- the per-record dispatch loop that calls `transitionIssue`.

The Jira client is not modelled as a program. An invocation returns the
trace of calls it made on the client. Two caller-supplied values stand in
for the server:

- the reply `listTransitions` gives (`ListReply`: a list of transitions, or a rejection);
- an `Applier` that answers each `transitionIssue` call, as a function of the call's issue id and transition, with acceptance or a rejection reason.

`onTestComplete` has three steps:

1. `Begin`: the synchronous part of `optionallyLoadTransitions`. It stores the load promise on first use.
2. `Settle`: the stored promise settles.
3. `Resume`: rethrow a rejected load, or run `Dispatch`.

`OnTestComplete` runs these steps for one invocation. `Session` chains
invocations that are each awaited. `Overlapping` starts several
invocations before the load settles, as `Promise.all` does in the test
suite.

Files:

- `wrappers.dfy` holds `Option` and `Result`.
- `jira_types.dfy` holds test results, transitions, client calls and the reporter's errors.
- `ticket_map.dfy` holds the test map, which is an ordered list of (title, issue id) entries.
- `jest_reporter.dfy` holds the reporter.
- `reporter_properties.dfy` holds the lemmas.
- `reporter_scenarios.dfy` holds the behaviours of the behavioural test file, stated on its fixture.

The model follows these behaviours of the code:

- An unmapped test title is not skipped. `transitionIssue` is still called, with an undefined issue id (`TransitionIssue(None, _)`).
- A transition name is looked up per record at dispatch, not when the transitions are loaded. An empty batch never throws TRANSITION_NOT_FOUND. A batch of passing tests does not complain about a missing "In Progress".
- A failed load is stored like a successful one. It is never retried: every later invocation rethrows its reason without calling the client.
- An error stops the loop. The calls made for earlier records stay made.

## Model

| member | source | states |
|---|---|---|
| JestReporter.MissingNames | src/JestReporter.ts:19 | the missing-parameter list holds exactly the required parameters that have no value, each once, in the order host, apiVersion, testMap, env.JIRA_USERNAME, env.JIRA_PASSWORD |
| JestReporter.MissingAmong | src/JestReporter.ts:19 | filtering a list of parameters ordered as they are checked keeps exactly the unsupplied ones and keeps that order |
| JestReporter.Construct | src/JestReporter.ts:15-30 | construction fails exactly when some required parameter is absent, and it then reports the missing list; otherwise the client gets protocol, host, apiVersion, strictSSL and both credentials unchanged, the test map is kept, and nothing is loaded yet |
| ReporterProperties.MissingNamesAreExact | src/JestReporter.ts:19 | any ordered list with exactly the missing parameters as members is the reported list, so the MISSING_PARAMETERS payload is pinned down |
| ReporterProperties.SortedWithSameMembersAreEqual | src/JestReporter.ts:19 | two lists ordered as the parameters are checked and holding the same names are equal |
| JestReporter.TransitionFor | src/JestReporter.ts:11 | "passed" maps to Done and "failed" maps to In Progress, in both directions |
| ReporterProperties.StatusMapIsOneToOne | src/JestReporter.ts:11 | the two statuses ask for different transition names, and every name TRANSITION_NOT_FOUND can carry is asked for by some status |
| ReporterProperties.FindTransitionIsFirstMatch | src/JestReporter.ts:32-39 | the lookup yields nothing exactly when no listed transition has the wanted name; otherwise it yields the first transition with that exact name |
| TicketMaps.FirstIssueId | src/JestReporter.ts:50-52 | the load is for the issue of the first test-map key; with an empty map it is undefined |
| TicketMaps.LookupIsFirstEntry | src/JestReporter.ts:79-81 | the issue id is undefined exactly when no entry has the title; otherwise it is the id of the first entry with that title |
| TicketMaps.LookupFindsEntry | src/JestReporter.ts:79-81 | in a map with distinct titles, each entry's title yields that entry's issue id |
| JestReporter.Begin | src/JestReporter.ts:71-74 | the first caller starts exactly one `listTransitions` for the first key's issue and stores the pending load; later callers start nothing and change nothing |
| JestReporter.Settle | src/JestReporter.ts:41-44 | the stored load ends up holding the listed transitions on success or the rejection reason on failure, and nothing else about the reporter changes |
| JestReporter.Dispatch | src/JestReporter.ts:63-68 | the loop makes at most one call per record, makes only `transitionIssue` calls, and makes one per record when nothing is thrown |
| JestReporter.Resume | src/JestReporter.ts:76 | awaiting a rejected load rethrows its reason with no calls; awaiting a loaded one runs the loop over the stored transitions |
| ReporterProperties.DispatchCallsMatchRecords | src/JestReporter.ts:63-68 | the calls made are, in input order, the planned call for each record of the batch's prefix they cover: the record's issue id and its status's transition |
| ReporterProperties.PlannedPerRecord | src/JestReporter.ts:64-66 | the planned calls have one entry per record, and entry i is the call for record i |
| ReporterProperties.DispatchNotFoundCause | src/JestReporter.ts:34-37 | TRANSITION_NOT_FOUND is thrown only for the first record left without a call, when its status's transition is not listed, and it names that transition |
| ReporterProperties.DispatchRejectionCause | src/JestReporter.ts:65-67 | a client failure in the loop comes from the last call made, and that call was rejected with that reason |
| ReporterProperties.DispatchAllResolved | src/JestReporter.ts:63-68 | when every record's transition is listed and the client accepts each planned call, the loop makes exactly the planned calls and throws nothing |
| ReporterProperties.DispatchStopsAtMissing | src/JestReporter.ts:32-39 | when record k is the first whose transition is missing and the client accepted the calls before it, the calls for records 0..k-1 are made and then TRANSITION_NOT_FOUND for record k's transition is thrown |
| ReporterProperties.DispatchStopsAtRejection | src/JestReporter.ts:63-68 | when the call for record k is the first one rejected, the calls for records 0..k are made and the rejection is rethrown |
| ReporterProperties.DispatchAcceptedHead | src/JestReporter.ts:63-68 | an accepted first call is followed by the loop over the rest of the batch |
| JestReporter.OnTestComplete | src/JestReporter.ts:58-69 | an invocation leaves the configuration and map alone and leaves the load settled; a first invocation's first call is the load; every other call is a `transitionIssue`; a failed load means the rejection is rethrown with no transitions attempted; on a reporter that has already loaded, the invocation makes exactly the calls of one run of the loop over the stored transitions and throws what that run throws, changing nothing |
| JestReporter.Session | src/JestReporter.ts:71-77 | awaited invocations one after another: one outcome per invocation, and configuration and map are kept; after at least one invocation the load has settled |
| JestReporter.BeginAll | src/JestReporter.ts:71-74 | the synchronous parts of n overlapping invocations: with none, or on a reporter that already started its load, nothing changes and no call is made; otherwise the load is pending; configuration and map are kept |
| JestReporter.ResumeAll | src/JestReporter.ts:76 | the awaiting invocations resume on the one settled load, one outcome each, without changing the reporter; on a rejected load none calls anything and each rethrows the same reason |
| JestReporter.Overlapping | src/JestReporter.ts:71-77 | several invocations started before the load settles give one outcome each and keep configuration and map |
| ReporterProperties.FirstInvocationDispatches | src/JestReporter.ts:58-77 | a first invocation whose load succeeds stores the transitions, asks for them once, and then runs the loop over the batch |
| ReporterProperties.OnTestCompleteAllResolved | src/JestReporter.ts:58-77 | a first invocation in which every record's transition is listed and each planned call is accepted makes the load call followed by one call per record in order, and throws nothing |
| ReporterProperties.OnTestCompleteStopsAtMissing | src/JestReporter.ts:58-77 | a first invocation in which record k is the first whose transition is missing, the client accepting the calls before it, makes the load call and the calls for records before k, then throws TRANSITION_NOT_FOUND |
| ReporterProperties.EmptyBatchOnlyLoads | src/JestReporter.ts:58-69 | an empty batch makes no `transitionIssue` call and throws only a rejected load's error |
| ReporterProperties.LoadIgnoresBatch | src/JestReporter.ts:71-77 | what is loaded, and the issue it is loaded for, do not depend on the batch |
| ReporterProperties.SettledLoadIgnoresReply | src/JestReporter.ts:72-76 | once the load has settled, the client is not asked again, so what it would reply makes no difference |
| ReporterProperties.ListCountAppend | src/JestReporter.ts:41-44 | the number of `listTransitions` calls in two traces adds up |
| ReporterProperties.NoListCalls | src/JestReporter.ts:63-68 | a trace of only `transitionIssue` calls contains no `listTransitions` call |
| ReporterProperties.OnTestCompleteListCount | src/JestReporter.ts:71-77 | one invocation makes one `listTransitions` call if the reporter had not loaded yet, and none otherwise |
| ReporterProperties.SettledSessionKeepsReporter | src/JestReporter.ts:72-76 | invocations on a settled reporter never change it and never ask for the transitions |
| ReporterProperties.SessionLoadsOnce | src/JestReporter.ts:71-77 | one or more awaited invocations make exactly one `listTransitions` call in total on a fresh reporter, and none on a reporter that has already started its load |
| ReporterProperties.FailedLoadIsFinal | src/JestReporter.ts:71-77 | after a rejected load, every later invocation rethrows the same reason and calls nothing |
| ReporterProperties.BeginAllListCount | src/JestReporter.ts:71-74 | the synchronous prefixes of many invocations start exactly one load between them |
| ReporterProperties.ResumeAllMakesNoListCall | src/JestReporter.ts:76 | invocations resuming after the load has settled never ask for the transitions |
| ReporterProperties.OverlappingLoadsOnce | src/JestReporter.ts:71-77 | invocations that overlap before the load settles make one `listTransitions` call in total |
| ReporterProperties.OverlappingShareRejection | src/JestReporter.ts:71-77 | when the shared load is rejected, every overlapping invocation rethrows the same reason and no transition is attempted |
| ReporterProperties.ResumeAllDispatchesEach | src/JestReporter.ts:63-76 | invocations resuming on a loaded list make, in order, the calls of one run of the loop over that list per batch, and invocation i throws exactly what its own run throws |
| ReporterProperties.OverlappingDispatchesEach | src/JestReporter.ts:58-77 | invocations overlapping a successful load make one `listTransitions` for the first key's issue, then each invocation's run of the loop over the listed transitions in start order; each throws what its own run throws, and the reporter ends loaded with that list |
| ReporterProperties.LoadedSessionDispatchesEach | src/JestReporter.ts:58-77 | awaited invocations on a loaded reporter keep it unchanged and each run the loop over the stored list with its own batch: the trace is those runs in order, and invocation i throws what its run throws |
| ReporterProperties.SessionDispatchesEach | src/JestReporter.ts:58-77 | awaited invocations on a fresh reporter whose first load succeeds make one `listTransitions` for the first key's issue, then every invocation's run of the loop over the listed transitions, in order; later replies are never used |
| ReporterScenarios.FreshReporter | src/__tests__/behavioral/JestReporter.test.ts:297-311 | constructing with the suite's default options (https, localhost:8080, apiVersion 2, strictSSL, test1→LSD-1, test2→TACO-3) and credentials gives a client configured with exactly those values and a reporter that has not loaded yet |
| ReporterScenarios.ClientConfiguredFromOptions1 | src/__tests__/behavioral/JestReporter.test.ts:45-63 | with the first parameter set (https, localhost:8080, 1, true) the client is configured with exactly those values and the environment credentials |
| ReporterScenarios.ClientConfiguredFromOptions2 | src/__tests__/behavioral/JestReporter.test.ts:45-63 | with the second parameter set (https, localhost:8081, 2, true) the client is configured with exactly those values and the environment credentials |
| ReporterScenarios.MissingOptionsScenario | src/__tests__/behavioral/JestReporter.test.ts:25-32 | with no options, MISSING_PARAMETERS lists host, apiVersion, testMap |
| ReporterScenarios.MissingCredentialsScenario | src/__tests__/behavioral/JestReporter.test.ts:34-43 | with no credentials, MISSING_PARAMETERS lists env.JIRA_USERNAME, env.JIRA_PASSWORD |
| ReporterScenarios.StubResolves | src/__tests__/behavioral/JestReporter.test.ts:70-108 | the stubbed list gives "Done" (31) for a pass and "In Progress" (21) for a failure |
| ReporterScenarios.FixtureLookups | src/__tests__/behavioral/JestReporter.test.ts:110-148 | the fixture maps test1 to LSD-1 and test2 to TACO-3, leaves test3 unmapped, and its first key's issue is LSD-1 |
| ReporterScenarios.TwoRecordsPlanned | src/__tests__/behavioral/JestReporter.test.ts:150-183 | both records of the two-record batch find their transition, and the planned calls are LSD-1 → Done (31), then TACO-3 → In Progress (21) |
| ReporterScenarios.ManyTestsAtOnce | src/__tests__/behavioral/JestReporter.test.ts:150-183 | on any not-yet-loaded reporter over the fixture map, a two-record batch makes the load call, then LSD-1 → Done, then TACO-3 → In Progress |
| ReporterScenarios.LookupUsesFirstKey | src/JestReporter.ts:42-52 | following lines 42 and 50-52, and generalising the test at src/__tests__/behavioral/JestReporter.test.ts:185-189 to a batch about test2: the transitions are listed for LSD-1, the first key's issue, and test2 is moved on TACO-3 |
| ReporterScenarios.LookupFollowsRemap | src/__tests__/behavioral/JestReporter.test.ts:191-199 | with test1 remapped to TACO-3, the transitions are listed for TACO-3 |
| ReporterScenarios.ThreeOverlappingInvocationsLoadOnce | src/__tests__/behavioral/JestReporter.test.ts:202-211 | three overlapping invocations call `listTransitions` once, first, for LSD-1 |
| ReporterScenarios.InProgressNotListed | src/__tests__/behavioral/JestReporter.test.ts:213-229 | a failing test with only "Done" listed throws TRANSITION_NOT_FOUND for In Progress after only the load call |
| ReporterScenarios.OnlyInProgressResolves | src/__tests__/behavioral/JestReporter.test.ts:231-247 | a list holding only "In Progress" (23) resolves a failure and leaves a pass without a transition |
| ReporterScenarios.DoneNotListed | src/__tests__/behavioral/JestReporter.test.ts:231-247 | a passing test with only "In Progress" listed throws TRANSITION_NOT_FOUND for Done, and a failing test on the same list does not throw |
| ReporterScenarios.UnmappedTitleStillCalls | src/JestReporter.ts:63-67 | an unmapped title still gets a `transitionIssue` call, with an undefined issue id |

## Left out

- The Jira HTTP client (`jira-client`) is not modelled. Its two methods are replaced by the call trace, the caller-supplied `ListReply` and the `Applier`.
- Applier: the client's answer to `transitionIssue` depends only on the call's issue id and transition. It does not depend on earlier calls, so the model cannot express a server that accepts a call once and rejects the same call later because the issue's status changed.
- TicketMaps.Lookup: a `TicketMap` may list a title twice, which no JavaScript object can. Such maps are outside the source's domain. `Lookup` answers with the first entry, and `LookupFindsEntry` assumes distinct titles.
- `process.env` is passed in as an `Env` value holding the two credentials.
- `assertOptions` from `@sprucelabs/schema` is not part of this model. The model assumes three things about it: a parameter is missing when it is undefined or null (`None`); every missing parameter is reported; and they are reported in the order the list names them. The test file's two MISSING_PARAMETERS cases agree with this.
- The model keeps the options as `Some(...)` values. It does not model other JavaScript values (empty strings, non-string types) that `assertOptions` might accept or reject.
- The test map's values are `Record<string, any>` in the source. The model uses issue-id strings.
- The test map's keys follow `Object.keys` order, which the model takes as the order of its entries. JavaScript's rule that integer-like keys are enumerated first is not modelled.
- Prototype properties such as `constructor` are not modelled. Indexing a plain object with these titles returns an inherited value, not undefined.
- A `listTransitions` response without a `transitions` field is not modelled. In the source, `find` on undefined would then throw a `TypeError`.
- The transition is matched by `===` on names. Names are compared as plain character sequences, with no Unicode normalisation.
- JestReporter.Overlapping: when several invocations overlap, their `transitionIssue` calls are concatenated in start order. How the promise scheduler interleaves the awaited `transitionIssue` calls of different invocations is not modelled. The one-load property does not depend on it.
- Concurrency beyond that is not modelled. In particular, an invocation that starts after the load settled but while others are still dispatching is modelled as a later `Session` step.
- `SpruceError.friendlyMessage`, the generated error and schema types, the error builder and `integrationTest.ts` are not modelled. They are message formatting, generated declarations and a manual script.
- The `_: JestTest` argument of `onTestComplete` is unused by the source and is not modelled.
