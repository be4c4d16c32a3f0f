/** The reporter: construction-time validation, the status-to-transition
    map, the memoised transition load and the per-record dispatch loop.
    The Jira client is replaced by the trace of calls made on it, the
    reply its `listTransitions` gives, and an `Applier` that answers each
    `transitionIssue`. */
module JestReporter {
  import opened Wrappers
  import opened JiraTypes
  import opened TicketMaps

  // ---------------------------------------------------------------------
  // Construction

  /** The options the reporter is given; `None` is an absent field. */
  datatype Options = Options(
    protocol: Option<string>,
    host: Option<string>,
    apiVersion: Option<string>,
    strictSSL: Option<bool>,
    testMap: Option<TicketMap>)

  /** The two credentials read from the process environment. */
  datatype Env = Env(username: Option<string>, password: Option<string>)

  /** The options the Jira client is built with. */
  datatype ClientConfig = ClientConfig(
    protocol: Option<string>,
    host: string,
    apiVersion: string,
    strictSSL: Option<bool>,
    username: string,
    password: string)

  /** The memoised transition load: not started, started and awaited,
      resolved with the listed transitions, or rejected. */
  datatype LoadState = NotLoaded | Pending | Loaded(transitions: seq<Transition>) | LoadFailed(reason: string)

  datatype Reporter = Reporter(config: ClientConfig, testMap: TicketMap, load: LoadState)

  /** The load has settled, one way or the other. */
  predicate Settled(r: Reporter) {
    r.load.Loaded? || r.load.LoadFailed?
  }

  /** The parameters checked at construction, in the order they are checked. */
  const RequiredParameters: seq<string> :=
    ["host", "apiVersion", "testMap", "env.JIRA_USERNAME", "env.JIRA_PASSWORD"]

  /** Whether the required parameter `p` has a value. */
  predicate Supplied(o: Options, e: Env, p: string) {
    if p == "host" then o.host.Some?
    else if p == "apiVersion" then o.apiVersion.Some?
    else if p == "testMap" then o.testMap.Some?
    else if p == "env.JIRA_USERNAME" then e.username.Some?
    else if p == "env.JIRA_PASSWORD" then e.password.Some?
    else false
  }

  /** Position of a required parameter in `RequiredParameters`. */
  function Rank(p: string): nat {
    if p == "host" then 0
    else if p == "apiVersion" then 1
    else if p == "testMap" then 2
    else if p == "env.JIRA_USERNAME" then 3
    else if p == "env.JIRA_PASSWORD" then 4
    else 5
  }

  /** A list of parameter names ordered as they are checked. */
  predicate RankSorted(ps: seq<string>) {
    forall i, j :: 0 <= i < j < |ps| ==> Rank(ps[i]) < Rank(ps[j])
  }

  /** The names in `req` that have no value, in the order of `req`. */
  function MissingAmong(o: Options, e: Env, req: seq<string>): (ps: seq<string>)
    requires RankSorted(req)
    ensures forall p :: p in ps <==> p in req && !Supplied(o, e, p)
    ensures RankSorted(ps)
    decreases |req|
  {
    if |req| == 0 then []
    else
      var rest := MissingAmong(o, e, req[1..]);
      assert forall j :: 0 <= j < |rest| ==> Rank(req[0]) < Rank(rest[j]) by {
        forall j | 0 <= j < |rest|
          ensures Rank(req[0]) < Rank(rest[j])
        {
          assert rest[j] in req[1..];
        }
      }
      (if Supplied(o, e, req[0]) then [] else [req[0]]) + rest
  }

  /** The parameters reported as missing: exactly the absent required ones,
      each once, in the order they are checked. */
  function MissingNames(o: Options, e: Env): (ps: seq<string>)
    ensures forall p :: p in ps <==> p in RequiredParameters && !Supplied(o, e, p)
    ensures RankSorted(ps)
  {
    assert Rank("host") == 0 && Rank("apiVersion") == 1 && Rank("testMap") == 2;
    assert Rank("env.JIRA_USERNAME") == 3 && Rank("env.JIRA_PASSWORD") == 4;
    MissingAmong(o, e, RequiredParameters)
  }

  /** The constructor: fails with MISSING_PARAMETERS when a required value is
      absent, otherwise builds the client from the explicit options and the
      environment credentials. The transitions are not loaded yet. */
  function Construct(o: Options, e: Env): (r: Result<Reporter, ReporterError>)
    ensures r.Failure? <==> exists p :: p in RequiredParameters && !Supplied(o, e, p)
    ensures r.Failure? ==> r.error == MissingParameters(MissingNames(o, e))
    ensures r.Success? ==>
              && o.protocol == r.value.config.protocol
              && o.host == Some(r.value.config.host)
              && o.apiVersion == Some(r.value.config.apiVersion)
              && o.strictSSL == r.value.config.strictSSL
              && e.username == Some(r.value.config.username)
              && e.password == Some(r.value.config.password)
              && o.testMap == Some(r.value.testMap)
              && r.value.load == NotLoaded
  {
    var missing := MissingNames(o, e);
    if |missing| > 0 then
      assert missing[0] in missing;
      Failure(MissingParameters(missing))
    else
      assert "host" in RequiredParameters && "apiVersion" in RequiredParameters;
      assert "testMap" in RequiredParameters;
      assert "env.JIRA_USERNAME" in RequiredParameters && "env.JIRA_PASSWORD" in RequiredParameters;
      var config := ClientConfig(o.protocol, o.host.value, o.apiVersion.value, o.strictSSL,
                                 e.username.value, e.password.value);
      Success(Reporter(config, o.testMap.value, NotLoaded))
  }

  // ---------------------------------------------------------------------
  // Status map and transition lookup

  /** `statusMap`: the transition a test outcome asks for. */
  function TransitionFor(s: Status): (t: JiraTransition)
    ensures s == Passed <==> t == Done
    ensures s == Failed <==> t == InProgress
  {
    match s
    case Passed => Done
    case Failed => InProgress
  }

  /** `transitions.find(t => t.name === name)`: the first transition with
      that exact name, or `undefined`. What it finds is stated by
      `FindTransitionIsFirstMatch`. */
  function FindTransition(ts: seq<Transition>, name: string): Option<Transition>
  {
    if |ts| == 0 then None
    else if ts[0].name == name then Some(ts[0])
    else FindTransition(ts[1..], name)
  }

  /** The transition a record with status `s` is moved through, if listed. */
  function Resolve(ts: seq<Transition>, s: Status): Option<Transition> {
    FindTransition(ts, TransitionFor(s).Name())
  }

  // ---------------------------------------------------------------------
  // Loading the transitions once

  /** A reporter together with the calls a step made on the client. */
  datatype Started = Started(reporter: Reporter, calls: seq<Call>)

  /** The synchronous part of `optionallyLoadTransitions`: the first caller
      starts the load for the issue of the first test-map key and stores it;
      every later caller finds the stored load and starts nothing. */
  function Begin(r: Reporter): (s: Started)
    ensures s.reporter.config == r.config && s.reporter.testMap == r.testMap
    ensures r.load.NotLoaded? ==>
              s.reporter.load.Pending? && s.calls == [ListTransitions(FirstIssueId(r.testMap))]
    ensures !r.load.NotLoaded? ==> s.reporter == r && s.calls == []
  {
    if r.load.NotLoaded? then
      Started(r.(load := Pending), [ListTransitions(FirstIssueId(r.testMap))])
    else
      Started(r, [])
  }

  /** The stored load settles with the client's reply. */
  function Settle(r: Reporter, reply: ListReply): (r': Reporter)
    requires r.load.Pending?
    ensures Settled(r') && r'.config == r.config && r'.testMap == r.testMap
    ensures reply.Listed? <==> r'.load.Loaded?
    ensures r'.load.Loaded? ==> r'.load.transitions == reply.transitions
    ensures r'.load.LoadFailed? ==> r'.load.reason == reply.reason
  {
    match reply
    case Listed(ts) => r.(load := Loaded(ts))
    case ListRejected(reason) => r.(load := LoadFailed(reason))
  }

  // ---------------------------------------------------------------------
  // Dispatching one batch

  /** The calls a run of the dispatch loop made, and what it threw, if anything. */
  datatype Run = Run(calls: seq<Call>, failure: Option<ReporterError>)

  /** The loop of `onTestComplete` over the loaded transitions `ts`: for each
      record in order it looks up the issue id (possibly undefined), finds the
      transition for the record's status and calls `transitionIssue`. A
      missing transition throws TRANSITION_NOT_FOUND before that record's call;
      a rejected call throws after it. Either way the loop stops and earlier
      calls stay made. */
  function Dispatch(m: TicketMap, ts: seq<Transition>, batch: seq<TestResult>, apply: Applier): (r: Run)
    ensures |r.calls| <= |batch|
    ensures r.failure.None? ==> |r.calls| == |batch|
    ensures forall i :: 0 <= i < |r.calls| ==> r.calls[i].TransitionIssue?
    decreases |batch|
  {
    if |batch| == 0 then Run([], None)
    else
      var test := batch[0];
      var issueId := Lookup(m, test.title);
      match Resolve(ts, test.status)
      case None => Run([], Some(TransitionNotFound(TransitionFor(test.status))))
      case Some(t) =>
        var call := TransitionIssue(issueId, t);
        match apply(issueId, t)
        case Some(reason) => Run([call], Some(ClientFailure(reason)))
        case None =>
          var rest := Dispatch(m, ts, batch[1..], apply);
          Run([call] + rest.calls, rest.failure)
  }

  /** What an invocation does once the stored load has settled: rethrow a
      rejected load, or run the dispatch loop. */
  function Resume(r: Reporter, batch: seq<TestResult>, apply: Applier): (run: Run)
    requires Settled(r)
    ensures r.load.LoadFailed? ==> run == Run([], Some(ClientFailure(r.load.reason)))
    ensures r.load.Loaded? ==> run == Dispatch(r.testMap, r.load.transitions, batch, apply)
  {
    match r.load
    case LoadFailed(reason) => Run([], Some(ClientFailure(reason)))
    case Loaded(ts) => Dispatch(r.testMap, ts, batch, apply)
  }

  // ---------------------------------------------------------------------
  // onTestComplete

  /** The reporter after one invocation, the calls it made and what it threw. */
  datatype Invocation = Invocation(reporter: Reporter, calls: seq<Call>, error: Option<ReporterError>)

  /** `onTestComplete`, run to completion: make sure the load has been
      started, await it (settling it with `reply` if it is still pending),
      then dispatch the batch. `reply` is ignored when the load has already
      settled: the client is not asked again. */
  function OnTestComplete(r: Reporter, batch: seq<TestResult>, reply: ListReply, apply: Applier): (v: Invocation)
    ensures v.reporter.config == r.config && v.reporter.testMap == r.testMap
    ensures Settled(v.reporter)
    ensures Settled(r) ==> v.reporter == r
    ensures r.load.NotLoaded? ==> 0 < |v.calls| && v.calls[0] == ListTransitions(FirstIssueId(r.testMap))
    ensures forall i :: 0 <= i < |v.calls| && (0 < i || !r.load.NotLoaded?) ==> v.calls[i].TransitionIssue?
    ensures v.reporter.load.LoadFailed? ==>
              && v.error == Some(ClientFailure(v.reporter.load.reason))
              && |v.calls| == (if r.load.NotLoaded? then 1 else 0)
    ensures !Settled(r) ==> v.reporter == Settle(r.(load := Pending), reply)
    ensures r.load.Loaded? ==>
              var run := Dispatch(r.testMap, r.load.transitions, batch, apply);
              v == Invocation(r, run.calls, run.failure)
  {
    var s := Begin(r);
    var r1 := if s.reporter.load.Pending? then Settle(s.reporter, reply) else s.reporter;
    var run := Resume(r1, batch, apply);
    Invocation(r1, s.calls + run.calls, run.failure)
  }

  /** Number of `listTransitions` calls in a trace. */
  function ListCount(calls: seq<Call>): nat {
    if |calls| == 0 then 0
    else (if calls[0].ListTransitions? then 1 else 0) + ListCount(calls[1..])
  }

  // ---------------------------------------------------------------------
  // Several invocations

  /** One `onTestComplete` call: its batch, and the reply the client would
      give if this call were the one to ask for the transitions. */
  datatype Request = Request(batch: seq<TestResult>, reply: ListReply)

  /** A reporter after several invocations, all calls made, and what each threw. */
  datatype History = History(reporter: Reporter, calls: seq<Call>, failures: seq<Option<ReporterError>>)

  /** Invocations run one after another, each awaited before the next. */
  function Session(r: Reporter, reqs: seq<Request>, apply: Applier): (h: History)
    ensures |h.failures| == |reqs|
    ensures h.reporter.config == r.config && h.reporter.testMap == r.testMap
    ensures 0 < |reqs| ==> Settled(h.reporter)
    decreases |reqs|
  {
    if |reqs| == 0 then History(r, [], [])
    else
      var v := OnTestComplete(r, reqs[0].batch, reqs[0].reply, apply);
      var rest := Session(v.reporter, reqs[1..], apply);
      History(rest.reporter, v.calls + rest.calls, [v.error] + rest.failures)
  }

  /** The synchronous prefixes of `n` invocations started before any load
      settles: each one runs `Begin`. */
  function BeginAll(r: Reporter, n: nat): (s: Started)
    ensures s.reporter.config == r.config && s.reporter.testMap == r.testMap
    ensures n == 0 ==> s == Started(r, [])
    ensures 0 < n && r.load.NotLoaded? ==> s.reporter.load.Pending?
    ensures !r.load.NotLoaded? ==> s == Started(r, [])
    decreases n
  {
    if n == 0 then Started(r, [])
    else
      var first := Begin(r);
      var rest := BeginAll(first.reporter, n - 1);
      Started(rest.reporter, first.calls + rest.calls)
  }

  /** The awaiting invocations resume, in the order they started, each
      running its own batch against the same settled load. */
  function ResumeAll(r: Reporter, batches: seq<seq<TestResult>>, apply: Applier): (h: History)
    requires 0 < |batches| ==> Settled(r)
    ensures h.reporter == r && |h.failures| == |batches|
    ensures r.load.LoadFailed? ==>
              h.calls == [] && forall i :: 0 <= i < |batches| ==> h.failures[i] == Some(ClientFailure(r.load.reason))
    decreases |batches|
  {
    if |batches| == 0 then History(r, [], [])
    else
      var run := Resume(r, batches[0], apply);
      var rest := ResumeAll(r, batches[1..], apply);
      History(r, run.calls + rest.calls, [run.failure] + rest.failures)
  }

  /** Several `onTestComplete` calls made before the first load settles:
      every one begins, the single stored load settles with `reply`, and
      then each continues with its own batch. */
  function Overlapping(r: Reporter, batches: seq<seq<TestResult>>, reply: ListReply, apply: Applier): (h: History)
    ensures |h.failures| == |batches|
    ensures h.reporter.config == r.config && h.reporter.testMap == r.testMap
  {
    var s := BeginAll(r, |batches|);
    var r1 := if s.reporter.load.Pending? then Settle(s.reporter, reply) else s.reporter;
    var rest := ResumeAll(r1, batches, apply);
    History(r1, s.calls + rest.calls, rest.failures)
  }
}
