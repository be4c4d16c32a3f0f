/** The behaviours the reporter's own test suite exercises, on its fixture:
    `test1` is mapped to LSD-1 and `test2` to TACO-3, and the stubbed client
    lists "In Progress" (id 21) and "Done" (id 31) and accepts every
    transition. */
module ReporterScenarios {
  import opened Wrappers
  import opened JiraTypes
  import opened TicketMaps
  import opened JestReporter
  import opened ReporterProperties

  const FixtureMap: TicketMap := [Entry("test1", "LSD-1"), Entry("test2", "TACO-3")]

  const InProgress21: Transition := Transition("21", "In Progress")
  const Done31: Transition := Transition("31", "Done")
  const StubTransitions: seq<Transition> := [InProgress21, Done31]

  /** The stubbed `transitionIssue`: it records the call and resolves. */
  const AcceptAll: Applier := (id: Option<string>, t: Transition) => None

  const FixtureOptions: Options :=
    Options(Some("https"), Some("localhost:8080"), Some("2"), Some(true), Some(FixtureMap))

  const FixtureEnv: Env := Env(Some("jira-user"), Some("jira-password"))

  /** The reporter every test starts from: the suite's default options and
      a pair of credentials in the environment. */
  function FreshReporter(): (r: Reporter)
    ensures Construct(FixtureOptions, FixtureEnv) == Success(r)
    ensures FreshOver(r, FixtureMap)
  {
    assert forall p :: p in RequiredParameters ==> Supplied(FixtureOptions, FixtureEnv, p);
    Reporter(ClientConfig(Some("https"), "localhost:8080", "2", Some(true), "jira-user", "jira-password"),
             FixtureMap, NotLoaded)
  }

  /** The client is built from exactly the options given, with the
      credentials from the environment: the first parameter set the test
      tries. */
  lemma ClientConfiguredFromOptions1()
    ensures Construct(FixtureOptions.(host := Some("localhost:8080"), apiVersion := Some("1")), FixtureEnv)
            == Success(Reporter(ClientConfig(Some("https"), "localhost:8080", "1", Some(true), "jira-user", "jira-password"),
                                FixtureMap, NotLoaded))
  {
    var o := FixtureOptions.(host := Some("localhost:8080"), apiVersion := Some("1"));
    assert forall p :: p in RequiredParameters ==> Supplied(o, FixtureEnv, p);
  }

  /** The second parameter set the test tries. */
  lemma ClientConfiguredFromOptions2()
    ensures Construct(FixtureOptions.(host := Some("localhost:8081"), apiVersion := Some("2")), FixtureEnv)
            == Success(Reporter(ClientConfig(Some("https"), "localhost:8081", "2", Some(true), "jira-user", "jira-password"),
                                FixtureMap, NotLoaded))
  {
    var o := FixtureOptions.(host := Some("localhost:8081"), apiVersion := Some("2"));
    assert forall p :: p in RequiredParameters ==> Supplied(o, FixtureEnv, p);
  }

  /** Built without options, the reporter reports the three missing
      configuration fields. */
  lemma MissingOptionsScenario()
    ensures Construct(Options(None, None, None, None, None), FixtureEnv)
            == Failure(MissingParameters(["host", "apiVersion", "testMap"]))
  {
    var o := Options(None, None, None, None, None);
    MissingNamesAreExact(o, FixtureEnv, ["host", "apiVersion", "testMap"]);
  }

  /** Built without credentials, the reporter reports the two missing
      environment variables. */
  lemma MissingCredentialsScenario()
    ensures Construct(FixtureOptions, Env(None, None))
            == Failure(MissingParameters(["env.JIRA_USERNAME", "env.JIRA_PASSWORD"]))
  {
    MissingNamesAreExact(FixtureOptions, Env(None, None), ["env.JIRA_USERNAME", "env.JIRA_PASSWORD"]);
  }

  /** The stubbed client lists a transition for either outcome. */
  lemma StubResolves()
    ensures Resolve(StubTransitions, Passed) == Some(Done31)
    ensures Resolve(StubTransitions, Failed) == Some(InProgress21)
  {
    assert "In Progress" != "Done" by { assert "In Progress"[0] != "Done"[0]; }
    assert TransitionFor(Passed).Name() == "Done";
    assert TransitionFor(Failed).Name() == "In Progress";
    assert StubTransitions[0].name != "Done";
    assert StubTransitions[1..] == [Done31];
    assert FindTransition(StubTransitions, "Done") == FindTransition([Done31], "Done");
  }

  /** The fixture's two keys. */
  lemma FixtureLookups()
    ensures Lookup(FixtureMap, "test1") == Some("LSD-1")
    ensures Lookup(FixtureMap, "test2") == Some("TACO-3")
    ensures Lookup(FixtureMap, "test3") == None
    ensures FirstIssueId(FixtureMap) == Some("LSD-1")
  {
    assert FixtureMap[1..] == [Entry("test2", "TACO-3")];
    assert FixtureMap[1..][1..] == [];
    assert "test2" != "test1" by { assert "test2"[4] != "test1"[4]; }
    assert "test3" != "test1" by { assert "test3"[4] != "test1"[4]; }
    assert "test3" != "test2" by { assert "test3"[4] != "test2"[4]; }
  }

  /** The two-record batch of the test suite: test1 passed, test2 failed. */
  const TwoRecords: seq<TestResult> := [TestResult("test1", Passed), TestResult("test2", Failed)]

  /** The planned calls for that batch: LSD-1 to Done, then TACO-3 to In Progress. */
  lemma TwoRecordsPlanned()
    ensures AllResolve(StubTransitions, TwoRecords)
    ensures Planned(FixtureMap, StubTransitions, TwoRecords)
            == [TransitionIssue(Some("LSD-1"), Done31), TransitionIssue(Some("TACO-3"), InProgress21)]
  {
    StubResolves();
    FixtureLookups();
    assert AllResolve(StubTransitions, TwoRecords);
    var planned := Planned(FixtureMap, StubTransitions, TwoRecords);
    PlannedPerRecord(FixtureMap, StubTransitions, TwoRecords);
    assert planned[0] == TransitionIssue(Some("LSD-1"), Done31);
    assert planned[1] == TransitionIssue(Some("TACO-3"), InProgress21);
  }

  /** A reporter over the test map `m` that has not asked for the
      transitions yet, whatever its client options. */
  predicate FreshOver(r: Reporter, m: TicketMap) {
    r.testMap == m && r.load.NotLoaded?
  }

  /** Two records in one batch: two transitions, in input order, after the
      one lookup for the first key's issue. */
  lemma ManyTestsAtOnce(r: Reporter)
    requires FreshOver(r, FixtureMap)
    ensures OnTestComplete(r, TwoRecords, Listed(StubTransitions), AcceptAll).calls
            == [ListTransitions(Some("LSD-1")),
                TransitionIssue(Some("LSD-1"), Done31),
                TransitionIssue(Some("TACO-3"), InProgress21)]
  {
    TwoRecordsPlanned();
    FixtureLookups();
    OnTestCompleteAllResolved(r, TwoRecords, StubTransitions, AcceptAll);
  }

  /** The transitions are asked for about the first key's issue even when
      the batch is about another test. */
  lemma LookupUsesFirstKey(r: Reporter)
    requires FreshOver(r, FixtureMap)
    ensures OnTestComplete(r, [TestResult("test2", Passed)], Listed(StubTransitions), AcceptAll).calls
            == [ListTransitions(Some("LSD-1")), TransitionIssue(Some("TACO-3"), Done31)]
  {
    var batch := [TestResult("test2", Passed)];
    StubResolves();
    FixtureLookups();
    assert AllResolve(StubTransitions, batch);
    OnTestCompleteAllResolved(r, batch, StubTransitions, AcceptAll);
    assert Planned(FixtureMap, StubTransitions, batch[1..]) == [];
  }

  /** Remapping test1 to TACO-3 moves the lookup to TACO-3. */
  lemma LookupFollowsRemap(r: Reporter)
    requires FreshOver(r, [Entry("test1", "TACO-3")])
    ensures OnTestComplete(r, [TestResult("test1", Passed)], Listed(StubTransitions), AcceptAll).calls[0]
            == ListTransitions(Some("TACO-3"))
  {
    assert FirstIssueId(r.testMap) == Some("TACO-3");
  }

  /** A failing test when only "Done" is listed: TRANSITION_NOT_FOUND for
      "In Progress", and nothing is transitioned. */
  lemma InProgressNotListed(r: Reporter)
    requires FreshOver(r, FixtureMap)
    ensures OnTestComplete(r, [TestResult("test1", Failed)], Listed([Transition("55", "Done")]), AcceptAll)
            == Invocation(r.(load := Loaded([Transition("55", "Done")])),
                          [ListTransitions(Some("LSD-1"))],
                          Some(TransitionNotFound(InProgress)))
  {
    var ts := [Transition("55", "Done")];
    FixtureLookups();
    assert "Done" != "In Progress" by { assert "Done"[0] != "In Progress"[0]; }
    assert TransitionFor(Failed).Name() == "In Progress";
    assert ts[1..] == [];
    assert Resolve(ts, Failed) == None;
    FirstInvocationDispatches(r, [TestResult("test1", Failed)], ts, AcceptAll);
  }

  /** A list holding only "In Progress" (id 23) serves failures, not passes. */
  lemma OnlyInProgressResolves()
    ensures Resolve([Transition("23", "In Progress")], Passed) == None
    ensures Resolve([Transition("23", "In Progress")], Failed) == Some(Transition("23", "In Progress"))
  {
    var ts := [Transition("23", "In Progress")];
    assert "In Progress" != "Done" by { assert "In Progress"[0] != "Done"[0]; }
    assert TransitionFor(Passed).Name() == "Done";
    assert TransitionFor(Failed).Name() == "In Progress";
    assert ts[1..] == [];
  }

  /** A passing test when only "In Progress" is listed: TRANSITION_NOT_FOUND
      for "Done". A batch of failing tests goes through on the same list. */
  lemma DoneNotListed(r: Reporter)
    requires FreshOver(r, FixtureMap)
    ensures OnTestComplete(r, [TestResult("test1", Passed)],
                           Listed([Transition("23", "In Progress")]), AcceptAll).error
            == Some(TransitionNotFound(Done))
    ensures OnTestComplete(r, [TestResult("test1", Failed)],
                           Listed([Transition("23", "In Progress")]), AcceptAll).error
            == None
  {
    var ts := [Transition("23", "In Progress")];
    OnlyInProgressResolves();
    var pass := [TestResult("test1", Passed)];
    var fail := [TestResult("test1", Failed)];
    FirstInvocationDispatches(r, pass, ts, AcceptAll);
    FirstInvocationDispatches(r, fail, ts, AcceptAll);
    assert fail[1..] == [];
  }

  /** An unmapped title is not skipped: its call goes out with an undefined
      issue id. */
  lemma UnmappedTitleStillCalls(r: Reporter)
    requires FreshOver(r, FixtureMap)
    ensures OnTestComplete(r, [TestResult("test3", Passed)], Listed(StubTransitions), AcceptAll).calls
            == [ListTransitions(Some("LSD-1")), TransitionIssue(None, Done31)]
  {
    var batch := [TestResult("test3", Passed)];
    StubResolves();
    FixtureLookups();
    assert AllResolve(StubTransitions, batch);
    OnTestCompleteAllResolved(r, batch, StubTransitions, AcceptAll);
    assert Planned(FixtureMap, StubTransitions, batch[1..]) == [];
  }

  /** Three invocations that overlap share one lookup, for the first key's issue. */
  lemma ThreeOverlappingInvocationsLoadOnce(r: Reporter)
    requires FreshOver(r, FixtureMap)
    ensures var b := [TestResult("test1", Passed)];
            var h := Overlapping(r, [b, b, b], Listed(StubTransitions), AcceptAll);
            ListCount(h.calls) == 1 && h.calls[0] == ListTransitions(Some("LSD-1"))
  {
    var b := [TestResult("test1", Passed)];
    FixtureLookups();
    OverlappingLoadsOnce(r, [b, b, b], Listed(StubTransitions), AcceptAll);
  }
}
