/** What the reporter promises across calls: the status map is one-to-one,
    the missing-parameter list is pinned down exactly, the dispatch loop
    makes one call per record in order and stops at the first failure, and
    the transitions are asked for once per reporter, whether invocations
    follow one another or overlap. */
module ReporterProperties {
  import opened Wrappers
  import opened JiraTypes
  import opened TicketMaps
  import opened JestReporter

  // ---------------------------------------------------------------------
  // Status map

  /** The two statuses ask for two different transition names, and every
      name TRANSITION_NOT_FOUND can carry is asked for by some status. */
  lemma StatusMapIsOneToOne(s1: Status, s2: Status, t: JiraTransition)
    ensures TransitionFor(s1).Name() == TransitionFor(s2).Name() ==> s1 == s2
    ensures TransitionFor(Passed).Name() == "Done" && TransitionFor(Failed).Name() == "In Progress"
    ensures exists s :: TransitionFor(s) == t
  {
    if t == Done {
      assert TransitionFor(Passed) == t;
    } else {
      assert TransitionFor(Failed) == t;
    }
  }

  /** `find` returns the first transition with exactly the wanted name, and
      returns nothing exactly when no transition has that name. */
  lemma {:induction false} FindTransitionIsFirstMatch(ts: seq<Transition>, name: string)
    ensures FindTransition(ts, name).None? <==> forall t :: t in ts ==> t.name != name
    ensures FindTransition(ts, name).Some? ==>
              exists k :: 0 <= k < |ts| && ts[k] == FindTransition(ts, name).value && ts[k].name == name
                          && forall j :: 0 <= j < k ==> ts[j].name != name
    decreases |ts|
  {
    if |ts| > 0 && ts[0].name != name {
      var r := FindTransition(ts, name);
      FindTransitionIsFirstMatch(ts[1..], name);
      assert forall i :: 1 <= i < |ts| ==> ts[i] == ts[1..][i - 1];
      assert forall t :: t in ts <==> t == ts[0] || t in ts[1..];
      if r.Some? {
        var k :| 0 <= k < |ts[1..]| && ts[1..][k] == r.value && ts[1..][k].name == name
                 && forall j :: 0 <= j < k ==> ts[1..][j].name != name;
        assert ts[k + 1] == r.value;
        assert forall j :: 1 <= j < k + 1 ==> ts[j].name != name;
      }
    }
  }

  // ---------------------------------------------------------------------
  // Construction

  /** Two lists ordered as the parameters are checked, holding the same
      names, are the same list. */
  lemma {:induction false} SortedWithSameMembersAreEqual(a: seq<string>, b: seq<string>)
    requires RankSorted(a) && RankSorted(b)
    requires forall p :: p in a <==> p in b
    ensures a == b
    decreases |a| + |b|
  {
    if 0 < |a| || 0 < |b| {
      var x := (a + b)[0];
      assert x in a + b;
      assert x in a && x in b;
      assert b[0] in a;
      var i :| 0 <= i < |a| && a[i] == b[0];
      var j :| 0 <= j < |b| && b[j] == a[0];
      assert Rank(a[0]) <= Rank(a[i]) == Rank(b[0]);
      assert Rank(b[0]) <= Rank(b[j]) == Rank(a[0]);
      assert a[0] == b[0];
      forall p | p in a[1..]
        ensures p in b[1..]
      {
        var i :| 1 <= i < |a| && a[i] == p;
        assert Rank(a[0]) < Rank(p);
        assert p in a;
        var j :| 0 <= j < |b| && b[j] == p;
        assert j != 0;
        assert b[1..][j - 1] == p;
      }
      forall p | p in b[1..]
        ensures p in a[1..]
      {
        var j :| 1 <= j < |b| && b[j] == p;
        assert Rank(b[0]) < Rank(p);
        assert p in b;
        var i :| 0 <= i < |a| && a[i] == p;
        assert i != 0;
        assert a[1..][i - 1] == p;
      }
      SortedWithSameMembersAreEqual(a[1..], b[1..]);
      assert a == [a[0]] + a[1..];
      assert b == [b[0]] + b[1..];
    }
  }

  /** MISSING_PARAMETERS lists exactly the absent required names, in the
      order they are checked: no other list has both properties. */
  lemma MissingNamesAreExact(o: Options, e: Env, ps: seq<string>)
    requires forall p :: p in ps <==> p in RequiredParameters && !Supplied(o, e, p)
    requires RankSorted(ps)
    ensures ps == MissingNames(o, e)
    ensures 0 < |ps| ==> Construct(o, e) == Failure(MissingParameters(ps))
  {
    SortedWithSameMembersAreEqual(ps, MissingNames(o, e));
  }

  // ---------------------------------------------------------------------
  // The dispatch loop

  /** The call the loop makes for a record whose transition is listed:
      `transitionIssue(testMap[title], { transition })`. */
  function Expected(m: TicketMap, ts: seq<Transition>, test: TestResult): Call
    requires Resolve(ts, test.status).Some?
  {
    TransitionIssue(Lookup(m, test.title), Resolve(ts, test.status).value)
  }

  /** Every record of the batch finds its transition among `ts`. */
  ghost predicate AllResolve(ts: seq<Transition>, batch: seq<TestResult>) {
    forall i :: 0 <= i < |batch| ==> Resolve(ts, batch[i].status).Some?
  }

  /** The reference for a batch that goes through: one call per record, in
      input order. */
  function Planned(m: TicketMap, ts: seq<Transition>, batch: seq<TestResult>): seq<Call>
    requires AllResolve(ts, batch)
    decreases |batch|
  {
    if |batch| == 0 then []
    else
      assert forall i :: 0 <= i < |batch| - 1 ==> batch[1..][i] == batch[i + 1];
      [Expected(m, ts, batch[0])] + Planned(m, ts, batch[1..])
  }

  /** The planned calls, record by record. */
  lemma {:induction false} PlannedPerRecord(m: TicketMap, ts: seq<Transition>, batch: seq<TestResult>)
    requires AllResolve(ts, batch)
    ensures |Planned(m, ts, batch)| == |batch|
    ensures forall i :: 0 <= i < |batch| ==> Planned(m, ts, batch)[i] == Expected(m, ts, batch[i])
    decreases |batch|
  {
    if |batch| > 0 {
      assert forall i :: 0 <= i < |batch| - 1 ==> batch[1..][i] == batch[i + 1];
      PlannedPerRecord(m, ts, batch[1..]);
      var p := Planned(m, ts, batch);
      var rest := Planned(m, ts, batch[1..]);
      forall i | 1 <= i < |batch|
        ensures p[i] == Expected(m, ts, batch[i])
      {
        assert p[i] == rest[i - 1];
      }
    }
  }

  /** The loop's first step when the first record's call is accepted. */
  lemma DispatchAcceptedHead(m: TicketMap, ts: seq<Transition>, batch: seq<TestResult>, apply: Applier)
    requires 0 < |batch| && Resolve(ts, batch[0].status).Some?
    requires apply(Lookup(m, batch[0].title), Resolve(ts, batch[0].status).value).None?
    ensures var rest := Dispatch(m, ts, batch[1..], apply);
            Dispatch(m, ts, batch, apply) == Run([Expected(m, ts, batch[0])] + rest.calls, rest.failure)
  {
  }

  /** The first `n` records resolve when each of them does. */
  lemma PrefixResolves(ts: seq<Transition>, batch: seq<TestResult>, n: nat)
    requires n <= |batch|
    requires forall i :: 0 <= i < n ==> Resolve(ts, batch[i].status).Some?
    ensures AllResolve(ts, batch[..n])
  {
    assert forall i :: 0 <= i < n ==> batch[..n][i] == batch[i];
  }

  /** Taking the first `n + 1` records and dropping the first one is taking
      `n` records after the first one. */
  lemma PrefixTail(batch: seq<TestResult>, n: nat)
    requires n < |batch|
    ensures batch[..n + 1][1..] == batch[1..][..n]
    ensures batch[..n + 1][0] == batch[0]
  {
  }

  /** The calls the loop makes are the planned calls of the records it got
      through: every call belongs to the record at the same position, with
      that record's issue id (undefined when unmapped) and the first listed
      transition named after its status. */
  lemma {:induction false} DispatchCallsMatchRecords(m: TicketMap, ts: seq<Transition>, batch: seq<TestResult>, apply: Applier)
    ensures var r := Dispatch(m, ts, batch, apply);
            AllResolve(ts, batch[..|r.calls|]) && r.calls == Planned(m, ts, batch[..|r.calls|])
    decreases |batch|
  {
    if |batch| > 0 && Resolve(ts, batch[0].status).Some?
       && apply(Lookup(m, batch[0].title), Resolve(ts, batch[0].status).value).None? {
      var rest := Dispatch(m, ts, batch[1..], apply);
      DispatchCallsMatchRecords(m, ts, batch[1..], apply);
      DispatchAcceptedHead(m, ts, batch, apply);
      PrefixTail(batch, |rest.calls|);
      var done := batch[..|rest.calls| + 1];
      assert forall i :: 1 <= i < |done| ==> done[i] == batch[1..][..|rest.calls|][i - 1];
    }
  }

  /** TRANSITION_NOT_FOUND names the transition of the first record left
      without a call, and that transition is not listed. */
  lemma {:induction false} DispatchNotFoundCause(m: TicketMap, ts: seq<Transition>, batch: seq<TestResult>, apply: Applier)
    ensures var r := Dispatch(m, ts, batch, apply);
            r.failure.Some? && r.failure.value.TransitionNotFound? ==>
              && |r.calls| < |batch|
              && Resolve(ts, batch[|r.calls|].status).None?
              && r.failure.value.transition == TransitionFor(batch[|r.calls|].status)
    decreases |batch|
  {
    if |batch| > 0 && Resolve(ts, batch[0].status).Some?
       && apply(Lookup(m, batch[0].title), Resolve(ts, batch[0].status).value).None? {
      var r := Dispatch(m, ts, batch, apply);
      var rest := Dispatch(m, ts, batch[1..], apply);
      DispatchNotFoundCause(m, ts, batch[1..], apply);
      DispatchAcceptedHead(m, ts, batch, apply);
      if r.failure.Some? && r.failure.value.TransitionNotFound? {
        assert batch[|r.calls|] == batch[1..][|rest.calls|];
      }
    }
  }

  /** A client rejection is passed on from the last call the loop made. */
  lemma {:induction false} DispatchRejectionCause(m: TicketMap, ts: seq<Transition>, batch: seq<TestResult>, apply: Applier)
    ensures var r := Dispatch(m, ts, batch, apply);
            r.failure.Some? && r.failure.value.ClientFailure? ==>
              && 0 < |r.calls|
              && apply(r.calls[|r.calls| - 1].issueId, r.calls[|r.calls| - 1].transition)
                 == Some(r.failure.value.reason)
    decreases |batch|
  {
    if |batch| > 0 && Resolve(ts, batch[0].status).Some?
       && apply(Lookup(m, batch[0].title), Resolve(ts, batch[0].status).value).None? {
      var r := Dispatch(m, ts, batch, apply);
      var rest := Dispatch(m, ts, batch[1..], apply);
      DispatchRejectionCause(m, ts, batch[1..], apply);
      DispatchAcceptedHead(m, ts, batch, apply);
      if r.failure.Some? && r.failure.value.ClientFailure? {
        assert r.calls[|r.calls| - 1] == rest.calls[|rest.calls| - 1];
      }
    }
  }

  /** When every record's transition is listed and the client accepts each
      planned call, the loop makes exactly the planned calls and throws
      nothing. */
  lemma {:induction false} DispatchAllResolved(m: TicketMap, ts: seq<Transition>, batch: seq<TestResult>, apply: Applier)
    requires AllResolve(ts, batch)
    requires forall i :: 0 <= i < |batch| ==>
               apply(Lookup(m, batch[i].title), Resolve(ts, batch[i].status).value).None?
    ensures Dispatch(m, ts, batch, apply) == Run(Planned(m, ts, batch), None)
    decreases |batch|
  {
    if |batch| > 0 {
      assert forall i :: 0 <= i < |batch| - 1 ==> batch[1..][i] == batch[i + 1];
      DispatchAllResolved(m, ts, batch[1..], apply);
      DispatchAcceptedHead(m, ts, batch, apply);
    }
  }

  /** When record `k` is the first whose transition is not listed, and the
      client accepted the calls for the records before it, those calls have
      been made, record `k` and those after it have not been transitioned,
      and the loop throws TRANSITION_NOT_FOUND with the transition record
      `k` asked for. */
  lemma {:induction false} DispatchStopsAtMissing(m: TicketMap, ts: seq<Transition>, batch: seq<TestResult>, apply: Applier, k: nat)
    requires k < |batch|
    requires forall i :: 0 <= i < k ==> Resolve(ts, batch[i].status).Some?
    requires forall i :: 0 <= i < k ==>
               apply(Lookup(m, batch[i].title), Resolve(ts, batch[i].status).value).None?
    requires Resolve(ts, batch[k].status).None?
    ensures AllResolve(ts, batch[..k])
    ensures Dispatch(m, ts, batch, apply)
            == Run(Planned(m, ts, batch[..k]), Some(TransitionNotFound(TransitionFor(batch[k].status))))
    decreases k
  {
    PrefixResolves(ts, batch, k);
    if k > 0 {
      PrefixTail(batch, k - 1);
      assert forall i :: 0 <= i < k - 1 ==> batch[1..][i] == batch[i + 1];
      assert batch[1..][k - 1] == batch[k];
      DispatchStopsAtMissing(m, ts, batch[1..], apply, k - 1);
      DispatchAcceptedHead(m, ts, batch, apply);
    }
  }

  /** When the client rejects the call for record `k`, and accepted those
      before it, the loop has made the planned calls up to and including
      record `k` and passes the rejection on. */
  lemma {:induction false} DispatchStopsAtRejection(m: TicketMap, ts: seq<Transition>, batch: seq<TestResult>, apply: Applier, k: nat, reason: string)
    requires k < |batch|
    requires forall i :: 0 <= i <= k ==> Resolve(ts, batch[i].status).Some?
    requires forall i :: 0 <= i < k ==>
               apply(Lookup(m, batch[i].title), Resolve(ts, batch[i].status).value).None?
    requires apply(Lookup(m, batch[k].title), Resolve(ts, batch[k].status).value) == Some(reason)
    ensures AllResolve(ts, batch[..k + 1])
    ensures Dispatch(m, ts, batch, apply) == Run(Planned(m, ts, batch[..k + 1]), Some(ClientFailure(reason)))
    decreases k
  {
    PrefixResolves(ts, batch, k + 1);
    if k > 0 {
      PrefixTail(batch, k);
      assert forall i :: 0 <= i < k ==> batch[1..][i] == batch[i + 1];
      DispatchStopsAtRejection(m, ts, batch[1..], apply, k - 1, reason);
      DispatchAcceptedHead(m, ts, batch, apply);
    }
  }

  // ---------------------------------------------------------------------
  // One invocation

  /** A first invocation whose load succeeds: the load, then the loop. */
  lemma FirstInvocationDispatches(r: Reporter, batch: seq<TestResult>, ts: seq<Transition>, apply: Applier)
    requires r.load.NotLoaded?
    ensures var v := OnTestComplete(r, batch, Listed(ts), apply);
            var d := Dispatch(r.testMap, ts, batch, apply);
            && v.reporter == r.(load := Loaded(ts))
            && v.calls == [ListTransitions(FirstIssueId(r.testMap))] + d.calls
            && v.error == d.failure
  {
  }

  /** A first invocation whose load succeeds and whose records all find
      their transition: one `listTransitions` for the first key's issue, then
      the planned `transitionIssue` calls, and no error. */
  lemma OnTestCompleteAllResolved(r: Reporter, batch: seq<TestResult>, ts: seq<Transition>, apply: Applier)
    requires r.load.NotLoaded?
    requires AllResolve(ts, batch)
    requires forall i :: 0 <= i < |batch| ==>
               apply(Lookup(r.testMap, batch[i].title), Resolve(ts, batch[i].status).value).None?
    ensures OnTestComplete(r, batch, Listed(ts), apply)
            == Invocation(r.(load := Loaded(ts)),
                          [ListTransitions(FirstIssueId(r.testMap))] + Planned(r.testMap, ts, batch),
                          None)
  {
    FirstInvocationDispatches(r, batch, ts, apply);
    DispatchAllResolved(r.testMap, ts, batch, apply);
  }

  /** A first invocation whose load succeeds but where record `k` is the
      first whose transition is not listed, the client accepting the calls
      before it: the load, then the calls for the records before `k`, then
      TRANSITION_NOT_FOUND. */
  lemma OnTestCompleteStopsAtMissing(r: Reporter, batch: seq<TestResult>, ts: seq<Transition>, apply: Applier, k: nat)
    requires r.load.NotLoaded?
    requires k < |batch|
    requires forall i :: 0 <= i < k ==> Resolve(ts, batch[i].status).Some?
    requires forall i :: 0 <= i < k ==>
               apply(Lookup(r.testMap, batch[i].title), Resolve(ts, batch[i].status).value).None?
    requires Resolve(ts, batch[k].status).None?
    ensures AllResolve(ts, batch[..k])
    ensures OnTestComplete(r, batch, Listed(ts), apply)
            == Invocation(r.(load := Loaded(ts)),
                          [ListTransitions(FirstIssueId(r.testMap))] + Planned(r.testMap, ts, batch[..k]),
                          Some(TransitionNotFound(TransitionFor(batch[k].status))))
  {
    FirstInvocationDispatches(r, batch, ts, apply);
    DispatchStopsAtMissing(r.testMap, ts, batch, apply, k);
  }

  /** An empty batch transitions nothing and cannot raise
      TRANSITION_NOT_FOUND; it still starts the load if none was started. */
  lemma EmptyBatchOnlyLoads(r: Reporter, reply: ListReply, apply: Applier)
    ensures var v := OnTestComplete(r, [], reply, apply);
            && v.calls == (if r.load.NotLoaded? then [ListTransitions(FirstIssueId(r.testMap))] else [])
            && (v.error.Some? <==> v.reporter.load.LoadFailed?)
  {
  }

  /** The load asks about the first key's issue, whatever the batch holds:
      two first invocations with different batches load the same way. */
  lemma LoadIgnoresBatch(r: Reporter, b1: seq<TestResult>, b2: seq<TestResult>, reply: ListReply, apply: Applier)
    requires r.load.NotLoaded?
    ensures var v1 := OnTestComplete(r, b1, reply, apply);
            var v2 := OnTestComplete(r, b2, reply, apply);
            && v1.reporter == v2.reporter
            && v1.calls[0] == v2.calls[0] == ListTransitions(FirstIssueId(r.testMap))
  {
  }

  /** Once the load has settled the client is not asked again, so the reply
      it would give makes no difference. */
  lemma SettledLoadIgnoresReply(r: Reporter, batch: seq<TestResult>, reply1: ListReply, reply2: ListReply, apply: Applier)
    requires Settled(r)
    ensures OnTestComplete(r, batch, reply1, apply) == OnTestComplete(r, batch, reply2, apply)
  {
  }

  // ---------------------------------------------------------------------
  // Counting listTransitions calls

  lemma {:induction false} ListCountAppend(a: seq<Call>, b: seq<Call>)
    ensures ListCount(a + b) == ListCount(a) + ListCount(b)
    decreases |a|
  {
    if |a| == 0 {
      assert a + b == b;
    } else {
      assert (a + b)[0] == a[0];
      assert (a + b)[1..] == a[1..] + b;
      ListCountAppend(a[1..], b);
    }
  }

  lemma {:induction false} NoListCalls(calls: seq<Call>)
    requires forall i :: 0 <= i < |calls| ==> calls[i].TransitionIssue?
    ensures ListCount(calls) == 0
    decreases |calls|
  {
    if |calls| > 0 {
      NoListCalls(calls[1..]);
    }
  }

  /** One invocation asks for the transitions exactly when none was asked for before. */
  lemma OnTestCompleteListCount(r: Reporter, batch: seq<TestResult>, reply: ListReply, apply: Applier)
    ensures ListCount(OnTestComplete(r, batch, reply, apply).calls) == if r.load.NotLoaded? then 1 else 0
  {
    var v := OnTestComplete(r, batch, reply, apply);
    if r.load.NotLoaded? {
      NoListCalls(v.calls[1..]);
    } else {
      NoListCalls(v.calls);
    }
  }

  // ---------------------------------------------------------------------
  // Invocations one after another

  /** After the first invocation nothing changes the reporter's state: the
      loaded transitions, or the rejection, are kept for good. */
  lemma {:induction false} SettledSessionKeepsReporter(r: Reporter, reqs: seq<Request>, apply: Applier)
    requires Settled(r)
    ensures Session(r, reqs, apply).reporter == r
    ensures ListCount(Session(r, reqs, apply).calls) == 0
    decreases |reqs|
  {
    if |reqs| > 0 {
      var v := OnTestComplete(r, reqs[0].batch, reqs[0].reply, apply);
      OnTestCompleteListCount(r, reqs[0].batch, reqs[0].reply, apply);
      SettledSessionKeepsReporter(v.reporter, reqs[1..], apply);
      ListCountAppend(v.calls, Session(v.reporter, reqs[1..], apply).calls);
    }
  }

  /** However many invocations a reporter serves, it asks for the
      transitions once: on the first, if it had not asked before. */
  lemma SessionLoadsOnce(r: Reporter, reqs: seq<Request>, apply: Applier)
    ensures ListCount(Session(r, reqs, apply).calls) == if r.load.NotLoaded? && 0 < |reqs| then 1 else 0
  {
    if |reqs| > 0 {
      var v := OnTestComplete(r, reqs[0].batch, reqs[0].reply, apply);
      OnTestCompleteListCount(r, reqs[0].batch, reqs[0].reply, apply);
      SettledSessionKeepsReporter(v.reporter, reqs[1..], apply);
      ListCountAppend(v.calls, Session(v.reporter, reqs[1..], apply).calls);
    }
  }

  /** A rejected load is never retried: every later invocation rethrows the
      same rejection and makes no call at all. */
  lemma {:induction false} FailedLoadIsFinal(r: Reporter, reqs: seq<Request>, apply: Applier)
    requires r.load.LoadFailed?
    ensures var h := Session(r, reqs, apply);
            && h.calls == []
            && h.reporter == r
            && forall i :: 0 <= i < |reqs| ==> h.failures[i] == Some(ClientFailure(r.load.reason))
    decreases |reqs|
  {
    if |reqs| > 0 {
      FailedLoadIsFinal(r, reqs[1..], apply);
      var h := Session(r, reqs, apply);
      var rest := Session(r, reqs[1..], apply);
      forall i | 1 <= i < |reqs|
        ensures h.failures[i] == Some(ClientFailure(r.load.reason))
      {
        assert h.failures[i] == rest.failures[i - 1];
      }
    }
  }

  // ---------------------------------------------------------------------
  // Overlapping invocations

  lemma {:induction false} BeginAllListCount(r: Reporter, n: nat)
    ensures ListCount(BeginAll(r, n).calls) == if r.load.NotLoaded? && 0 < n then 1 else 0
    ensures BeginAll(r, n).calls == if r.load.NotLoaded? && 0 < n then [ListTransitions(FirstIssueId(r.testMap))] else []
    decreases n
  {
    if n > 0 {
      var first := Begin(r);
      BeginAllListCount(first.reporter, n - 1);
      assert first.calls + BeginAll(first.reporter, n - 1).calls == first.calls;
    }
  }

  lemma {:induction false} ResumeAllMakesNoListCall(r: Reporter, batches: seq<seq<TestResult>>, apply: Applier)
    requires 0 < |batches| ==> Settled(r)
    ensures ListCount(ResumeAll(r, batches, apply).calls) == 0
    decreases |batches|
  {
    if |batches| > 0 {
      var run := Resume(r, batches[0], apply);
      NoListCalls(run.calls);
      ResumeAllMakesNoListCall(r, batches[1..], apply);
      ListCountAppend(run.calls, ResumeAll(r, batches[1..], apply).calls);
    }
  }

  /** Invocations that overlap before the load settles share one load: the
      client is asked for the transitions once in all, for the first key's
      issue, and before any transition is applied. */
  lemma OverlappingLoadsOnce(r: Reporter, batches: seq<seq<TestResult>>, reply: ListReply, apply: Applier)
    ensures var h := Overlapping(r, batches, reply, apply);
            ListCount(h.calls) == if r.load.NotLoaded? && 0 < |batches| then 1 else 0
    ensures var h := Overlapping(r, batches, reply, apply);
            r.load.NotLoaded? && 0 < |batches| ==> h.calls[0] == ListTransitions(FirstIssueId(r.testMap))
  {
    var s := BeginAll(r, |batches|);
    BeginAllListCount(r, |batches|);
    var r1 := if s.reporter.load.Pending? then Settle(s.reporter, reply) else s.reporter;
    ResumeAllMakesNoListCall(r1, batches, apply);
    ListCountAppend(s.calls, ResumeAll(r1, batches, apply).calls);
  }

  /** When the shared load is rejected, every overlapping invocation throws
      that same rejection and no transition is applied. */
  lemma OverlappingShareRejection(r: Reporter, batches: seq<seq<TestResult>>, reason: string, apply: Applier)
    requires r.load.NotLoaded? && 0 < |batches|
    ensures var h := Overlapping(r, batches, ListRejected(reason), apply);
            && h.calls == [ListTransitions(FirstIssueId(r.testMap))]
            && h.reporter.load == LoadFailed(reason)
            && forall i :: 0 <= i < |batches| ==> h.failures[i] == Some(ClientFailure(reason))
  {
    BeginAllListCount(r, |batches|);
  }

  // ---------------------------------------------------------------------
  // Later invocations run the loop over the stored transitions

  /** The reference for several invocations on one loaded list: the calls of
      one run of the loop per batch, concatenated in order. */
  function DispatchEach(m: TicketMap, ts: seq<Transition>, batches: seq<seq<TestResult>>, apply: Applier): seq<Call>
    decreases |batches|
  {
    if |batches| == 0 then []
    else Dispatch(m, ts, batches[0], apply).calls + DispatchEach(m, ts, batches[1..], apply)
  }

  /** The batches of a list of requests, in order. */
  function Batches(reqs: seq<Request>): (bs: seq<seq<TestResult>>)
    ensures |bs| == |reqs|
    ensures forall i :: 0 <= i < |reqs| ==> bs[i] == reqs[i].batch
  {
    seq(|reqs|, i requires 0 <= i < |reqs| => reqs[i].batch)
  }

  /** Invocations resuming on a loaded list each run the loop over it with
      their own batch: the trace is their runs in order, and invocation `i`
      throws what its run throws. */
  lemma {:induction false} ResumeAllDispatchesEach(r: Reporter, batches: seq<seq<TestResult>>, apply: Applier)
    requires r.load.Loaded?
    ensures var h := ResumeAll(r, batches, apply);
            && h.calls == DispatchEach(r.testMap, r.load.transitions, batches, apply)
            && forall i :: 0 <= i < |batches| ==>
                 h.failures[i] == Dispatch(r.testMap, r.load.transitions, batches[i], apply).failure
    decreases |batches|
  {
    if |batches| > 0 {
      ResumeAllDispatchesEach(r, batches[1..], apply);
      var h := ResumeAll(r, batches, apply);
      var rest := ResumeAll(r, batches[1..], apply);
      forall i | 1 <= i < |batches|
        ensures h.failures[i] == Dispatch(r.testMap, r.load.transitions, batches[i], apply).failure
      {
        assert h.failures[i] == rest.failures[i - 1];
        assert batches[1..][i - 1] == batches[i];
      }
    }
  }

  /** Invocations that overlap a successful load: one `listTransitions` for
      the first key's issue, then each invocation's run of the loop over the
      listed transitions, in the order they started. */
  lemma OverlappingDispatchesEach(r: Reporter, batches: seq<seq<TestResult>>, ts: seq<Transition>, apply: Applier)
    requires r.load.NotLoaded? && 0 < |batches|
    ensures var h := Overlapping(r, batches, Listed(ts), apply);
            && h.reporter == r.(load := Loaded(ts))
            && h.calls == [ListTransitions(FirstIssueId(r.testMap))] + DispatchEach(r.testMap, ts, batches, apply)
            && forall i :: 0 <= i < |batches| ==> h.failures[i] == Dispatch(r.testMap, ts, batches[i], apply).failure
  {
    BeginAllListCount(r, |batches|);
    assert BeginAll(r, |batches|).reporter == r.(load := Pending);
    ResumeAllDispatchesEach(r.(load := Loaded(ts)), batches, apply);
  }

  /** Awaited invocations on a loaded reporter each run the loop over the
      stored list with their own batch, and the reporter stays as it is. */
  lemma {:induction false} LoadedSessionDispatchesEach(r: Reporter, reqs: seq<Request>, apply: Applier)
    requires r.load.Loaded?
    ensures var h := Session(r, reqs, apply);
            && h.reporter == r
            && h.calls == DispatchEach(r.testMap, r.load.transitions, Batches(reqs), apply)
            && forall i :: 0 <= i < |reqs| ==>
                 h.failures[i] == Dispatch(r.testMap, r.load.transitions, reqs[i].batch, apply).failure
    decreases |reqs|
  {
    if |reqs| > 0 {
      LoadedSessionDispatchesEach(r, reqs[1..], apply);
      assert Batches(reqs)[1..] == Batches(reqs[1..]);
      var h := Session(r, reqs, apply);
      var rest := Session(r, reqs[1..], apply);
      forall i | 1 <= i < |reqs|
        ensures h.failures[i] == Dispatch(r.testMap, r.load.transitions, reqs[i].batch, apply).failure
      {
        assert h.failures[i] == rest.failures[i - 1];
        assert reqs[1..][i - 1] == reqs[i];
      }
    }
  }

  lemma AppendAssociates<T>(a: seq<T>, b: seq<T>, c: seq<T>)
    ensures (a + b) + c == a + (b + c)
  {
  }

  /** Awaited invocations on a fresh reporter whose first load succeeds: one
      `listTransitions` for the first key's issue, then every invocation's
      run of the loop over the listed transitions, in order. The replies of
      later requests are never used. */
  lemma SessionDispatchesEach(r: Reporter, reqs: seq<Request>, ts: seq<Transition>, apply: Applier)
    requires r.load.NotLoaded? && 0 < |reqs| && reqs[0].reply == Listed(ts)
    ensures var h := Session(r, reqs, apply);
            && h.reporter == r.(load := Loaded(ts))
            && h.calls == [ListTransitions(FirstIssueId(r.testMap))] + DispatchEach(r.testMap, ts, Batches(reqs), apply)
            && forall i :: 0 <= i < |reqs| ==> h.failures[i] == Dispatch(r.testMap, ts, reqs[i].batch, apply).failure
  {
    var v := OnTestComplete(r, reqs[0].batch, Listed(ts), apply);
    var d := Dispatch(r.testMap, ts, reqs[0].batch, apply);
    FirstInvocationDispatches(r, reqs[0].batch, ts, apply);
    var loaded := r.(load := Loaded(ts));
    assert v.reporter == loaded;
    LoadedSessionDispatchesEach(loaded, reqs[1..], apply);
    var rest := Session(loaded, reqs[1..], apply);
    var bs := Batches(reqs);
    assert bs[0] == reqs[0].batch;
    assert bs[1..] == Batches(reqs[1..]);
    assert DispatchEach(r.testMap, ts, bs, apply) == d.calls + rest.calls;
    var h := Session(r, reqs, apply);
    assert h == History(rest.reporter, v.calls + rest.calls, [v.error] + rest.failures);
    AppendAssociates([ListTransitions(FirstIssueId(r.testMap))], d.calls, rest.calls);
    forall i | 1 <= i < |reqs|
      ensures h.failures[i] == Dispatch(r.testMap, ts, reqs[i].batch, apply).failure
    {
      assert h.failures[i] == rest.failures[i - 1];
      assert reqs[1..][i - 1] == reqs[i];
    }
  }
}
