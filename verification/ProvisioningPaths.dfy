/** Paths of the provisioning machine: what its methods may take for granted across an await. */
module ProvisioningPaths {
  import opened Wrappers
  import opened Provisioning
  import opened ProvisioningRuns

  ghost predicate Joins(run: Run, s: State, s': State) {
    && |run.states| == |run.actions| + 1 && run.states[0] == s && run.states[|run.actions|] == s'
    && forall i {:trigger run.StepOk(i)} :: 0 <= i < |run.actions| ==> run.StepOk(i)
  }

  /** Some actions, one after the other, lead from `s` to `s'`. */
  ghost predicate Leads(s: State, s': State) {
    exists run :: Joins(run, s, s')
  }

  ghost predicate Reachable(s: State) {
    exists start :: Initial(start) && Leads(start, s)
  }

  lemma LeadsNowhere(s: State)
    ensures Leads(s, s)
  {
    assert Joins(Run([s], []), s, s);
  }

  lemma JoinStep(run: Run, s: State, s': State, a: Action)
    requires Joins(run, s, s') && Possible(s', a)
    ensures Leads(s, Apply(s', a))
  {
    var longer := Run(run.states + [Apply(s', a)], run.actions + [a]);
    forall i | 0 <= i < |longer.actions|
      ensures longer.StepOk(i)
    {
      if i < |run.actions| { assert run.StepOk(i); }
    }
    assert Joins(longer, s, Apply(s', a));
  }

  lemma LeadsOn(s: State, s': State, a: Action)
    requires Leads(s, s') && Possible(s', a)
    ensures Leads(s, Apply(s', a))
  {
    var run :| Joins(run, s, s');
    JoinStep(run, s, s', a);
  }

  lemma {:induction false} JoinPrefix(start: State, s: State, run: Run, i: nat)
    requires Leads(start, s) && |run.states| == |run.actions| + 1 && run.states[0] == s && i <= |run.actions|
    requires forall k {:trigger run.StepOk(k)} :: 0 <= k < |run.actions| ==> run.StepOk(k)
    ensures Leads(start, run.states[i])
  {
    if i > 0 {
      JoinPrefix(start, s, run, i - 1);
      assert run.StepOk(i - 1);
      LeadsOn(start, run.states[i - 1], run.actions[i - 1]);
    }
  }

  lemma LeadsTogether(start: State, s: State, s': State)
    requires Leads(start, s) && Leads(s, s')
    ensures Leads(start, s')
  {
    var run :| Joins(run, s, s');
    JoinPrefix(start, s, run, |run.actions|);
  }

  lemma StaysReachable(s: State, s': State)
    requires Reachable(s) && Leads(s, s')
    ensures Reachable(s')
  {
    var start :| Initial(start) && Leads(start, s);
    LeadsTogether(start, s, s');
  }

  /** A reachable state ends some run, so the theorems about runs hold of it. */
  lemma ReachedByRun(s: State) returns (run: Run)
    requires Reachable(s)
    ensures run.Valid() && run.states[|run.actions|] == s
  {
    var start :| Initial(start) && Leads(start, s);
    run :| Joins(run, start, s);
  }

  lemma ReachableIsOk(s: State)
    requires Reachable(s)
    ensures JobsOk(s) && CleanupOk(s)
  {
    var run := ReachedByRun(s);
    RunKeepsJobs(run, |run.actions|, |run.actions|);
    DisabledAccountsAreCleanedUp(run, |run.actions|);
  }

  // ---------------------------------------------------------------------------
  // A request waiting for its clean-up job

  ghost predicate Waits(s: State, id: JobId, user: UserId) {
    id in s.jobs && id in s.cleanups && s.cleanups[id] == user
  }

  lemma HandlersKeepCleanups(s: State, a: Action)
    requires Possible(s, a) && !a.Answer? && !a.CleanUpDone? && !a.EnableCleanup?
    ensures Apply(s, a).cleanups == s.cleanups
  {
  }

  lemma WorkersKeepCleanups(s: State, a: Action)
    requires Possible(s, a) && (a.Answer? || a.CleanUpDone?)
    ensures Apply(s, a).cleanups == s.cleanups
  {
  }

  lemma StepKeepsWaits(s: State, a: Action, id: JobId, user: UserId)
    requires Possible(s, a) && JobsKept(s, Apply(s, a)) && Waits(s, id, user)
    ensures Waits(Apply(s, a), id, user)
  {
    if a.EnableCleanup? {
      assert a.id != id;
    } else if a.Answer? || a.CleanUpDone? {
      WorkersKeepCleanups(s, a);
    } else {
      HandlersKeepCleanups(s, a);
    }
  }

  lemma {:induction false} WaitsOnPath(run: Run, i: nat, id: JobId, user: UserId)
    requires |run.states| == |run.actions| + 1 && i <= |run.actions| && JobsOk(run.states[0])
    requires forall k {:trigger run.StepOk(k)} :: 0 <= k < |run.actions| ==> run.StepOk(k)
    requires Waits(run.states[0], id, user)
    ensures JobsOk(run.states[i]) && Waits(run.states[i], id, user)
  {
    if i > 0 {
      WaitsOnPath(run, i - 1, id, user);
      assert run.StepOk(i - 1);
      StepKeepsJobs(run.states[i - 1], run.actions[i - 1]);
      StepKeepsWaits(run.states[i - 1], run.actions[i - 1], id, user);
    }
  }

  lemma KeepsWaiting(s: State, s': State, id: JobId, user: UserId)
    requires Reachable(s) && Leads(s, s') && Waits(s, id, user)
    ensures Waits(s', id, user)
  {
    ReachableIsOk(s);
    var run :| Joins(run, s, s');
    WaitsOnPath(run, |run.actions|, id, user);
  }

  lemma SomeFound(s: State, call: Call) returns (found: Option<DeviceId>)
    ensures FindsDevice(s, call, found)
  {
    if call.op == RevokeDevice && call.user.Some? && call.payload.token.Some? {
      if d :| d in s.devices && s.devices[d].user == call.user.value && !s.devices[d].revoked
              && s.devices[d].token == call.payload.token.value {
        return Some(d);
      }
    }
    found := None;
  }
}
