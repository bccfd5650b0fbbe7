/** Two overlapping enable requests, played out step by step. Both find the account pending without a job
    (its first request stopped between the upsert and the queueing) and both wait for a clean-up job. The
    first goes on, and its device is active by the time the second one goes on too. */
module ProvisioningRace {
  import opened Wrappers
  import opened Provisioning
  import opened ProvisioningRuns

  const TOKEN: Token := "tk_device"
  const OLD: Payload := Payload(0, Some(0), None)
  const NEW: Payload := Payload(1, Some(1), None)

  function Cleanup(status: JobStatus): Job {
    Job(Some(0), DisableAccount, OLD, status, if status == Queued then 0 else 1, 0,
        if status == Processing then Some(LEASE_MS) else None, None)
  }

  function ProvisionJob(status: JobStatus): Job {
    Job(Some(0), Provision, NEW, status, if status == Queued then 0 else 1, 0,
        if status == Processing then Some(LEASE_MS) else None, if status == Completed then Some(TOKEN) else None)
  }

  function Waiting(job: JobId): Call {
    if job == 2 then Call(2, LEASE_MS, 1, Some(0), Provision, NEW) else Call(job, LEASE_MS, 1, Some(0), DisableAccount, OLD)
  }

  const BOTH: map<JobId, UserId> := map[0 := 0, 1 := 0]

  function Moment(i: nat): State
    requires i <= 12
  {
    if i == 0 then State(0, map[], map[], map[], {}, {}, map[], {})
    else if i == 1 then State(0, map[0 := Account(0, Pending, 0)], map[], map[], {}, {}, map[], {})
    else if i == 2 then State(0, map[0 := Account(0, Pending, 0)], map[], map[0 := Cleanup(Queued)], {}, {}, map[0 := 0], {})
    else if i == 3 then
      State(0, map[0 := Account(0, Pending, 0)], map[], map[0 := Cleanup(Queued), 1 := Cleanup(Queued)], {}, {}, BOTH, {})
    else if i == 4 then
      State(0, map[0 := Account(0, Pending, 0)], map[], map[0 := Cleanup(Processing), 1 := Cleanup(Queued)], {Waiting(0)}, {}, BOTH, {})
    else if i == 5 then
      State(0, map[0 := Account(0, Pending, 0)], map[], map[0 := Cleanup(Processing), 1 := Cleanup(Processing)],
            {Waiting(0), Waiting(1)}, {}, BOTH, {})
    else if i == 6 then
      State(0, map[0 := Account(0, Disabled, 0)], map[], map[0 := Cleanup(Completed), 1 := Cleanup(Processing)], {Waiting(1)}, {}, BOTH, {0})
    else if i == 7 then
      State(0, map[0 := Account(1, Pending, 1)], map[], map[0 := Cleanup(Completed), 1 := Cleanup(Processing)], {Waiting(1)}, {}, BOTH, {})
    else if i == 8 then
      State(0, map[0 := Account(1, Pending, 1)], map[],
            map[0 := Cleanup(Completed), 1 := Cleanup(Processing), 2 := ProvisionJob(Queued)], {Waiting(1)}, {}, BOTH, {})
    else if i == 9 then
      State(0, map[0 := Account(1, Pending, 1)], map[],
            map[0 := Cleanup(Completed), 1 := Cleanup(Processing), 2 := ProvisionJob(Processing)], {Waiting(1), Waiting(2)}, {}, BOTH, {})
    else if i == 10 then
      State(0, map[0 := Account(1, Active, 1)], map[0 := Device(0, TOKEN, false, 1)],
            map[0 := Cleanup(Completed), 1 := Cleanup(Processing), 2 := ProvisionJob(Completed)], {Waiting(1)}, {}, BOTH, {})
    else if i == 11 then
      State(0, map[0 := Account(1, Active, 1)], map[0 := Device(0, TOKEN, false, 1)],
            map[0 := Cleanup(Completed), 1 := Cleanup(Completed), 2 := ProvisionJob(Completed)], {}, {}, BOTH, {1})
    else
      State(0, map[0 := Account(2, Pending, 2)], map[0 := Device(0, TOKEN, false, 1)],
            map[0 := Cleanup(Completed), 1 := Cleanup(Completed), 2 := ProvisionJob(Completed)], {}, {}, BOTH, {})
  }

  function Taken(i: nat): Action
    requires i < 12
  {
    if i == 0 then EnableAccount(0, 0, None)
    else if i == 1 then EnableCleanup(0, 0, 0)
    else if i == 2 then EnableCleanup(0, 1, 0)
    else if i == 3 then ClaimJob(0, 0, 0)
    else if i == 4 then ClaimJob(1, 0, 0)
    else if i == 5 then Answer(Waiting(0), Some(None), 0, None, 0)
    else if i == 6 then EnableAccount(0, 1, Some(0))
    else if i == 7 then QueueProvision(0, 2, 0)
    else if i == 8 then ClaimJob(2, 0, 0)
    else if i == 9 then Answer(Waiting(2), Some(Some(TOKEN)), 0, None, 0)
    else if i == 10 then Answer(Waiting(1), Some(None), 1, None, 0)
    else EnableAccount(0, 2, Some(1))
  }

  lemma FirstSteps(i: nat)
    requires i < 5
    ensures Possible(Moment(i), Taken(i)) && Moment(i + 1) == Apply(Moment(i), Taken(i))
  {
  }

  lemma FirstCleanup()
    ensures Possible(Moment(5), Taken(5)) && Moment(6) == Apply(Moment(5), Taken(5))
  {
    var s, call := Moment(5), Waiting(0);
    var s1 := s.(calls := s.calls - {call});
    assert s1.calls == {Waiting(1)};
    assert Holds(s, call) && !Outdated(s1, call);
    var s2 := Finalize(s1, call, None, 0, None).value;
    assert s2.accounts == map[0 := Account(0, Disabled, 0)] && s2.devices == map[];
    assert CompleteJob(s2, call, None) == Moment(6);
  }

  lemma MiddleSteps(i: nat)
    requires 6 <= i < 9
    ensures Possible(Moment(i), Taken(i)) && Moment(i + 1) == Apply(Moment(i), Taken(i))
  {
    if i == 6 { assert Possible(Moment(6), Taken(6)); assert Moment(6).ready - {0} == {}; }
  }

  lemma FirstToken()
    ensures Possible(Moment(9), Taken(9)) && Moment(10) == Apply(Moment(9), Taken(9))
  {
    var s, call := Moment(9), Waiting(2);
    var s1 := s.(calls := s.calls - {call});
    assert s1.calls == {Waiting(1)};
    assert Holds(s, call) && !Outdated(s1, call) && !KnownDevice(s1, 0, TOKEN);
    var s2 := Finalize(s1, call, Some(TOKEN), 0, None).value;
    assert s2.accounts == map[0 := Account(1, Active, 1)] && s2.devices == map[0 := Device(0, TOKEN, false, 1)];
    assert CompleteJob(s2, call, Some(TOKEN)) == Moment(10);
  }

  lemma SecondCleanup()
    ensures Possible(Moment(10), Taken(10)) && Moment(11) == Apply(Moment(10), Taken(10))
  {
    var s, call := Moment(10), Waiting(1);
    var s1 := s.(calls := s.calls - {call});
    assert s1.calls == {};
    assert Holds(s, call) && !Outdated(s1, call) && !Matches(s1, 0, 0, 0);
    assert Finalize(s1, call, None, 1, None) == Some(s1);
    assert CompleteJob(s1, call, None) == Moment(11);
  }

  lemma SecondUpsert()
    ensures Possible(Moment(11), Taken(11)) && Moment(12) == Apply(Moment(11), Taken(11))
  {
  }

  lemma RaceStep(i: nat)
    requires i < 12
    ensures Possible(Moment(i), Taken(i)) && Moment(i + 1) == Apply(Moment(i), Taken(i))
  {
    if i < 5 { FirstSteps(i); }
    else if i == 5 { FirstCleanup(); }
    else if i < 9 { MiddleSteps(i); }
    else if i == 9 { FirstToken(); }
    else if i == 10 { SecondCleanup(); }
    else { SecondUpsert(); }
  }

  /** The awaited upsert can leave an unrevoked token under an account that is pending at a later generation. */
  lemma OverlappingEnables() returns (run: Run)
    ensures run.Valid() && !Matched(run)
    ensures |run.states| == 13 && run.states[11] == Moment(11) && run.states[12] == Moment(12) && !TokensMatch(Moment(12))
  {
    run := Run(seq(13, i requires 0 <= i < 13 => Moment(i)), seq(12, i requires 0 <= i < 12 => Taken(i)));
    forall i | 0 <= i < 12
      ensures run.StepOk(i)
    {
      RaceStep(i);
    }
    assert run.states[12].devices[0] == Device(0, TOKEN, false, 1) && run.states[12].accounts[0].status == Pending;
  }
}
