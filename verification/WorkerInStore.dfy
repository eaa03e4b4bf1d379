/** The worker's steps are runs of the store's state machine, which lets the
    worker write what it likes to three columns of a delivery. So everything
    proved of the store holds while workers run. */
module WorkerInStore {
  import opened Wrappers
  import opened Schema
  import opened Store
  import Lease

  lemma ExecAdmin(s: State, cfg: Config, first: AdminStep, rest: seq<Step>)
    ensures Exec(s, cfg, [Admin(first)] + rest) == Exec(ApplyAdmin(s, first), cfg, rest)
  {
    hide ApplyAdmin;
    assert ([Admin(first)] + rest)[1..] == rest;
  }

  function With(s: State, deliveries: map<Id, Delivery>): State { s.(db := s.db.(deliveries := deliveries)) }

  predicate AllIn(rows: map<Id, Delivery>, ids: seq<Id>) { forall i :: 0 <= i < |ids| ==> ids[i] in rows }

  lemma LeasedNone(rows: map<Id, Delivery>, until: Time)
    ensures Lease.Leased(rows, [], until) == rows
  {
  }

  lemma LeasedOne(rows: map<Id, Delivery>, id: Id, rest: seq<Id>, until: Time)
    requires id in rows
    ensures Lease.Leased(rows[id := rows[id].(nextAttemptAt := until)], rest, until) == Lease.Leased(rows, [id] + rest, until)
  {
  }

  /** The leasing UPDATE is one worker write for each row it names. */
  lemma {:induction false} ClaimIsStoreRun(s: State, cfg: Config, ids: seq<Id>, until: Time) returns (run: seq<Step>)
    requires AllIn(s.db.deliveries, ids)
    ensures Exec(s, cfg, run) == With(s, Lease.Leased(s.db.deliveries, ids, until))
    decreases |ids|
  {
    hide Lease.Leased;
    var rows := s.db.deliveries;
    if ids == [] {
      LeasedNone(rows, until);
      run := [];
    } else {
      var id, rest := ids[0], ids[1..];
      assert ids == [id] + rest;
      var first := DoWorkerWrite(id, rows[id].status, rows[id].attemptCount, until);
      var t := ApplyAdmin(s, first);
      assert t == With(s, rows[id := rows[id].(nextAttemptAt := until)]);
      var more := ClaimIsStoreRun(t, cfg, rest, until);
      LeasedOne(rows, id, rest, until);
      ExecAdmin(s, cfg, first, more);
      run := [Admin(first)] + more;
    }
  }

  lemma ReportIsStoreRun(s: State, cfg: Config, f: Lease.Fleet, w: Id, outcome: Lease.Outcome) returns (run: seq<Step>)
    requires s.db.deliveries == f.rows && w in f.workers && f.workers[w].batch != []
    ensures Exec(s, cfg, run) == With(s, Lease.ReportHead(f, w, outcome).rows)
  {
    var job := f.workers[w].batch[0];
    if job.id in f.rows {
      var row := Lease.Settle(f.rows[job.id], job.seen + 1, outcome, f.now);
      var first := DoWorkerWrite(job.id, row.status, row.attemptCount, row.nextAttemptAt);
      ExecAdmin(s, cfg, first, []);
      run := [Admin(first)] + [];
    } else {
      run := [];
    }
  }

  /** Claiming, reporting and crashing are runs of the store that leave every
      other table, every call in flight and all history alone; and time passes
      for both alike. */
  lemma StepRefinesStore(s: State, cfg: Config, f: Lease.Fleet, b: Lease.Bounds, step: Lease.Step) returns (run: seq<Step>)
    requires s.db.deliveries == f.rows && s.now == f.now && WorkerStep(step)
    ensures Exec(s, cfg, run) == At(s, Lease.Apply(f, b, step))
  {
    hide Lease.ReportHead, Lease.Leased;
    run := [];
    match step {
      case Tick(dt) =>
        if Lease.MayTick(f, b, dt) {
          ExecOne(s, cfg, Tick(dt));
          run := [Tick(dt)];
        }
      case Claim(w, ids) =>
        if w !in f.workers && |ids| <= b.n && Lease.Claimable(f.rows, ids, f.now) {
          run := ClaimIsStoreRun(s, cfg, ids, f.now + Lease.IN_FLIGHT_LEASE);
        }
      case Report(w, outcome) =>
        if w in f.workers && f.workers[w].batch != [] {
          run := ReportIsStoreRun(s, cfg, f, w, outcome);
          ReportKeepsClock(f, w, outcome);
        }
      case _ =>
    }
    assert Exec(s, cfg, run) == At(s, Lease.Apply(f, b, step));
  }

  predicate WorkerStep(step: Lease.Step) { step.Tick? || step.Claim? || step.Report? || step.Crash? }

  /** The store with the fleet's rows and clock. */
  function At(s: State, f: Lease.Fleet): State { With(s, f.rows).(now := f.now) }

  lemma ReportKeepsClock(f: Lease.Fleet, w: Id, outcome: Lease.Outcome)
    requires w in f.workers && f.workers[w].batch != []
    ensures Lease.ReportHead(f, w, outcome).now == f.now
  {
  }

  lemma {:induction false} RunRefinesStore(s: State, cfg: Config, f: Lease.Fleet, b: Lease.Bounds, steps: seq<Lease.Step>)
    returns (run: seq<Step>)
    requires s.db.deliveries == f.rows && s.now == f.now && forall i :: 0 <= i < |steps| ==> WorkerStep(steps[i])
    ensures Exec(s, cfg, run) == At(s, Lease.Exec(f, b, steps))
    decreases |steps|
  {
    hide Lease.Apply, Exec;
    if steps == [] {
      ExecNothing(s, cfg);
      run := [];
    } else {
      var g := Lease.Apply(f, b, steps[0]);
      var first := StepRefinesStore(s, cfg, f, b, steps[0]);
      var rest := RunRefinesStore(At(s, g), cfg, g, b, steps[1..]);
      ExecConcat(s, cfg, first, rest);
      run := first + rest;
    }
  }

  lemma ExecNothing(s: State, cfg: Config)
    ensures Exec(s, cfg, []) == s
  {
  }

  /** Whatever any number of workers do, in any interleaving, with crashes and
      with time passing, is a run of the store. */
  lemma WorkersRefineStore(s: State, cfg: Config, f: Lease.Fleet, b: Lease.Bounds, steps: seq<Lease.Step>)
    requires s.db.deliveries == f.rows && s.now == f.now && forall i :: 0 <= i < |steps| ==> WorkerStep(steps[i])
    ensures exists run: seq<Step> :: Exec(s, cfg, run) == At(s, Lease.Exec(f, b, steps))
  {
    hide Exec, Lease.Exec;
    var run := RunRefinesStore(s, cfg, f, b, steps);
  }
}
