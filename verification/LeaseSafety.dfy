/** When the lease excludes: exactly when a whole batch fits inside it. */
module LeaseSafety {
  import opened Wrappers
  import opened Schema
  import opened Lease

  predicate Fits(b: Bounds) { b.n * b.d < IN_FLIGHT_LEASE }

  /** No delivery is twice in flight, in two batches or in one. */
  ghost predicate Exclusive(s: Fleet) {
    forall w, v, i, j | w in s.workers && v in s.workers && 0 <= i < |s.workers[w].batch| && 0 <= j < |s.workers[v].batch|
                        && s.workers[w].batch[i].id == s.workers[v].batch[j].id :: w == v && i == j
  }

  /** A worker is on schedule: what is left of its batch ends in time. */
  ghost predicate OnSchedule(w: Worker, b: Bounds, now: Time) {
    && w.batch != []
    && w.since <= now <= w.since + b.d
    && w.since + |w.batch| * b.d <= w.claimedAt + b.n * b.d
  }

  ghost predicate Scheduled(s: Fleet, b: Bounds) {
    forall w :: w in s.workers ==> OnSchedule(s.workers[w], b, s.now)
  }

  ghost predicate Leases(rows: map<Id, Delivery>, w: Worker, job: Job) {
    job.id in rows ==>
      && rows[job.id].status == DeliveryStatus.Pending
      && rows[job.id].attemptCount == job.seen
      && rows[job.id].nextAttemptAt == w.claimedAt + IN_FLIGHT_LEASE
  }

  /** A row in flight is as its worker left it when it claimed it. */
  ghost predicate Held(s: Fleet) {
    forall w, i :: w in s.workers && 0 <= i < |s.workers[w].batch| ==> Leases(s.rows, s.workers[w], s.workers[w].batch[i])
  }

  ghost predicate Known(s: Fleet) {
    && (forall id :: id in s.rows ==> id < s.nextId)
    && (forall w, i :: w in s.workers && 0 <= i < |s.workers[w].batch| ==> s.workers[w].batch[i].id < s.nextId)
  }

  ghost predicate Safe(s: Fleet, b: Bounds) { Scheduled(s, b) && Held(s) && Exclusive(s) && Known(s) }

  lemma NotYetDue(s: Fleet, b: Bounds, w: Id, i: nat)
    requires Fits(b) && Safe(s, b) && w in s.workers && i < |s.workers[w].batch|
    ensures var id := s.workers[w].batch[i].id; id in s.rows ==> !Due(s.rows[id], s.now)
  {
    hide Exclusive, Known;
    var worker := s.workers[w];
    assert OnSchedule(worker, b, s.now);
    assert |worker.batch| * b.d >= b.d by { assert (|worker.batch| - 1) * b.d >= 0; }
    assert Leases(s.rows, worker, worker.batch[i]);
  }

  lemma ClaimScheduled(s: Fleet, b: Bounds, w: Id, ids: seq<Id>)
    requires Scheduled(s, b) && 0 < |ids| <= b.n && forall i :: 0 <= i < |ids| ==> ids[i] in s.rows
    ensures OnSchedule(Worker(Jobs(s.rows, ids), s.now, s.now), b, s.now)
  {
    hide Jobs;
    MulMonotone(|ids|, b.n, b.d);
  }

  lemma MulMonotone(k: nat, n: nat, d: nat)
    requires k <= n
    ensures k * d <= n * d
  {
    assert n * d == k * d + (n - k) * d;
  }

  lemma ClaimSafe(s: Fleet, b: Bounds, w: Id, ids: seq<Id>)
    requires Fits(b) && Safe(s, b)
    requires w !in s.workers && |ids| <= b.n && Claimable(s.rows, ids, s.now)
    ensures Safe(Apply(s, b, Claim(w, ids)), b)
  {
    hide Fits, Due, OnSchedule;
    var t := Apply(s, b, Claim(w, ids));
    ClaimScheduled(s, b, w, ids);
    forall v, i | v in s.workers && 0 <= i < |s.workers[v].batch| ensures s.workers[v].batch[i].id !in ids {
      NotYetDue(s, b, v, i);
    }
    ClaimHeld(s, b, w, ids);
  }

  lemma ClaimHeld(s: Fleet, b: Bounds, w: Id, ids: seq<Id>)
    requires Held(s) && w !in s.workers && |ids| <= b.n && Claimable(s.rows, ids, s.now)
    requires forall v, i :: v in s.workers && 0 <= i < |s.workers[v].batch| ==> s.workers[v].batch[i].id !in ids
    ensures Held(Apply(s, b, Claim(w, ids)))
  {
    var t := Apply(s, b, Claim(w, ids));
    forall v, i | v in t.workers && 0 <= i < |t.workers[v].batch| ensures Leases(t.rows, t.workers[v], t.workers[v].batch[i]) {
      if v in s.workers {
        assert Leases(s.rows, s.workers[v], s.workers[v].batch[i]);
      } else {
        assert ids[i] in ids && Due(s.rows[ids[i]], s.now);
      }
    }
  }

  /** Where the jobs of a fleet were before the report. */
  lemma ReportJobs(s: Fleet, w: Id, outcome: Outcome, v: Id, i: nat)
    requires w in s.workers && s.workers[w].batch != []
    requires var t := ReportHead(s, w, outcome); v in t.workers && i < |t.workers[v].batch|
    ensures var t := ReportHead(s, w, outcome);
            var k := if v == w then i + 1 else i;
            v in s.workers && k < |s.workers[v].batch| && t.workers[v].batch[i] == s.workers[v].batch[k]
            && t.workers[v].claimedAt == s.workers[v].claimedAt
  {
  }

  lemma ReportSafe(s: Fleet, b: Bounds, w: Id, outcome: Outcome)
    requires Safe(s, b) && w in s.workers && s.workers[w].batch != []
    ensures Safe(ReportHead(s, w, outcome), b)
  {
    hide OnSchedule, Leases, Settle, ReportHead;
    var t := ReportHead(s, w, outcome);
    forall v, i | v in t.workers && 0 <= i < |t.workers[v].batch|
      ensures Leases(t.rows, t.workers[v], t.workers[v].batch[i]) && t.workers[v].batch[i].id < t.nextId
    {
      ReportJobs(s, w, outcome, v, i);
      ReportElsewhere(s, w, outcome, v, i);
    }
    forall v | v in t.workers ensures OnSchedule(t.workers[v], b, t.now) {
      ReportSchedule(s, b, w, outcome, v);
    }
    forall u, v, i, j | u in t.workers && v in t.workers && 0 <= i < |t.workers[u].batch| && 0 <= j < |t.workers[v].batch|
                        && t.workers[u].batch[i].id == t.workers[v].batch[j].id
      ensures u == v && i == j
    {
      ReportJobs(s, w, outcome, u, i);
      ReportJobs(s, w, outcome, v, j);
    }
    ReportRows(s, w, outcome);
  }

  lemma ReportRows(s: Fleet, w: Id, outcome: Outcome)
    requires w in s.workers && s.workers[w].batch != []
    ensures ReportHead(s, w, outcome).rows.Keys == s.rows.Keys && ReportHead(s, w, outcome).nextId == s.nextId
  {
  }

  lemma ReportElsewhere(s: Fleet, w: Id, outcome: Outcome, v: Id, i: nat)
    requires Exclusive(s) && Held(s) && Known(s) && w in s.workers && s.workers[w].batch != []
    requires var t := ReportHead(s, w, outcome); v in t.workers && i < |t.workers[v].batch|
    ensures var t := ReportHead(s, w, outcome);
            Leases(t.rows, t.workers[v], t.workers[v].batch[i]) && t.workers[v].batch[i].id < t.nextId
  {
    ReportJobs(s, w, outcome, v, i);
    hide Settle;
    var k := if v == w then i + 1 else i;
    assert Leases(s.rows, s.workers[v], s.workers[v].batch[k]);
    assert s.workers[w].batch[0].id != s.workers[v].batch[k].id;
  }

  lemma ReportSchedule(s: Fleet, b: Bounds, w: Id, outcome: Outcome, v: Id)
    requires Scheduled(s, b) && w in s.workers && s.workers[w].batch != []
    requires v in ReportHead(s, w, outcome).workers
    ensures OnSchedule(ReportHead(s, w, outcome).workers[v], b, ReportHead(s, w, outcome).now)
  {
    var k := |s.workers[w].batch|;
    assert OnSchedule(s.workers[v], b, s.now);
    assert k * b.d == (k - 1) * b.d + b.d;
  }

  lemma StepSafe(s: Fleet, b: Bounds, step: Step)
    requires Fits(b) && Safe(s, b)
    ensures Safe(Apply(s, b, step), b)
  {
    hide Fits, Claimable, ReportHead;
    match step
    case Claim(w, ids) =>
      if w !in s.workers && |ids| <= b.n && Claimable(s.rows, ids, s.now) {
        ClaimSafe(s, b, w, ids);
      }
    case Report(w, outcome) =>
      if w in s.workers && s.workers[w].batch != [] {
        ReportSafe(s, b, w, outcome);
      }
    case _ =>
  }

  lemma {:induction false} RunSafe(s: Fleet, b: Bounds, run: seq<Step>)
    requires Fits(b) && Safe(s, b)
    ensures Safe(Exec(s, b, run), b)
    decreases |run|
  {
    hide Safe;
    if run != [] {
      StepSafe(s, b, run[0]);
      RunSafe(Apply(s, b, run[0]), b, run[1..]);
    }
  }

  lemma ReachableSafe(s: Fleet, b: Bounds)
    requires Fits(b) && Reachable(s, b)
    ensures Safe(s, b)
  {
    var run: seq<Step> :| s == Exec(NoFleet, b, run);
    assert Safe(NoFleet, b);
    hide Safe;
    RunSafe(NoFleet, b, run);
  }

  // ----- final statuses under exclusion ------------------------------------

  /** Delivered, failed and abandoned are left alone by the next step. */
  lemma FinalStep(s: Fleet, b: Bounds, step: Step, id: Id)
    requires Safe(s, b) && id in s.rows && s.rows[id].status != DeliveryStatus.Pending
    ensures id in Apply(s, b, step).rows ==> Apply(s, b, step).rows[id] == s.rows[id]
  {
    hide Scheduled, Exclusive, Settle;
    match step
    case Report(w, outcome) =>
      if w in s.workers && s.workers[w].batch != [] {
        assert Leases(s.rows, s.workers[w], s.workers[w].batch[0]);
      }
    case Claim(w, ids) =>
    case _ =>
  }

  lemma {:induction false} GoneForever(s: Fleet, b: Bounds, run: seq<Step>, id: Id)
    requires id !in s.rows && id < s.nextId
    ensures id !in Exec(s, b, run).rows
    decreases |run|
  {
    if run != [] {
      assert id !in Apply(s, b, run[0]).rows;
      GoneForever(Apply(s, b, run[0]), b, run[1..], id);
    }
  }

  lemma {:induction false} FinalAbsorbs(s: Fleet, b: Bounds, run: seq<Step>, id: Id)
    requires Fits(b) && Safe(s, b) && id in s.rows && s.rows[id].status != DeliveryStatus.Pending
    ensures id in Exec(s, b, run).rows ==> Exec(s, b, run).rows[id] == s.rows[id]
    decreases |run|
  {
    assert Known(s);
    hide Safe;
    if run != [] {
      var t := Apply(s, b, run[0]);
      StepSafe(s, b, run[0]);
      FinalStep(s, b, run[0], id);
      if id in t.rows {
        FinalAbsorbs(t, b, run[1..], id);
      } else {
        GoneForever(t, b, run[1..], id);
      }
    }
  }

  // ----- the attempt count is a termination measure ------------------------

  /** How many reports of a run are about one delivery that still exists. */
  function Reports(s: Fleet, b: Bounds, run: seq<Step>, id: Id): nat
    decreases |run|
  {
    if run == [] then 0
    else (if ReportsOn(s, run[0], id) then 1 else 0) + Reports(Apply(s, b, run[0]), b, run[1..], id)
  }

  predicate ReportsOn(s: Fleet, step: Step, id: Id) {
    step.Report? && step.w in s.workers && s.workers[step.w].batch != [] && s.workers[step.w].batch[0].id == id && id in s.rows
  }

  lemma CountStep(s: Fleet, b: Bounds, step: Step, id: Id)
    requires Safe(s, b) && id in s.rows && id in Apply(s, b, step).rows
    ensures Apply(s, b, step).rows[id].attemptCount == s.rows[id].attemptCount + if ReportsOn(s, step, id) then 1 else 0
  {
    hide Scheduled, Exclusive;
    if step.Report? && step.w in s.workers && s.workers[step.w].batch != [] {
      assert Leases(s.rows, s.workers[step.w], s.workers[step.w].batch[0]);
    }
  }

  lemma {:induction false} CountsReports(s: Fleet, b: Bounds, run: seq<Step>, id: Id)
    requires Fits(b) && Safe(s, b) && id in s.rows
    ensures id in Exec(s, b, run).rows ==> Exec(s, b, run).rows[id].attemptCount == s.rows[id].attemptCount + Reports(s, b, run, id)
    decreases |run|
  {
    assert Known(s);
    hide Safe, ReportsOn;
    if run != [] {
      var t := Apply(s, b, run[0]);
      StepSafe(s, b, run[0]);
      if id in t.rows {
        CountStep(s, b, run[0], id);
        CountsReports(t, b, run[1..], id);
      } else {
        GoneForever(t, b, run[1..], id);
      }
    }
  }

  lemma {:induction false} GoneUnreported(s: Fleet, b: Bounds, run: seq<Step>, id: Id)
    requires id !in s.rows && id < s.nextId
    ensures Reports(s, b, run, id) == 0
    decreases |run|
  {
    if run != [] {
      assert id !in Apply(s, b, run[0]).rows;
      GoneUnreported(Apply(s, b, run[0]), b, run[1..], id);
    }
  }

  /** A delivery is attempted and reported at most six times in all. */
  lemma {:induction false} FewReports(s: Fleet, b: Bounds, run: seq<Step>, id: Id)
    requires Fits(b) && Safe(s, b) && RowsSound(s) && JobsSound(s) && id in s.rows
    ensures Reports(s, b, run, id) <= MAX_DELIVERY_ATTEMPTS - s.rows[id].attemptCount
    decreases |run|
  {
    assert Known(s) && RowSound(s, id);
    hide Safe, RowsSound, JobsSound, ReportsOn;
    if run != [] {
      var t := Apply(s, b, run[0]);
      StepSafe(s, b, run[0]);
      StepSound(s, b, run[0]);
      if id in t.rows {
        CountStep(s, b, run[0], id);
        FewReports(t, b, run[1..], id);
      } else {
        assert !ReportsOn(s, run[0], id) by {
          RemovedUnreported(s, b, run[0], id);
        }
        GoneUnreported(t, b, run[1..], id);
      }
    }
  }

  lemma RemovedUnreported(s: Fleet, b: Bounds, step: Step, id: Id)
    requires id in s.rows && id !in Apply(s, b, step).rows
    ensures !ReportsOn(s, step, id)
  {
  }

  // ----- the two theorems --------------------------------------------------

  ghost predicate AlwaysExclusive(b: Bounds) { forall s :: Reachable(s, b) ==> Exclusive(s) }

  predicate Finished(s: Fleet, id: Id) { id in s.rows && s.rows[id].status != DeliveryStatus.Pending }

  ghost predicate AlwaysFinal(b: Bounds) {
    forall s, run: seq<Step>, id | Reachable(s, b) && Finished(s, id) && id in Exec(s, b, run).rows ::
      Exec(s, b, run).rows[id] == s.rows[id]
  }

  lemma FitsExcludes(b: Bounds)
    requires Fits(b)
    ensures AlwaysExclusive(b) && AlwaysFinal(b)
  {
    hide Fits, Scheduled, Held, Exclusive, Known;
    forall s | Reachable(s, b) ensures Exclusive(s) {
      ReachableSafe(s, b);
    }
    forall s, run: seq<Step>, id | Reachable(s, b) && Finished(s, id) && id in Exec(s, b, run).rows
      ensures Exec(s, b, run).rows[id] == s.rows[id]
    {
      ReachableSafe(s, b);
      FinalAbsorbs(s, b, run, id);
    }
  }
}
