/** The webhook delivery workers as a timed protocol. Any number of workers
    claim batches under a lease, deliver outside every transaction, and write
    each outcome by id without looking at the row's status. */
module Lease {
  import opened Wrappers
  import opened Schema

  const IN_FLIGHT_LEASE: nat := 60_000   // milliseconds
  const BATCH_SIZE: nat := 25
  const MAX_DELIVERY_ATTEMPTS: nat := 6
  const RETRY_DELAY_SECONDS: seq<nat> := [30, 120, 600, 1_800, 7_200]

  datatype Outcome = Accepted | Retriable | Refused | Disabled

  /** A DueRow: the delivery, and its attempt_count when it was claimed. */
  datatype Job = Job(id: Id, seen: nat)

  /** A worker part-way through its batch; `since` is when it took up the row at
      the head, `claimedAt` when it claimed the batch. */
  datatype Worker = Worker(batch: seq<Job>, claimedAt: Time, since: Time)

  /** `firstFailed` is history: when a delivery first failed retriably. */
  datatype Fleet = Fleet(now: Time, nextId: Id, rows: map<Id, Delivery>, workers: map<Id, Worker>, firstFailed: map<Id, Time>)

  /** What is assumed of the fleet: a batch holds at most `n` rows, and a worker
      spends at most `d` milliseconds on each. */
  datatype Bounds = Bounds(n: nat, d: nat)

  const NoFleet := Fleet(0, 0, map[], map[], map[])

  function NextRetryDelay(failedAttempts: nat): Option<nat> {
    if failedAttempts >= MAX_DELIVERY_ATTEMPTS || failedAttempts == 0 then None
    else Some(RETRY_DELAY_SECONDS[failedAttempts - 1])
  }

  /** applyOutcome: the columns it writes, whatever the row held. */
  function Settle(row: Delivery, attempt: nat, outcome: Outcome, now: Time): Delivery {
    match outcome
    case Accepted => row.(status := DeliveryStatus.Delivered, attemptCount := attempt)
    case Disabled => row.(status := DeliveryStatus.Abandoned, attemptCount := attempt)
    case Refused => row.(status := DeliveryStatus.Failed, attemptCount := attempt)
    case Retriable =>
      var delay := NextRetryDelay(attempt);
      if delay.None? || attempt >= MAX_DELIVERY_ATTEMPTS
      then row.(status := DeliveryStatus.Abandoned, attemptCount := attempt)
      else row.(status := DeliveryStatus.Pending, attemptCount := attempt, nextAttemptAt := now + 1000 * delay.value)
  }

  predicate Due(row: Delivery, now: Time) { row.status == DeliveryStatus.Pending && row.nextAttemptAt <= now }

  predicate Distinct(ids: seq<Id>) { forall i, j :: 0 <= i < j < |ids| ==> ids[i] != ids[j] }

  /** A list the claiming SELECT may return: due rows that no other transaction
      has locked, so possibly not all of them. */
  predicate Claimable(rows: map<Id, Delivery>, ids: seq<Id>, now: Time) {
    && ids != [] && Distinct(ids)
    && forall i :: 0 <= i < |ids| ==> ids[i] in rows && Due(rows[ids[i]], now)
  }

  function Jobs(rows: map<Id, Delivery>, ids: seq<Id>): (jobs: seq<Job>)
    requires forall i :: 0 <= i < |ids| ==> ids[i] in rows
    ensures |jobs| == |ids|
    ensures forall i :: 0 <= i < |ids| ==> jobs[i] == Job(ids[i], rows[ids[i]].attemptCount)
  {
    if ids == [] then [] else [Job(ids[0], rows[ids[0]].attemptCount)] + Jobs(rows, ids[1..])
  }

  function Leased(rows: map<Id, Delivery>, ids: seq<Id>, until: Time): map<Id, Delivery> {
    map id | id in rows :: if id in ids then rows[id].(nextAttemptAt := until) else rows[id]
  }

  datatype Step =
    | Tick(dt: nat)
    | Enqueue(endpointId: Id, eventId: Id, kind: EventType)
    | Remove(id: Id)                       // the endpoint is deleted
    | Claim(w: Id, ids: seq<Id>)
    | Report(w: Id, outcome: Outcome)      // the worker finishes the row at its head
    | Crash(w: Id)

  predicate MayTick(s: Fleet, b: Bounds, dt: nat) {
    forall w :: w in s.workers ==> s.now + dt <= s.workers[w].since + b.d
  }

  function Advance(s: Fleet, w: Id): map<Id, Worker>
    requires w in s.workers && s.workers[w].batch != []
  {
    if |s.workers[w].batch| == 1 then s.workers - {w}
    else s.workers[w := s.workers[w].(batch := s.workers[w].batch[1..], since := s.now)]
  }

  function ReportHead(s: Fleet, w: Id, outcome: Outcome): Fleet
    requires w in s.workers && s.workers[w].batch != []
  {
    var job := s.workers[w].batch[0];
    var rest := s.(workers := Advance(s, w));
    if job.id !in s.rows then rest   // the UPDATE finds no row
    else rest.(rows := s.rows[job.id := Settle(s.rows[job.id], job.seen + 1, outcome, s.now)],
               firstFailed := if outcome.Retriable? && job.id !in s.firstFailed then s.firstFailed[job.id := s.now] else s.firstFailed)
  }

  function Apply(s: Fleet, b: Bounds, step: Step): Fleet {
    match step
    case Tick(dt) => if MayTick(s, b, dt) then s.(now := s.now + dt) else s
    case Enqueue(p, e, kind) =>
      s.(rows := s.rows[s.nextId := Delivery(p, e, kind, DeliveryStatus.Pending, 0, s.now)], nextId := s.nextId + 1)
    case Remove(id) => s.(rows := s.rows - {id})
    case Claim(w, ids) =>
      if w !in s.workers && |ids| <= b.n && Claimable(s.rows, ids, s.now)
      then s.(rows := Leased(s.rows, ids, s.now + IN_FLIGHT_LEASE), workers := s.workers[w := Worker(Jobs(s.rows, ids), s.now, s.now)])
      else s
    case Report(w, outcome) => if w in s.workers && s.workers[w].batch != [] then ReportHead(s, w, outcome) else s
    case Crash(w) => s.(workers := s.workers - {w})
  }

  function Exec(s: Fleet, b: Bounds, run: seq<Step>): Fleet
    decreases |run|
  {
    if run == [] then s else Exec(Apply(s, b, run[0]), b, run[1..])
  }

  ghost predicate Reachable(s: Fleet, b: Bounds) {
    exists run: seq<Step> :: s == Exec(NoFleet, b, run)
  }

  // ----- what holds in every interleaving ----------------------------------

  /** Milliseconds that must pass between the first retriable failure and the
      moment attempt k + 1 is due. */
  function Backoff(k: nat): nat {
    if k == 0 || k > 5 then 0 else Backoff(k - 1) + 1000 * RETRY_DELAY_SECONDS[k - 1]
  }

  ghost predicate AfterFailures(firstFailed: map<Id, Time>, id: Id, k: nat, at: Time) {
    k > 0 ==> id in firstFailed && firstFailed[id] + Backoff(k) <= at
  }

  ghost predicate RowSound(s: Fleet, id: Id)
    requires id in s.rows
  {
    && id < s.nextId
    && s.rows[id].attemptCount <= MAX_DELIVERY_ATTEMPTS
    && (s.rows[id].status == DeliveryStatus.Pending ==>
          && s.rows[id].attemptCount < MAX_DELIVERY_ATTEMPTS
          && s.rows[id].nextAttemptAt <= s.now + 7_200_000
          && AfterFailures(s.firstFailed, id, s.rows[id].attemptCount, s.rows[id].nextAttemptAt))
  }

  ghost predicate JobSound(s: Fleet, w: Worker, job: Job) {
    && job.id < s.nextId
    && job.seen < MAX_DELIVERY_ATTEMPTS
    && w.claimedAt <= s.now
    && AfterFailures(s.firstFailed, job.id, job.seen, w.claimedAt)
  }

  ghost predicate RowsSound(s: Fleet) {
    && (forall id :: id in s.rows ==> RowSound(s, id))
    && (forall id :: id in s.firstFailed ==> s.firstFailed[id] <= s.now)
  }

  ghost predicate JobsSound(s: Fleet) {
    forall w, i :: w in s.workers && 0 <= i < |s.workers[w].batch| ==> JobSound(s, s.workers[w], s.workers[w].batch[i])
  }

  lemma ReportSound(s: Fleet, b: Bounds, w: Id, outcome: Outcome)
    requires RowsSound(s) && JobsSound(s) && w in s.workers && s.workers[w].batch != []
    ensures RowsSound(ReportHead(s, w, outcome)) && JobsSound(ReportHead(s, w, outcome))
  {
    var t := ReportHead(s, w, outcome);
    var job := s.workers[w].batch[0];
    assert JobSound(s, s.workers[w], job);
    forall id | id in t.rows ensures RowSound(t, id) {
      assert RowSound(s, id);
      if id == job.id {
        AfterRetry(s, w, outcome);
      }
    }
    forall v, i | v in t.workers && 0 <= i < |t.workers[v].batch| ensures JobSound(t, t.workers[v], t.workers[v].batch[i]) {
      var k := if v == w then i + 1 else i;
      assert JobSound(s, s.workers[v], s.workers[v].batch[k]);
    }
  }

  /** A retry is scheduled no earlier than the backoff of all failures so far. */
  lemma AfterRetry(s: Fleet, w: Id, outcome: Outcome)
    requires RowsSound(s) && JobsSound(s) && w in s.workers && s.workers[w].batch != []
    requires s.workers[w].batch[0].id in s.rows
    ensures var t := ReportHead(s, w, outcome);
            var id := s.workers[w].batch[0].id;
            RowSound(t, id)
  {
    var job := s.workers[w].batch[0];
    assert JobSound(s, s.workers[w], job);
    assert RowSound(s, job.id);
  }

  lemma ClaimSound(s: Fleet, b: Bounds, w: Id, ids: seq<Id>)
    requires RowsSound(s) && JobsSound(s)
    ensures RowsSound(Apply(s, b, Claim(w, ids))) && JobsSound(Apply(s, b, Claim(w, ids)))
  {
    var t := Apply(s, b, Claim(w, ids));
    forall id | id in t.rows ensures RowSound(t, id) {
      assert RowSound(s, id);
    }
    forall v, i | v in t.workers && 0 <= i < |t.workers[v].batch| ensures JobSound(t, t.workers[v], t.workers[v].batch[i]) {
      if v in s.workers {
        assert JobSound(s, s.workers[v], s.workers[v].batch[i]);
      } else {
        assert RowSound(s, ids[i]);
      }
    }
  }

  lemma StepSound(s: Fleet, b: Bounds, step: Step)
    requires RowsSound(s) && JobsSound(s)
    ensures RowsSound(Apply(s, b, step)) && JobsSound(Apply(s, b, step))
  {
    match step
    case Report(w, outcome) =>
      if w in s.workers && s.workers[w].batch != [] {
        ReportSound(s, b, w, outcome);
      }
    case Claim(w, ids) => ClaimSound(s, b, w, ids);
    case _ =>
      var t := Apply(s, b, step);
      forall id | id in t.rows ensures RowSound(t, id) {
        assert id in s.rows ==> RowSound(s, id);
      }
      forall v, i | v in t.workers && 0 <= i < |t.workers[v].batch| ensures JobSound(t, t.workers[v], t.workers[v].batch[i]) {
        assert JobSound(s, s.workers[v], s.workers[v].batch[i]);
      }
  }

  lemma {:induction false} RunSound(s: Fleet, b: Bounds, run: seq<Step>)
    requires RowsSound(s) && JobsSound(s)
    ensures RowsSound(Exec(s, b, run)) && JobsSound(Exec(s, b, run))
    decreases |run|
  {
    if run != [] {
      StepSound(s, b, run[0]);
      RunSound(Apply(s, b, run[0]), b, run[1..]);
    }
  }

  lemma ReachableSound(s: Fleet, b: Bounds)
    requires Reachable(s, b)
    ensures RowsSound(s) && JobsSound(s)
  {
    var run: seq<Step> :| s == Exec(NoFleet, b, run);
    RunSound(NoFleet, b, run);
  }

  /** Whatever overwrites what, a pending row has had at most five attempts, no
      row more than six, and a pending row is never more than two hours from
      being due again, even when its worker died. */
  lemma AttemptBudget(s: Fleet, b: Bounds, id: Id)
    requires Reachable(s, b) && id in s.rows
    ensures s.rows[id].attemptCount <= 6
    ensures s.rows[id].status == DeliveryStatus.Pending ==> s.rows[id].attemptCount <= 5 && s.rows[id].nextAttemptAt <= s.now + 7_200_000
  {
    ReachableSound(s, b);
    assert RowSound(s, id);
  }

  /** The sixth attempt is claimed no sooner than 9750 s after the first
      failure, in every interleaving. */
  lemma SixthAttemptWaits(s: Fleet, b: Bounds, w: Id, i: nat)
    requires Reachable(s, b) && w in s.workers && i < |s.workers[w].batch| && s.workers[w].batch[i].seen == 5
    ensures var id := s.workers[w].batch[i].id;
      id in s.firstFailed && s.firstFailed[id] + 9_750_000 <= s.workers[w].claimedAt <= s.now
  {
    ReachableSound(s, b);
    assert JobSound(s, s.workers[w], s.workers[w].batch[i]);
    assert Backoff(5) == Backoff(4) + 7_200_000;
    assert Backoff(3) == Backoff(2) + 600_000;
  }

  /** A retriable failure abandons the delivery at its sixth attempt exactly. */
  lemma AbandonsAtSixth(s: Fleet, b: Bounds, w: Id)
    requires Reachable(s, b) && w in s.workers && s.workers[w].batch != [] && s.workers[w].batch[0].id in s.rows
    ensures var job := s.workers[w].batch[0];
            var row := Apply(s, b, Report(w, Retriable)).rows[job.id];
      && (row.status == DeliveryStatus.Abandoned <==> row.attemptCount == 6)
      && (row.status == DeliveryStatus.Pending <==> row.attemptCount <= 5)
  {
    ReachableSound(s, b);
    assert JobSound(s, s.workers[w], s.workers[w].batch[0]);
  }

  /** What one outcome makes of a row on its attempt-th attempt: each status in
      terms of the outcome, and for a retry the wait after that attempt. */
  predicate SettledAs(was: Delivery, row: Delivery, attempt: nat, outcome: Outcome, now: Time) {
    && row == was.(status := row.status, attemptCount := attempt, nextAttemptAt := row.nextAttemptAt)
    && (row.status == DeliveryStatus.Delivered <==> outcome == Accepted)
    && (row.status == DeliveryStatus.Failed <==> outcome == Refused)
    && (row.status == DeliveryStatus.Abandoned <==> outcome == Disabled || (outcome == Retriable && attempt >= 6))
    && (row.status == DeliveryStatus.Pending <==> outcome == Retriable && attempt < 6)
    && (outcome == Retriable && 1 <= attempt < 6 ==> row.nextAttemptAt == now + 1000 * [30, 120, 600, 1_800, 7_200][attempt - 1])
    && (row.status != DeliveryStatus.Pending ==> row.nextAttemptAt == was.nextAttemptAt)
  }

  lemma SettlesAs(was: Delivery, attempt: nat, outcome: Outcome, now: Time)
    requires attempt >= 1
    ensures SettledAs(was, Settle(was, attempt, outcome, now), attempt, outcome, now)
  {
  }

  /** A report decides the row at the head of the worker's batch, by the outcome
      and the attempt it was claimed for, and no other row. */
  lemma OutcomeDecides(s: Fleet, b: Bounds, w: Id, outcome: Outcome)
    requires Reachable(s, b) && w in s.workers && s.workers[w].batch != []
    ensures var t := Apply(s, b, Report(w, outcome));
            var job := s.workers[w].batch[0];
      && t.rows.Keys == s.rows.Keys && 1 <= job.seen + 1 <= 6
      && (forall id :: id in s.rows && id != job.id ==> t.rows[id] == s.rows[id])
      && (job.id in s.rows ==> SettledAs(s.rows[job.id], t.rows[job.id], job.seen + 1, outcome, s.now))
  {
    hide Settle, Reachable, SettledAs;
    ReachableSound(s, b);
    var job := s.workers[w].batch[0];
    assert JobSound(s, s.workers[w], job);
    if job.id in s.rows {
      SettlesAs(s.rows[job.id], job.seen + 1, outcome, s.now);
    }
  }
}
