/** One delivery worker as code: it claims a batch, delivers each row and
    writes its outcome, and so performs a run of the lease protocol. */
module WebhookWorker {
  import opened Wrappers
  import opened Schema
  import opened Lease
  import opened LeaseLimits

  datatype Reply = Status(code: nat) | TimedOut | NetworkError

  /** What the outside world does with one delivery: whether the URL guard and
      the secret let the request out, the reply, and how long it all took. */
  datatype Answer = Answer(urlAllowed: bool, secretOpens: bool, reply: Reply, took: nat)

  datatype DueRow = DueRow(job: Job, enabled: bool)

  predicate Sent(enabled: bool, a: Answer) { enabled && a.urlAllowed && a.secretOpens }

  function Deliver(enabled: bool, a: Answer): (o: Outcome)
    ensures o == Disabled <==> !enabled
    ensures o == Accepted <==> Sent(enabled, a) && a.reply.Status? && a.reply.code / 100 == 2
    ensures o == Retriable <==>
      Sent(enabled, a) && (a.reply.Status? ==> a.reply.code == 429 || a.reply.code / 100 == 5)
  {
    if !enabled then Disabled
    else if !a.urlAllowed then Refused
    else if !a.secretOpens then Refused
    else if !a.reply.Status? then Retriable
    else
      var status := a.reply.code;
      if 200 <= status < 300 then Accepted
      else if status == 429 then Retriable
      else if 400 <= status < 500 then Refused
      else if 500 <= status < 600 then Retriable
      else Refused
  }

  function DueRows(rows: map<Id, Delivery>, now: Time): set<Id> { set id | id in rows && Due(rows[id], now) }

  function Elapsed(net: Id -> Answer, ids: seq<Id>): nat {
    if ids == [] then 0 else Elapsed(net, ids[..|ids| - 1]) + net(ids[|ids| - 1]).took
  }

  lemma ElapsedNone(net: Id -> Answer, ids: seq<Id>)
    ensures Elapsed(net, ids[..0]) == 0
  {
  }

  lemma ElapsedNext(net: Id -> Answer, ids: seq<Id>, i: nat)
    requires i < |ids|
    ensures Elapsed(net, ids[..i + 1]) == Elapsed(net, ids[..i]) + net(ids[i]).took
  {
    assert ids[..i + 1][..i] == ids[..i];
  }

  predicate AllIn(rows: map<Id, Delivery>, ids: seq<Id>) { forall i :: 0 <= i < |ids| ==> ids[i] in rows }

  /** ORDER BY next_attempt_at. */
  predicate Ordered(rows: map<Id, Delivery>, ids: seq<Id>)
    requires AllIn(rows, ids)
  {
    forall i, j :: 0 <= i < j < |ids| ==> rows[ids[i]].nextAttemptAt <= rows[ids[j]].nextAttemptAt
  }

  /** Nothing left over was due before anything taken. */
  predicate Soonest(rows: map<Id, Delivery>, ids: seq<Id>, rest: set<Id>)
    requires rest <= rows.Keys && AllIn(rows, ids)
  {
    forall i, r :: 0 <= i < |ids| && r in rest ==> rows[ids[i]].nextAttemptAt <= rows[r].nextAttemptAt
  }

  /** The soonest due rows, in order, and all of them unless a batch is full. */
  ghost predicate IsBatch(rows: map<Id, Delivery>, now: Time, ids: seq<Id>) {
    && AllIn(rows, ids) && |ids| <= BATCH_SIZE && Distinct(ids)
    && (forall i :: 0 <= i < |ids| ==> Due(rows[ids[i]], now))
    && Ordered(rows, ids)
    && Soonest(rows, ids, DueRows(rows, now) - set i | 0 <= i < |ids| :: ids[i])
    && (|ids| < BATCH_SIZE ==> forall id :: id in DueRows(rows, now) ==> id in ids)
  }

  /** What the SELECT returns of each row, with its endpoint's enabled flag. */
  ghost predicate Captured(rows: map<Id, Delivery>, endpoints: map<Id, Endpoint>, ids: seq<Id>, batch: seq<DueRow>) {
    && |batch| == |ids| && AllIn(rows, ids)
    && forall i :: 0 <= i < |ids| ==>
         && rows[ids[i]].endpointId in endpoints
         && batch[i] == DueRow(Job(ids[i], rows[ids[i]].attemptCount), endpoints[rows[ids[i]].endpointId].enabled)
  }

  /** The first n rows of the batch have had the outcome their answers call for,
      counted from their attempts when claimed and timed when their turns were
      over; the rest of the batch is leased and no more; every other row is as
      it was. */
  ghost predicate Handled(before: map<Id, Delivery>, after: map<Id, Delivery>, endpoints: map<Id, Endpoint>, ids: seq<Id>,
                          n: nat, net: Id -> Answer, from: Time)
    requires AllIn(before, ids) && n <= |ids|
  {
    && after.Keys == before.Keys
    && (forall i :: 0 <= i < n ==>
          && before[ids[i]].endpointId in endpoints
          && AnsweredAs(before[ids[i]], after[ids[i]], endpoints[before[ids[i]].endpointId].enabled, net(ids[i]),
                        from + 60_000, from + Elapsed(net, ids[..i + 1])))
    && (forall i :: n <= i < |ids| ==> after[ids[i]] == before[ids[i]].(nextAttemptAt := from + 60_000))
    && (forall id :: id in before && id !in ids ==> after[id] == before[id])
  }

  /** What an answer makes of a claimed row. Delivered on a 2xx; failed when the
      request may not leave an enabled endpoint, or gets a status that is not
      2xx, 429 or 5xx; abandoned when the endpoint is disabled, or on any other
      failure at the sixth attempt; and else due again after the wait that
      follows this attempt. A row that is not retried keeps its lease. */
  predicate AnsweredAs(was: Delivery, row: Delivery, enabled: bool, a: Answer, lease: Time, at: Time) {
    var sent := enabled && a.urlAllowed && a.secretOpens;
    var accepted := sent && a.reply.Status? && 200 <= a.reply.code < 300;
    var again := sent && (a.reply.Status? ==> a.reply.code == 429 || 500 <= a.reply.code < 600);
    && row == was.(status := row.status, attemptCount := was.attemptCount + 1, nextAttemptAt := row.nextAttemptAt)
    && (row.status == DeliveryStatus.Delivered <==> accepted)
    && (row.status == DeliveryStatus.Failed <==> enabled && !accepted && !again)
    && (row.status == DeliveryStatus.Abandoned <==> !enabled || (again && row.attemptCount >= 6))
    && (row.status == DeliveryStatus.Pending <==> again && row.attemptCount < 6)
    && row.nextAttemptAt == if again && row.attemptCount < 6 then at + 1000 * [30, 120, 600, 1_800, 7_200][was.attemptCount] else lease
  }

  lemma DeliversAs(was: Delivery, enabled: bool, a: Answer, lease: Time, at: Time)
    ensures AnsweredAs(was, Settle(was.(nextAttemptAt := lease), was.attemptCount + 1, Deliver(enabled, a), at), enabled, a, lease, at)
  {
    var o := Deliver(enabled, a);
    assert o == Refused <==> o != Accepted && o != Disabled && o != Retriable;
    SettlesAs(was.(nextAttemptAt := lease), was.attemptCount + 1, o, at);
    hide Deliver, Settle;
  }

  /** The table and the clock that the workers share. */
  class Deliveries {
    var now: Time
    var nextId: Id
    var rows: map<Id, Delivery>
    var endpoints: map<Id, Endpoint>
    ghost var workers: map<Id, Worker>
    ghost var firstFailed: map<Id, Time>

    ghost predicate Valid()
      reads this
    {
      forall id :: id in rows ==> rows[id].endpointId in endpoints   // foreign key
    }

    ghost function Snapshot(): Fleet
      reads this
    {
      Fleet(now, nextId, rows, workers, firstFailed)
    }

    constructor ()
      ensures Valid() && Snapshot() == NoFleet && endpoints == map[]
    {
      now, nextId, rows, endpoints := 0, 0, map[], map[];
      workers, firstFailed := map[], map[];
    }
  }

  method Earliest(rows: map<Id, Delivery>, among: set<Id>) returns (first: Id)
    requires among != {} && among <= rows.Keys
    ensures first in among && forall id :: id in among ==> rows[first].nextAttemptAt <= rows[id].nextAttemptAt
  {
    first :| first in among;
    var rest := among - {first};
    while rest != {}
      invariant first in among && rest <= among
      invariant forall id :: id in among - rest ==> rows[first].nextAttemptAt <= rows[id].nextAttemptAt
      decreases rest
    {
      var id :| id in rest;
      rest := rest - {id};
      if rows[id].nextAttemptAt < rows[first].nextAttemptAt {
        first := id;
      }
    }
  }

  /** The claiming SELECT: the due rows, soonest first, at most a batch. */
  method SelectDue(rows: map<Id, Delivery>, now: Time) returns (ids: seq<Id>)
    ensures IsBatch(rows, now, ids) && AllIn(rows, ids) && (ids != [] ==> Claimable(rows, ids, now))
    ensures forall id :: id in ids ==> id in rows && rows[id].status == DeliveryStatus.Pending && rows[id].nextAttemptAt <= now
    ensures |ids| < 25 ==> forall id :: id in rows && rows[id].status == DeliveryStatus.Pending && rows[id].nextAttemptAt <= now ==> id in ids
  {
    ids := [];
    var rest := set id | id in rows && Due(rows[id], now);
    while rest != {} && |ids| < BATCH_SIZE
      invariant |ids| <= BATCH_SIZE && Distinct(ids) && rest <= DueRows(rows, now)
      invariant forall i :: 0 <= i < |ids| ==> ids[i] in DueRows(rows, now) && ids[i] !in rest
      invariant forall id :: id in DueRows(rows, now) ==> id in rest || id in ids
      invariant AllIn(rows, ids) && Ordered(rows, ids) && Soonest(rows, ids, rest)
      decreases rest
    {
      var id := Earliest(rows, rest);
      ghost var before := ids;
      ids := ids + [id];
      rest := rest - {id};
      assert ids[|before|] == id;
      assert forall x :: x in before ==> x in ids;
    }
    assert DueRows(rows, now) - (set i | 0 <= i < |ids| :: ids[i]) == rest;
  }

  class WebhookWorker {
    const table: Deliveries
    ghost const w: Id
    var timer: bool
    var running: bool
    var stopped: bool

    constructor (table: Deliveries, ghost w: Id)
      ensures this.table == table && this.w == w && !timer && !running && !stopped
    {
      this.table, this.w := table, w;
      timer, running, stopped := false, false, false;
    }

    method Start(workerEnabled: bool)
      modifies this`stopped, this`timer
      ensures if workerEnabled then timer && !stopped else timer == old(timer) && stopped == old(stopped)
    {
      if workerEnabled {
        stopped := false;
        ScheduleNext();
      }
    }

    method Stop()
      modifies this`stopped, this`timer
      ensures stopped && !timer
    {
      stopped := true;
      timer := false;
    }

    method ScheduleNext()
      modifies this`timer
      ensures timer == (old(timer) || !stopped)
    {
      if !stopped {
        timer := true;
      }
    }

    /** The timer fires: one tick, then the next one unless stopped. */
    method OnTimer(net: Id -> Answer, claimFails: bool, faultAt: nat, ghost d: nat) returns (ghost run: seq<Step>)
      requires timer && table.Valid() && table.workers == map[]
      requires forall id :: net(id).took <= d
      modifies this`running, this`timer, table`now, table`rows, table`workers, table`firstFailed
      ensures timer == !stopped && running == old(running)
      ensures table.Snapshot() == Exec(old(table.Snapshot()), Bounds(BATCH_SIZE, d), run)
    {
      timer := false;
      ghost var ids;
      ids, run := RunOnce(net, claimFails, faultAt, d);
      if !stopped {
        ScheduleNext();
      }
    }

    /** claimBatch: lease what it selects, and remember it as it was. */
    method ClaimBatch() returns (batch: seq<DueRow>, ghost ids: seq<Id>)
      requires table.Valid() && w !in table.workers
      modifies table`rows, table`workers
      ensures table.Valid()
      ensures IsBatch(old(table.rows), table.now, ids) && Captured(old(table.rows), table.endpoints, ids, batch)
      ensures AllIn(old(table.rows), ids) && |ids| <= BATCH_SIZE && |batch| == |ids|
      ensures ids == [] ==> table.Snapshot() == old(table.Snapshot())
      ensures ids != [] ==> table.Snapshot() == Apply(old(table.Snapshot()), Bounds(BATCH_SIZE, 0), Claim(w, ids))
                            && table.workers == old(table.workers)[w := Worker(Jobs(old(table.rows), ids), table.now, table.now)]
      ensures table.rows == Leased(old(table.rows), ids, table.now + IN_FLIGHT_LEASE)
    {
      hide IsBatch, Claimable;
      var rows := table.rows;
      var chosen := SelectDue(rows, table.now);
      ids := chosen;
      BatchFits(rows, table.now, ids);
      batch := Capture(chosen);
      if chosen == [] {
        assert Leased(rows, ids, table.now + IN_FLIGHT_LEASE) == rows;
        return;
      }
      var lease := table.now + IN_FLIGHT_LEASE;
      table.rows := map id | id in rows :: if id in chosen then rows[id].(nextAttemptAt := lease) else rows[id];
      table.workers := table.workers[w := Worker(Jobs(rows, ids), table.now, table.now)];
    }

    /** The columns the SELECT returns, with the endpoint's enabled flag. */
    method Capture(ids: seq<Id>) returns (batch: seq<DueRow>)
      requires table.Valid() && AllIn(table.rows, ids)
      ensures Captured(table.rows, table.endpoints, ids, batch)
    {
      batch := [];
      while |batch| < |ids|
        invariant |batch| <= |ids|
        invariant forall k :: 0 <= k < |batch| ==>
          batch[k] == DueRow(Job(ids[k], table.rows[ids[k]].attemptCount), table.endpoints[table.rows[ids[k]].endpointId].enabled)
      {
        var id := ids[|batch|];
        batch := batch + [DueRow(Job(id, table.rows[id].attemptCount), table.endpoints[table.rows[id].endpointId].enabled)];
      }
    }

    /** applyOutcome: one UPDATE by id, which looks at nothing else. */
    method ApplyOutcome(row: DueRow, attempt: nat, outcome: Outcome)
      requires w in table.workers && table.workers[w].batch != [] && table.workers[w].batch[0] == row.job
      requires attempt == row.job.seen + 1
      modifies table`rows, table`workers, table`firstFailed
      ensures table.Snapshot() == ReportHead(old(table.Snapshot()), w, outcome)
      ensures table.rows.Keys == old(table.rows).Keys
      ensures forall id :: id in table.rows && id != row.job.id ==> table.rows[id] == old(table.rows)[id]
      ensures row.job.id in table.rows ==>
        SettledAs(old(table.rows)[row.job.id], table.rows[row.job.id], attempt, outcome, table.now)
    {
      var id := row.job.id;
      table.workers := Advance(table.Snapshot(), w);
      if id in table.rows {
        var was := table.rows[id];
        match outcome {
          case Accepted => table.rows := table.rows[id := was.(status := DeliveryStatus.Delivered, attemptCount := attempt)];
          case Disabled => table.rows := table.rows[id := was.(status := DeliveryStatus.Abandoned, attemptCount := attempt)];
          case Refused => table.rows := table.rows[id := was.(status := DeliveryStatus.Failed, attemptCount := attempt)];
          case Retriable =>
            var delay := NextRetryDelay(attempt);
            if delay.None? || attempt >= MAX_DELIVERY_ATTEMPTS {
              table.rows := table.rows[id := was.(status := DeliveryStatus.Abandoned, attemptCount := attempt)];
            } else {
              table.rows := table.rows[id := was.(status := DeliveryStatus.Pending, attemptCount := attempt,
                                                  nextAttemptAt := table.now + 1000 * delay.value)];
            }
            if id !in table.firstFailed {
              table.firstFailed := table.firstFailed[id := table.now];
            }
        }
      }
    }

    /** processOne: the request takes its time, outside any transaction. */
    method ProcessOne(row: DueRow, answer: Answer, ghost b: Bounds) returns (ghost run: seq<Step>)
      requires w in table.workers && table.workers[w].batch != [] && table.workers[w].batch[0] == row.job && row.job.id in table.rows
      requires table.workers.Keys == {w} && table.workers[w].since == table.now && answer.took <= b.d
      modifies table`now, table`rows, table`workers, table`firstFailed
      ensures table.now == old(table.now) + answer.took
      ensures table.Snapshot() == Exec(old(table.Snapshot()), b, run)
      ensures table.rows == old(table.rows)[row.job.id :=
                Settle(old(table.rows)[row.job.id], row.job.seen + 1, Deliver(row.enabled, answer), table.now)]
      ensures table.workers == if |old(table.workers)[w].batch| == 1 then map[]
                               else map[w := Worker(old(table.workers)[w].batch[1..], old(table.workers)[w].claimedAt, table.now)]
    {
      hide Deliver, ReportHead, Settle, SettledAs, Exec, Apply;
      ghost var before := table.Snapshot();
      var attempt := row.job.seen + 1;
      var outcome := Deliver(row.enabled, answer);
      run := [Tick(answer.took), Report(w, outcome)];
      TickAndReport(before, b, w, answer.took, outcome);
      ReportedRow(before, b, w, answer.took, outcome);
      table.now := table.now + answer.took;
      ApplyOutcome(row, attempt, outcome);
    }

    /** processOne, when the write of the outcome fails: the rest of the batch is
        dropped as a crash would drop it. */
    method FailOne(answer: Answer, ghost b: Bounds) returns (ghost run: seq<Step>)
      requires table.workers.Keys == {w} && table.workers[w].since == table.now && answer.took <= b.d
      modifies table`now, table`workers
      ensures table.Snapshot() == Exec(old(table.Snapshot()), b, run) && table.workers == map[]
    {
      hide Apply, Exec;
      ghost var before := table.Snapshot();
      Dropped(before, b, w, answer.took);
      run := [] + [Tick(answer.took)] + [Crash(w)];
      ExecNone(before, b);
      ExecThen(before, b, [], Tick(answer.took));
      ExecThen(before, b, [] + [Tick(answer.took)], Crash(w));
      table.now := table.now + answer.took;
      table.workers := map[];
    }

    /** tick, unless one is running already. A database error ends it: in the
        claim, which then leases nothing, or when the outcome of row `faultAt` is
        written; the rest of the batch then waits for its lease to run out. */
    method RunOnce(net: Id -> Answer, claimFails: bool, faultAt: nat, ghost d: nat) returns (ghost ids: seq<Id>, ghost run: seq<Step>)
      requires table.Valid() && table.workers == map[]
      requires forall id :: net(id).took <= d
      modifies this`running, table`now, table`rows, table`workers, table`firstFailed
      ensures running == old(running)
      ensures table.Snapshot() == Exec(old(table.Snapshot()), Bounds(BATCH_SIZE, d), run)
      ensures table.workers == map[]
      ensures old(running) || claimFails ==> table.Snapshot() == old(table.Snapshot())
      ensures !old(running) && !claimFails ==>
        && IsBatch(old(table.rows), old(table.now), ids) && AllIn(old(table.rows), ids)
        && Handled(old(table.rows), table.rows, table.endpoints, ids, if faultAt < |ids| then faultAt else |ids|, net, old(table.now))
    {
      hide Apply, Exec, IsBatch, Captured, Settled, Handled, Leased;
      ids, run := [], [];
      ghost var b := Bounds(BATCH_SIZE, d);
      ghost var start := table.Snapshot();
      ExecNone(start, b);
      if running {
        return;
      }
      running := true;
      if claimFails {
        running := false;
        return;
      }
      var batch;
      batch, ids := ClaimBatch();
      assert ids[..0] == [];
      CapturedJobs(start.rows, table.now, table.endpoints, ids, batch);
      if batch == [] {
        HandledNone(start.rows, table.endpoints, net, start.now);
      } else {
        ExecThen(start, b, [], Claim(w, ids));
        ClaimAnyD(start, b, w, ids);
        ghost var more := ProcessAll(batch, ids, Jobs(start.rows, ids), net, faultAt, b);
        ExecConcat(start, b, [] + [Claim(w, ids)], more);
        run := [] + [Claim(w, ids)] + more;
        SettledAll(start.rows, table.rows, table.endpoints, batch, ids, if faultAt < |ids| then faultAt else |ids|, net, start.now);
      }
      running := false;
    }

    /** for (const row of claimed) await processOne(row), up to an error, which
        drops what is left of the batch as a crash would. */
    method ProcessAll(batch: seq<DueRow>, ghost ids: seq<Id>, ghost jobs: seq<Job>, net: Id -> Answer, faultAt: nat, ghost b: Bounds)
      returns (ghost run: seq<Step>)
      requires batch != [] && |batch| == |jobs| == |ids| && Distinct(ids) && AllIn(table.rows, ids)
      requires forall k :: 0 <= k < |batch| ==> batch[k].job == jobs[k] && jobs[k].id == ids[k]
      requires table.workers == map[w := Worker(jobs, table.now, table.now)]
      requires forall id :: net(id).took <= b.d
      modifies table`now, table`rows, table`workers, table`firstFailed
      ensures table.workers == map[]
      ensures table.Snapshot() == Exec(old(table.Snapshot()), b, run)
      ensures Settled(old(table.rows), table.rows, batch, ids, net, old(table.now), if faultAt < |batch| then faultAt else |batch|)
    {
      hide Apply, Deliver, Settled, Exec, Distinct, Settle, Elapsed;
      ghost var start := table.Snapshot();
      run := [];
      ExecNone(start, b);
      SettledNone(start.rows, batch, ids, net, start.now);
      ElapsedNone(net, ids);
      assert jobs[0..] == jobs;
      var i := 0;
      while i < |batch| && i < faultAt
        invariant 0 <= i <= |batch| && i <= faultAt
        invariant table.now == start.now + Elapsed(net, ids[..i])
        invariant table.Snapshot() == Exec(start, b, run)
        invariant table.workers == if i == |batch| then map[] else map[w := Worker(jobs[i..], start.now, table.now)]
        invariant Settled(start.rows, table.rows, batch, ids, net, start.now, i) && AllIn(table.rows, ids)
      {
        ghost var rows := table.rows;
        assert jobs[i..][0] == jobs[i] && jobs[i..][1..] == jobs[i + 1..];
        ghost var more := ProcessOne(batch[i], net(batch[i].job.id), b);
        ExecConcat(start, b, run, more);
        run := run + more;
        ElapsedNext(net, ids, i);
        SettledNext(start.rows, rows, batch, ids, net, start.now, i);
        i := i + 1;
      }
      if i < |batch| {
        ghost var more := FailOne(net(batch[i].job.id), b);
        ExecConcat(start, b, run, more);
        run := run + more;
      }
    }
  }

  /** The rows before `i` have had their outcome, and no other has changed. */
  ghost predicate Settled(leased: map<Id, Delivery>, rows: map<Id, Delivery>, batch: seq<DueRow>, ids: seq<Id>,
                          net: Id -> Answer, from: Time, i: nat)
    requires i <= |batch| == |ids|
  {
    && rows.Keys == leased.Keys
    && (forall k :: 0 <= k < i ==>
          ids[k] in leased
          && rows[ids[k]] == Settle(leased[ids[k]], batch[k].job.seen + 1, Deliver(batch[k].enabled, net(ids[k])),
                                    from + Elapsed(net, ids[..k + 1])))
    && (forall id :: id in leased && !Among(ids, i, id) ==> rows[id] == leased[id])
  }

  lemma SettledNone(leased: map<Id, Delivery>, batch: seq<DueRow>, ids: seq<Id>, net: Id -> Answer, from: Time)
    requires |batch| == |ids|
    ensures Settled(leased, leased, batch, ids, net, from, 0)
  {
  }

  lemma SettledNext(leased: map<Id, Delivery>, rows: map<Id, Delivery>, batch: seq<DueRow>, ids: seq<Id>,
                    net: Id -> Answer, from: Time, i: nat)
    requires i < |batch| == |ids| && Distinct(ids) && Settled(leased, rows, batch, ids, net, from, i) && ids[i] in rows
    ensures Settled(leased, rows[ids[i] := Settle(rows[ids[i]], batch[i].job.seen + 1, Deliver(batch[i].enabled, net(ids[i])),
                                                  from + Elapsed(net, ids[..i + 1]))], batch, ids, net, from, i + 1)
    ensures AllIn(rows, ids) ==> AllIn(rows[ids[i] := Settle(rows[ids[i]], batch[i].job.seen + 1,
      Deliver(batch[i].enabled, net(ids[i])), from + Elapsed(net, ids[..i + 1]))], ids)
  {
    hide Settle, Deliver, Elapsed, Among;
    AmongNext(ids, i);
    NotAmong(ids, i);
    assert forall k :: 0 <= k < i ==> ids[k] != ids[i];
  }

  lemma NotAmong(ids: seq<Id>, i: nat)
    requires i < |ids| && Distinct(ids)
    ensures !Among(ids, i, ids[i])
  {
  }

  /** A lone worker's tick and crash: the clock, and no worker. */
  lemma Dropped(s: Fleet, b: Bounds, w: Id, took: nat)
    requires s.workers.Keys == {w} && s.workers[w].since == s.now && took <= b.d
    ensures Apply(Apply(s, b, Tick(took)), b, Crash(w)) == s.(now := s.now + took, workers := map[])
  {
  }

  /** A batch settled up to row n, in terms of the rows before they were leased. */
  lemma SettledAll(before: map<Id, Delivery>, rows: map<Id, Delivery>, endpoints: map<Id, Endpoint>,
                   batch: seq<DueRow>, ids: seq<Id>, n: nat, net: Id -> Answer, from: Time)
    requires Captured(before, endpoints, ids, batch) && Distinct(ids) && n <= |ids|
    requires Settled(Leased(before, ids, from + IN_FLIGHT_LEASE), rows, batch, ids, net, from, n)
    ensures Handled(before, rows, endpoints, ids, n, net, from)
  {
    hide Settle, Deliver, Elapsed, AnsweredAs;
    forall i | 0 <= i < n
      ensures ids[i] in before && before[ids[i]].endpointId in endpoints
      ensures AnsweredAs(before[ids[i]], rows[ids[i]], endpoints[before[ids[i]].endpointId].enabled, net(ids[i]),
                         from + IN_FLIGHT_LEASE, from + Elapsed(net, ids[..i + 1]))
    {
      DeliversAs(before[ids[i]], endpoints[before[ids[i]].endpointId].enabled, net(ids[i]), from + IN_FLIGHT_LEASE,
                 from + Elapsed(net, ids[..i + 1]));
    }
    forall id | id !in ids ensures !Among(ids, n, id) {
    }
    forall i | n <= i < |ids| ensures !Among(ids, n, ids[i]) {
    }
  }

  lemma HandledNone(rows: map<Id, Delivery>, endpoints: map<Id, Endpoint>, net: Id -> Answer, from: Time)
    ensures Handled(rows, rows, endpoints, [], 0, net, from)
  {
  }

  lemma BatchFits(rows: map<Id, Delivery>, now: Time, ids: seq<Id>)
    requires IsBatch(rows, now, ids)
    ensures |ids| <= BATCH_SIZE
  {
  }

  lemma CapturedJobs(rows: map<Id, Delivery>, now: Time, endpoints: map<Id, Endpoint>, ids: seq<Id>, batch: seq<DueRow>)
    requires Captured(rows, endpoints, ids, batch) && IsBatch(rows, now, ids)
    ensures |batch| == |ids| && Distinct(ids) && AllIn(rows, ids)
    ensures AllIn(Leased(rows, ids, now + IN_FLIGHT_LEASE), ids)
    ensures forall k :: 0 <= k < |batch| ==> batch[k].job == Jobs(rows, ids)[k] && Jobs(rows, ids)[k].id == ids[k]
  {
    hide Ordered, Soonest, DueRows, Due;
  }

  lemma ExecNone(s: Fleet, b: Bounds)
    ensures Exec(s, b, []) == s
  {
  }

  lemma ClaimAnyD(s: Fleet, b: Bounds, w: Id, ids: seq<Id>)
    requires b.n == BATCH_SIZE
    ensures Apply(s, b, Claim(w, ids)) == Apply(s, Bounds(BATCH_SIZE, 0), Claim(w, ids))
  {
  }

  /** A lone worker's tick and report: the clock, its batch, and one row. */
  lemma ReportedRow(s: Fleet, b: Bounds, w: Id, took: nat, outcome: Outcome)
    requires s.workers.Keys == {w} && s.workers[w].batch != [] && s.workers[w].since == s.now && took <= b.d
    requires s.workers[w].batch[0].id in s.rows
    ensures var t := Apply(Apply(s, b, Tick(took)), b, Report(w, outcome));
            var job := s.workers[w].batch[0];
      && t.rows == s.rows[job.id := Settle(s.rows[job.id], job.seen + 1, outcome, s.now + took)]
      && t.workers == if |s.workers[w].batch| == 1 then map[] else map[w := Worker(s.workers[w].batch[1..], s.workers[w].claimedAt, s.now + took)]
  {
    hide Settle;
  }

  lemma TickAndReport(s: Fleet, b: Bounds, w: Id, took: nat, outcome: Outcome)
    requires s.workers.Keys == {w} && s.workers[w].batch != [] && s.workers[w].since == s.now && took <= b.d
    ensures Exec(s, b, [Tick(took), Report(w, outcome)]) == ReportHead(s.(now := s.now + took), w, outcome)
    ensures Exec(s, b, [Tick(took), Report(w, outcome)]) == Apply(Apply(s, b, Tick(took)), b, Report(w, outcome))
  {
    hide ReportHead;
    ExecTwo(s, b, Tick(took), Report(w, outcome), []);
    assert [Tick(took), Report(w, outcome)] + [] == [Tick(took), Report(w, outcome)];
  }
}
