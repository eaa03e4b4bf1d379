/** When the lease does not exclude: if a batch may outlast it, some run has two
    workers on one delivery, and undoes its final status. */
module LeaseLimits {
  import opened Wrappers
  import opened Schema
  import opened Lease
  import opened LeaseSafety

  lemma {:induction false} ExecConcat(s: Fleet, b: Bounds, x: seq<Step>, y: seq<Step>)
    ensures Exec(s, b, x + y) == Exec(Exec(s, b, x), b, y)
    decreases |x|
  {
    if x == [] {
      assert x + y == y;
    } else {
      assert (x + y)[1..] == x[1..] + y;
      ExecConcat(Apply(s, b, x[0]), b, x[1..], y);
    }
  }

  lemma ExecThen(s: Fleet, b: Bounds, run: seq<Step>, step: Step)
    ensures Exec(s, b, run + [step]) == Apply(Exec(s, b, run), b, step)
  {
    ExecConcat(s, b, run, [step]);
    assert Exec(Apply(Exec(s, b, run), b, step), b, [step][1..]) == Apply(Exec(s, b, run), b, step);
  }

  lemma ExecTwo(s: Fleet, b: Bounds, x: Step, y: Step, rest: seq<Step>)
    ensures Exec(s, b, [x, y] + rest) == Exec(Apply(Apply(s, b, x), b, y), b, rest)
  {
    hide Apply;
    assert ([x, y] + rest)[1..] == [y] + rest && ([y] + rest)[1..] == rest;
  }

  function Upto(k: nat): (ids: seq<Id>)
    ensures |ids| == k && forall i :: 0 <= i < k ==> ids[i] == i
  {
    if k == 0 then [] else Upto(k - 1) + [k - 1]
  }

  /** k deliveries, all due at time zero, and no worker yet. */
  ghost predicate Fresh(s: Fleet, k: nat) {
    && s.now == 0 && s.nextId == k && s.workers == map[]
    && (forall i: Id :: i in s.rows <==> i < k)
    && forall i :: i in s.rows ==> Due(s.rows[i], 0) && s.rows[i].attemptCount == 0
  }

  lemma {:induction false} EnqueueMany(b: Bounds, k: nat) returns (run: seq<Step>)
    ensures Fresh(Exec(NoFleet, b, run), k)
  {
    if k == 0 {
      run := [];
    } else {
      run := EnqueueMany(b, k - 1);
      ExecThen(NoFleet, b, run, Enqueue(0, 0, VerificationVerified));
      run := run + [Enqueue(0, 0, VerificationVerified)];
    }
  }

  /** One worker is part-way through a batch whose last row is `last`. */
  ghost predicate Working(s: Fleet, m: nat, w: Worker, last: Id) {
    && s.workers == map[0 := w] && |w.batch| == m && m > 0
    && w.batch[m - 1] == Job(last, 0)
    && w.since == s.now
    && (forall i :: 0 <= i < m - 1 ==> w.batch[i].id != last)
    && last in s.rows && s.rows[last].status == DeliveryStatus.Pending && s.rows[last].attemptCount == 0
    && s.rows[last].nextAttemptAt == w.claimedAt + IN_FLIGHT_LEASE
  }

  lemma DawdleOne(s: Fleet, b: Bounds, w: Worker, last: Id)
    requires |w.batch| > 1 && Working(s, |w.batch|, w, last)
    ensures var u := Apply(Apply(s, b, Tick(b.d)), b, Report(0, Accepted));
      && u.now == s.now + b.d
      && 0 in u.workers && u.workers[0] == Worker(w.batch[1..], w.claimedAt, u.now)
      && Working(u, |w.batch| - 1, u.workers[0], last)
  {
    var t := Apply(s, b, Tick(b.d));
    assert t.now == s.now + b.d && 0 in t.workers && t.workers[0] == w;
  }

  /** Taking the whole of its time over each row, it comes to the last one. */
  lemma {:induction false} Dawdle(s: Fleet, b: Bounds, w: Worker, last: Id) returns (run: seq<Step>)
    requires |w.batch| > 0 && Working(s, |w.batch|, w, last)
    ensures var t := Exec(s, b, run);
      && t.now == s.now + (|w.batch| - 1) * b.d
      && Working(t, 1, Worker([Job(last, 0)], w.claimedAt, t.now), last)
    decreases |w.batch|
  {
    hide Apply;
    var m := |w.batch|;
    if m == 1 {
      assert w.batch == [Job(last, 0)];
      run := [];
    } else {
      DawdleOne(s, b, w, last);
      var u := Apply(Apply(s, b, Tick(b.d)), b, Report(0, Accepted));
      var rest := Dawdle(u, b, u.workers[0], last);
      ExecTwo(s, b, Tick(b.d), Report(0, Accepted), rest);
      run := [Tick(b.d), Report(0, Accepted)] + rest;
      assert (m - 1) * b.d == b.d + (m - 2) * b.d;
    }
  }

  /** The fewest rows whose batch is as long as the lease. */
  lemma {:induction false} Shortest(b: Bounds, k: nat) returns (m: nat)
    requires k * b.d >= IN_FLIGHT_LEASE
    ensures 0 < m <= k && m * b.d >= IN_FLIGHT_LEASE && (m - 1) * b.d < IN_FLIGHT_LEASE
  {
    if (k - 1) * b.d < IN_FLIGHT_LEASE {
      m := k;
      assert k != 0;
    } else {
      assert k != 0;
      m := Shortest(b, k - 1);
    }
  }

  /** Two workers on one delivery: its row and both jobs. */
  ghost predicate Shared(s: Fleet, id: Id) {
    && 0 in s.workers && 1 in s.workers
    && s.workers[0].batch == [Job(id, 0)] == s.workers[1].batch
    && id in s.rows
  }

  lemma BatchOf(s: Fleet, b: Bounds, m: nat)
    requires Fresh(s, m) && 0 < m <= b.n
    ensures var t := Apply(s, b, Claim(0, Upto(m)));
      0 in t.workers && |t.workers[0].batch| == m && t.workers[0].claimedAt == 0 && t.now == 0 && Working(t, m, t.workers[0], m - 1)
  {
    var ids := Upto(m);
    assert Claimable(s.rows, ids, s.now);
    assert ids[m - 1] in ids;
  }

  /** Once the lease is over, the last row is due while still in flight. */
  lemma ClaimTwice(s: Fleet, b: Bounds, last: Id) returns (run: seq<Step>)
    requires b.n > 0 && Working(s, 1, Worker([Job(last, 0)], 0, s.now), last)
    requires s.now < IN_FLIGHT_LEASE <= s.now + b.d
    ensures Shared(Exec(s, b, run), last)
  {
    var wait := IN_FLIGHT_LEASE - s.now;
    var t := Apply(s, b, Tick(wait));
    assert t.now == IN_FLIGHT_LEASE;
    assert Claimable(t.rows, [last], t.now);
    var u := Apply(t, b, Claim(1, [last]));
    assert Shared(u, last);
    ExecTwo(s, b, Tick(wait), Claim(1, [last]), []);
    run := [Tick(wait), Claim(1, [last])] + [];
  }

  lemma SharedIsReachable(b: Bounds) returns (s: Fleet, id: Id)
    requires !Fits(b)
    ensures Reachable(s, b) && Shared(s, id)
  {
    var m := Shortest(b, b.n);
    var run := EnqueueMany(b, m);
    BatchOf(Exec(NoFleet, b, run), b, m);
    ExecThen(NoFleet, b, run, Claim(0, Upto(m)));
    run := run + [Claim(0, Upto(m))];
    s := Exec(NoFleet, b, run);
    var more := Dawdle(s, b, s.workers[0], m - 1);
    ExecConcat(NoFleet, b, run, more);
    run := run + more;
    s := Exec(NoFleet, b, run);
    assert m * b.d == (m - 1) * b.d + b.d;
    more := ClaimTwice(s, b, m - 1);
    ExecConcat(NoFleet, b, run, more);
    run := run + more;
    s, id := Exec(NoFleet, b, run), m - 1;
  }

  /** A shared delivery: one worker reports success, then the other a failure,
      and the delivered row is pending again. */
  lemma SharedRegresses(s: Fleet, b: Bounds, id: Id)
    requires Shared(s, id)
    ensures !Exclusive(s)
    ensures var t := Apply(s, b, Report(0, Accepted));
            var u := Apply(t, b, Report(1, Retriable));
      && t.rows[id].status == DeliveryStatus.Delivered
      && u == Exec(t, b, [Report(1, Retriable)])
      && id in u.rows && u.rows[id].status == DeliveryStatus.Pending
  {
    assert s.workers[0].batch[0].id == s.workers[1].batch[0].id;
    var t := Apply(s, b, Report(0, Accepted));
    ExecThen(t, b, [], Report(1, Retriable));
    assert [] + [Report(1, Retriable)] == [Report(1, Retriable)];
  }

  lemma NotFits(b: Bounds)
    requires !Fits(b)
    ensures !AlwaysExclusive(b) && !AlwaysFinal(b)
  {
    hide Fits, Exclusive, Shared;
    var s, id := SharedIsReachable(b);
    SharedRegresses(s, b, id);
    var run: seq<Step> :| s == Exec(NoFleet, b, run);
    ExecThen(NoFleet, b, run, Report(0, Accepted));
    var t := Apply(s, b, Report(0, Accepted));
    assert Reachable(t, b);
    assert Finished(t, id);
  }

  /** The lease keeps two workers off one delivery, in every run, if and only
      if a whole batch ends before it does; and under the same condition alone
      is a final status final, although no write looks at the status. */
  lemma LeaseExcludesIff(b: Bounds)
    ensures AlwaysExclusive(b) <==> b.n * b.d < 60_000
    ensures AlwaysFinal(b) <==> b.n * b.d < 60_000
  {
    hide AlwaysExclusive, AlwaysFinal;
    if Fits(b) {
      FitsExcludes(b);
    } else {
      NotFits(b);
    }
  }

  /** With the worker's own numbers: a full batch of rows that all time out
      outlasts the lease, eleven such rows do not. */
  lemma FullBatchOverruns()
    ensures !AlwaysExclusive(Bounds(BATCH_SIZE, 5_000)) && !AlwaysExclusive(Bounds(12, 5_000)) && AlwaysExclusive(Bounds(11, 5_000))
  {
    hide AlwaysExclusive, AlwaysFinal;
    LeaseExcludesIff(Bounds(BATCH_SIZE, 5_000));
    LeaseExcludesIff(Bounds(12, 5_000));
    LeaseExcludesIff(Bounds(11, 5_000));
  }
}
