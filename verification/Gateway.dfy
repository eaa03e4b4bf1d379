/** The GSM gateway's durable queue and its upload worker. */
module Gateway {
  import opened Wrappers
  import opened Schema
  import opened Text

  const BACKOFF_SCHEDULE_SECONDS: seq<nat> := [5, 15, 60, 180, 300, 600]
  const MAX_ATTEMPTS_4XX: nat := 5
  const SNAPSHOT_LIMIT: nat := 50

  datatype QueueRow = QueueRow(from: string, body: string, key: string, receivedAt: Time, attempts: nat, nextTry: Time)

  datatype QueueItem = QueueItem(id: Id, from: string, body: string, key: string, attempts: nat)

  /** What became of one POST: httpx raised, or there was a status. */
  datatype PostResult = NetworkError | Answered(status: nat)

  function BackoffFor(attempt: nat): nat {
    BACKOFF_SCHEDULE_SECONDS[if attempt <= 5 then attempt else 5]
  }

  /** The status says that the server has the message. */
  predicate Confirms(r: PostResult) { r.Answered? && (200 <= r.status < 300 || r.status == 409) }

  /** The item is given up: a client error, not 401 or 409, on its fifth try or
      a later one, whatever the earlier tries ended in. */
  predicate GivesUp(attempts: nat, r: PostResult) {
    r.Answered? && 400 <= r.status < 500 && r.status != 401 && r.status != 409 && attempts + 1 >= MAX_ATTEMPTS_4XX
  }

  predicate Unauthorised(r: PostResult) { r == Answered(401) }

  /** The queue after the worker has dealt with one reply. */
  function AfterReply(rows: map<Id, QueueRow>, id: Id, attempts: nat, r: PostResult, now: Time): map<Id, QueueRow> {
    if Confirms(r) || GivesUp(attempts, r) then rows - {id}
    else if Unauthorised(r) || id !in rows then rows
    else rows[id := rows[id].(attempts := rows[id].attempts + 1, nextTry := now + 1000 * BackoffFor(attempts))]
  }

  predicate Ready(row: QueueRow, now: Time) { row.nextTry <= now }

  predicate Ascending(ids: seq<Id>) { forall i, j :: 0 <= i < j < |ids| ==> ids[i] < ids[j] }

  /** The oldest ready rows, in order; all of them unless the limit cuts. */
  ghost predicate IsSnapshot(rows: map<Id, QueueRow>, now: Time, limit: nat, ids: seq<Id>) {
    && |ids| <= limit && Ascending(ids)
    && (forall i :: 0 <= i < |ids| ==> ids[i] in rows && Ready(rows[ids[i]], now))
    && (forall id :: id in rows && Ready(rows[id], now) && id !in ids ==>
          |ids| == limit && forall i :: 0 <= i < |ids| ==> ids[i] < id)
  }

  /** The ready rows taken so far are the oldest, and `rest` are the others. */
  ghost predicate Scanned(rows: map<Id, QueueRow>, now: Time, ids: seq<Id>, rest: set<Id>) {
    && Ascending(ids)
    && (forall id :: id in rest ==> id in rows && Ready(rows[id], now))
    && (forall i :: 0 <= i < |ids| ==> ids[i] in rows && Ready(rows[ids[i]], now))
    && (forall id :: id in rows && Ready(rows[id], now) ==> id in rest || id in ids)
    && (forall i, id :: 0 <= i < |ids| && id in rest ==> ids[i] < id)
  }

  lemma ScannedNone(rows: map<Id, QueueRow>, now: Time, rest: set<Id>)
    requires rest == set id | id in rows && Ready(rows[id], now)
    ensures Scanned(rows, now, [], rest)
  {
  }

  lemma ScannedNext(rows: map<Id, QueueRow>, now: Time, ids: seq<Id>, rest: set<Id>, id: Id)
    requires Scanned(rows, now, ids, rest) && id in rest && forall x :: x in rest ==> id <= x
    ensures Scanned(rows, now, ids + [id], rest - {id})
  {
    hide Ready;
    var next := ids + [id];
    forall x | x in ids || x == id ensures x in next {
      assert next[|ids|] == id;
    }
  }

  lemma ScannedAll(rows: map<Id, QueueRow>, now: Time, limit: nat, ids: seq<Id>, rest: set<Id>)
    requires Scanned(rows, now, ids, rest) && |ids| <= limit && (rest == {} || |ids| == limit)
    ensures IsSnapshot(rows, now, limit, ids)
    ensures forall i :: 0 <= i < |ids| ==> ids[i] in rows && rows[ids[i]].nextTry <= now
    ensures |ids| < limit ==> forall id :: id in rows && rows[id].nextTry <= now ==> id in ids
  {
  }

  function Item(id: Id, row: QueueRow): QueueItem { QueueItem(id, row.from, row.body, row.key, row.attempts) }

  function Ids(items: seq<QueueItem>): (ids: seq<Id>)
    ensures |ids| == |items| && forall i :: 0 <= i < |items| ==> ids[i] == items[i].id
  {
    seq(|items|, i requires 0 <= i < |items| => items[i].id)
  }

  ghost predicate KeysUnique(rows: map<Id, QueueRow>) {
    forall a, b | a in rows && b in rows && rows[a].key == rows[b].key :: a == b
  }

  predicate HasKey(rows: map<Id, QueueRow>, key: string) { exists id :: id in rows && rows[id].key == key }

  method Oldest(ids: set<Id>) returns (first: Id)
    requires ids != {}
    ensures first in ids && forall id :: id in ids ==> first <= id
  {
    first :| first in ids;
    var rest := ids - {first};
    while rest != {}
      invariant first in ids && rest <= ids
      invariant forall id :: id in ids ==> id in rest || first <= id
      decreases rest
    {
      var id :| id in rest;
      rest := rest - {id};
      first := if id < first then id else first;
    }
  }

  class InboundQueue {
    var now: Time
    var nextId: Id
    var rows: map<Id, QueueRow>

    ghost predicate Valid()
      reads this
    {
      KeysUnique(rows) && forall id :: id in rows ==> id < nextId
    }

    constructor ()
      ensures Valid() && rows == map[] && nextId == 0
    {
      now, nextId, rows := 0, 0, map[];
    }

    /** INSERT; the UNIQUE key makes a second one fail. */
    method Add(from: string, body: string, receivedAt: Time, key: string) returns (added: bool)
      requires Valid()
      modifies this`rows, this`nextId
      ensures Valid()
      ensures added <==> !HasKey(old(rows), key)
      ensures HasKey(rows, key)
      ensures rows == if added then old(rows)[old(nextId) := QueueRow(from, body, key, receivedAt, 0, 0)] else old(rows)
      ensures added ==> old(nextId) !in old(rows)
    {
      added := !exists id :: id in rows && rows[id].key == key;
      if added {
        rows := rows[nextId := QueueRow(from, body, key, receivedAt, 0, 0)];
        assert rows[nextId].key == key;
        nextId := nextId + 1;
      }
    }

    /** Items whose next try is not in the future, oldest first. */
    method Snapshot(limit: nat) returns (items: seq<QueueItem>)
      ensures IsSnapshot(rows, now, limit, Ids(items))
      ensures forall i :: 0 <= i < |items| ==>
        && items[i].id in rows && rows[items[i].id].nextTry <= now
        && items[i] == (var row := rows[items[i].id]; QueueItem(items[i].id, row.from, row.body, row.key, row.attempts))
      ensures |items| < limit ==> forall id :: id in rows && rows[id].nextTry <= now ==> id in Ids(items)
    {
      hide Scanned, IsSnapshot;
      items := [];
      ghost var ids: seq<Id> := [];
      var rest := set id | id in rows && Ready(rows[id], now);
      ScannedNone(rows, now, rest);
      while rest != {} && |items| < limit
        invariant |items| == |ids| <= limit && Scanned(rows, now, ids, rest) && rest <= rows.Keys
        invariant forall i :: 0 <= i < |ids| ==> ids[i] in rows && items[i] == Item(ids[i], rows[ids[i]])
        decreases rest
      {
        var id := Oldest(rest);
        ScannedNext(rows, now, ids, rest, id);
        items := items + [Item(id, rows[id])];
        ids := ids + [id];
        rest := rest - {id};
      }
      assert Ids(items) == ids;
      ScannedAll(rows, now, limit, ids, rest);
    }

    method BumpAttempts(id: Id, backoffSeconds: nat)
      requires Valid()
      modifies this`rows
      ensures Valid()
      ensures rows == if id in old(rows)
                      then old(rows)[id := old(rows)[id].(attempts := old(rows)[id].attempts + 1, nextTry := now + 1000 * backoffSeconds)]
                      else old(rows)
    {
      if id in rows {
        rows := rows[id := rows[id].(attempts := rows[id].attempts + 1, nextTry := now + 1000 * backoffSeconds)];
      }
    }

    method Remove(id: Id)
      requires Valid()
      modifies this`rows
      ensures Valid() && rows == old(rows) - {id}
    {
      rows := rows - {id};
    }

    method Depth() returns (n: nat)
      ensures n == |rows.Keys|
    {
      n := |rows|;
    }
  }

  /** One SMS as the modem lists it. */
  datatype Sms = Sms(index: nat, sender: string, body: string, receivedAtMs: nat)

  /** When an item stays queued: the POST raised, or the status is 401, or it is
      neither a success nor a 409 and is no client error or an early one. */
  predicate Stays(attempts: nat, r: PostResult) {
    match r
    case NetworkError => true
    case Answered(status) =>
      || status == 401
      || (!(200 <= status < 300) && status != 409 && (!(400 <= status < 500) || attempts < 4))
  }

  /** What becomes of an item that stays: a 401 leaves it alone; any other
      failure counts one try more and postpones the next by 5, 15, 60, 180, 300
      and then always 600 seconds. */
  predicate AsReplied(row: QueueRow, row': QueueRow, attempts: nat, r: PostResult, at: Time) {
    && row'.from == row.from && row'.body == row.body && row'.key == row.key && row'.receivedAt == row.receivedAt
    && (r == Answered(401) ==> row' == row)
    && (r != Answered(401) ==>
          && row'.attempts == row.attempts + 1
          && row'.nextTry == at + 1000 * [5, 15, 60, 180, 300, 600][if attempts < 5 then attempts else 5])
  }

  /** The first `n` items have had their replies, and no other row changed. */
  ghost predicate Drained(before: map<Id, QueueRow>, after: map<Id, QueueRow>, ids: seq<Id>, n: nat,
                          replies: nat -> PostResult, times: seq<Time>)
    requires n <= |ids| && n == |times|
  {
    && (forall i :: 0 <= i < n ==> ids[i] in before && Replied(before, after, ids[i], replies(i), times[i]))
    && (forall id :: id in before && !Among(ids, n, id) ==> id in after && after[id] == before[id])
    && (forall id :: id in after ==> id in before)
  }

  predicate Replied(before: map<Id, QueueRow>, after: map<Id, QueueRow>, id: Id, r: PostResult, at: Time)
    requires id in before
  {
    && (id in after <==> Stays(before[id].attempts, r))
    && (id in after ==> AsReplied(before[id], after[id], before[id].attempts, r, at))
  }

  /** The branches of the reply's handling, told by what becomes of the row. */
  lemma ReplyIs(rows: map<Id, QueueRow>, id: Id, attempts: nat, r: PostResult, now: Time)
    ensures var after := AfterReply(rows, id, attempts, r, now);
      && (id in after <==> id in rows && Stays(attempts, r))
      && (id in after ==> AsReplied(rows[id], after[id], attempts, r, now))
  {
  }

  lemma DrainedNone(rows: map<Id, QueueRow>, ids: seq<Id>, replies: nat -> PostResult)
    ensures Drained(rows, rows, ids, 0, replies, [])
  {
  }

  lemma DrainedNext(before: map<Id, QueueRow>, rows: map<Id, QueueRow>, ids: seq<Id>, n: nat, replies: nat -> PostResult,
                    times: seq<Time>, now: Time)
    requires n < |ids| && n == |times| && Ascending(ids) && ids[n] in before && Drained(before, rows, ids, n, replies, times)
    ensures Drained(before, AfterReply(rows, ids[n], before[ids[n]].attempts, replies(n), now), ids, n + 1, replies, times + [now])
  {
    hide Confirms, GivesUp, BackoffFor, Unauthorised, Among, Stays, AsReplied;
    AmongNext(ids, n);
    NotAmong(ids, n);
    ReplyIs(rows, ids[n], before[ids[n]].attempts, replies(n), now);
    var next := times + [now];
    assert forall i :: 0 <= i < n ==> next[i] == times[i] && ids[i] != ids[n];
    assert next[n] == now;
    var after := AfterReply(rows, ids[n], before[ids[n]].attempts, replies(n), now);
    assert ids[n] in rows && rows[ids[n]] == before[ids[n]];
    assert Replied(before, after, ids[n], replies(n), now);
    forall i | 0 <= i < n ensures Replied(before, after, ids[i], replies(i), times[i]) {
      assert Replied(before, rows, ids[i], replies(i), times[i]);
    }
  }

  lemma NotAmong(ids: seq<Id>, n: nat)
    requires n < |ids| && Ascending(ids)
    ensures !Among(ids, n, ids[n])
  {
  }

  class GatewayService {
    const queue: InboundQueue
    const receiverId: string
    var stop: bool
    var authFailed: bool

    constructor (queue: InboundQueue, receiverId: string)
      ensures this.queue == queue && this.receiverId == receiverId && !stop && !authFailed
    {
      this.queue, this.receiverId := queue, receiverId;
      stop, authFailed := false, false;
    }

    /** _handle_upload_result, and the branch of _drain_once for a POST that
        raised: confirm, pause, give up or postpone. */
    method HandleReply(id: Id, attempts: nat, r: PostResult)
      requires queue.Valid()
      modifies this`authFailed, queue`rows
      ensures queue.Valid()
      ensures queue.rows == AfterReply(old(queue.rows), id, attempts, r, queue.now)
      ensures id in queue.rows <==> id in old(queue.rows) && Stays(attempts, r)
      ensures id in queue.rows ==> AsReplied(old(queue.rows)[id], queue.rows[id], attempts, r, queue.now)
      ensures forall other :: other in old(queue.rows) && other != id ==> other in queue.rows && queue.rows[other] == old(queue.rows)[other]
      ensures authFailed <==> old(authFailed) || r == Answered(401)
    {
      hide Stays, AsReplied;
      ReplyIs(queue.rows, id, attempts, r, queue.now);
      match r {
        case NetworkError => queue.BumpAttempts(id, BackoffFor(attempts));
        case Answered(status) =>
          if 200 <= status < 300 || status == 409 {
            queue.Remove(id);
          } else if status == 401 {
            authFailed := true;
          } else if 400 <= status < 500 {
            if attempts + 1 >= MAX_ATTEMPTS_4XX {
              queue.Remove(id);
            } else {
              queue.BumpAttempts(id, BackoffFor(attempts));
            }
          } else {
            queue.BumpAttempts(id, BackoffFor(attempts));
          }
      }
    }

    /** _drain_once. `replies(i)` is what the i-th POST comes to and `took(i)`
        how long it takes; the stop event is seen before item `stopAt`. The 401
        latch is not looked at inside the loop. */
    method DrainOnce(replies: nat -> PostResult, took: nat -> nat, stopAt: nat)
      returns (drained: nat, ghost ids: seq<Id>, ghost n: nat, ghost times: seq<Time>)
      requires queue.Valid()
      modifies this`authFailed, queue`rows, queue`now
      ensures queue.Valid()
      ensures IsSnapshot(old(queue.rows), old(queue.now), 50, ids) && drained == |ids|
      ensures n == (if stopAt < |ids| then stopAt else |ids|) && |times| == n
      ensures Drained(old(queue.rows), queue.rows, ids, n, replies, times)
      ensures authFailed <==> old(authFailed) || exists i :: 0 <= i < n && replies(i) == Answered(401)
    {
      hide IsSnapshot, Drained, AfterReply;
      var items := queue.Snapshot(SNAPSHOT_LIMIT);
      ids := Ids(items);
      SnapshotAscends(queue.rows, queue.now, SNAPSHOT_LIMIT, ids);
      drained, n, times := |items|, 0, [];
      ghost var before := queue.rows;
      DrainedNone(before, ids, replies);
      var i := 0;
      while i < |items| && i < stopAt
        invariant 0 <= i <= |items| && i == n == |times| && (i <= stopAt)
        invariant queue.Valid()
        invariant Drained(before, queue.rows, ids, i, replies, times)
        invariant authFailed <==> old(authFailed) || exists k :: 0 <= k < i && replies(k) == Answered(401)
      {
        queue.now := queue.now + took(i);
        DrainedNext(before, queue.rows, ids, i, replies, times, queue.now);
        HandleReply(items[i].id, items[i].attempts, replies(i));
        times := times + [queue.now];
        i, n := i + 1, n + 1;
      }
    }

    /** One turn of _worker_loop: once a 401 has set the latch, nothing more is
        taken from the queue; until then a turn is one drain. */
    method WorkerTurn(replies: nat -> PostResult, took: nat -> nat, stopAt: nat)
      returns (drained: nat, ghost ids: seq<Id>, ghost n: nat, ghost times: seq<Time>)
      requires queue.Valid()
      modifies this`authFailed, queue`rows, queue`now
      ensures queue.Valid()
      ensures old(authFailed) ==> queue.rows == old(queue.rows) && authFailed && drained == 0
      ensures !old(authFailed) ==>
        && IsSnapshot(old(queue.rows), old(queue.now), 50, ids) && drained == |ids|
        && n == (if stopAt < |ids| then stopAt else |ids|) && |times| == n
        && Drained(old(queue.rows), queue.rows, ids, n, replies, times)
    {
      hide IsSnapshot, Drained;
      drained, ids, n, times := 0, [], 0, [];
      if !authFailed {
        drained, ids, n, times := DrainOnce(replies, took, stopAt);
      }
    }

    /** _read_once: queue, then delete, message by message. The process may die, or
        the insert raise, before any of these `2 * |listed|` actions: at `diesAt`
        the messages whose turn has come are queued, and only those are deleted
        that were queued before. */
    method ReadOnce(listed: seq<Sms>, diesAt: nat) returns (deleted: seq<nat>)
      requires queue.Valid()
      modifies queue`rows, queue`nextId
      ensures queue.Valid()
      ensures |deleted| == if diesAt < 2 * |listed| then diesAt / 2 else |listed|
      ensures forall i :: 0 <= i < |deleted| ==> deleted[i] == listed[i].index
      ensures forall i :: 0 <= i < |listed| && 2 * i < diesAt ==> HasKey(queue.rows, KeyFor(receiverId, listed[i]))
      ensures forall id :: id in old(queue.rows) ==> id in queue.rows && queue.rows[id] == old(queue.rows)[id]
      ensures forall id :: id in queue.rows && id !in old(queue.rows) ==> ReadFrom(receiverId, listed, |listed|, queue.rows[id])
    {
      hide KeyFor, HasKey;
      deleted := [];
      var i := 0;
      while i < |listed| && 2 * i < diesAt
        invariant 0 <= i <= |listed| && 2 * i <= diesAt && queue.Valid()
        invariant |deleted| == i && forall k :: 0 <= k < i ==> deleted[k] == listed[k].index
        invariant forall k :: 0 <= k < i ==> HasKey(queue.rows, KeyFor(receiverId, listed[k]))
        invariant forall id :: id in old(queue.rows) ==> id in queue.rows && queue.rows[id] == old(queue.rows)[id]
        invariant forall id :: id in queue.rows && id !in old(queue.rows) ==> ReadFrom(receiverId, listed, i, queue.rows[id])
      {
        ghost var before := queue.rows;
        var sms := listed[i];
        var key := KeyFor(receiverId, sms);
        var added := queue.Add(sms.sender, sms.body, sms.receivedAtMs, key);
        KeysStay(before, queue.rows);
        if 2 * i + 1 == diesAt {
          return;
        }
        deleted := deleted + [sms.index];
        i := i + 1;
      }
    }
  }

  /** The row was made from one of the first `n` listed messages. */
  ghost predicate ReadFrom(receiverId: string, listed: seq<Sms>, n: nat, row: QueueRow)
    requires n <= |listed|
  {
    exists i :: 0 <= i < n && row
      == QueueRow(listed[i].sender, listed[i].body, KeyFor(receiverId, listed[i]), listed[i].receivedAtMs, 0, 0)
  }

  lemma KeysStay(before: map<Id, QueueRow>, after: map<Id, QueueRow>)
    requires forall id :: id in before ==> id in after && after[id] == before[id]
    ensures forall key :: HasKey(before, key) ==> HasKey(after, key)
  {
  }

  lemma SnapshotAscends(rows: map<Id, QueueRow>, now: Time, limit: nat, ids: seq<Id>)
    requires IsSnapshot(rows, now, limit, ids)
    ensures Ascending(ids)
  {
  }

  // ----- idempotency keys --------------------------------------------------

  function Last12(s: string): string { if |s| <= 12 then s else s[|s| - 12..] }

  /** f"gsm:{receiver_id}:{received_at_ms}:{index}:{sender[-12:]}" */
  function KeyFor(receiverId: string, sms: Sms): string {
    "gsm:" + receiverId + ":" + Decimal(sms.receivedAtMs) + ":" + Decimal(sms.index) + ":" + Last12(sms.sender)
  }

  /** The same text, or two that are at least n long and end in the same n. */
  predicate SameEnd(s: string, t: string, n: nat) {
    if |s| < n || |t| < n then s == t else s[|s| - n..] == t[|t| - n..]
  }

  lemma EndsAlike(s: string, t: string)
    ensures Last12(s) == Last12(t) <==> SameEnd(s, t, 12)
  {
  }

  /** Two listed messages share a key exactly when they share the timestamp, the
      modem index and the last twelve characters of the sender. The body plays
      no part in it. */
  lemma SameKeyIff(receiverId: string, a: Sms, b: Sms)
    ensures KeyFor(receiverId, a) == KeyFor(receiverId, b)
      <==> a.receivedAtMs == b.receivedAtMs && a.index == b.index && SameEnd(a.sender, b.sender, 12)
  {
    hide Decimal, Last12;
    EndsAlike(a.sender, b.sender);
    if KeyFor(receiverId, a) == KeyFor(receiverId, b) {
      var prefix := "gsm:" + receiverId + ":";
      var restA := Decimal(a.index) + ":" + Last12(a.sender);
      var restB := Decimal(b.index) + ":" + Last12(b.sender);
      var tailA := Decimal(a.receivedAtMs) + ":" + restA;
      var tailB := Decimal(b.receivedAtMs) + ":" + restB;
      assert KeyFor(receiverId, a) == prefix + tailA && KeyFor(receiverId, b) == prefix + tailB;
      assert tailA == (prefix + tailA)[|prefix|..] && tailB == (prefix + tailB)[|prefix|..];
      DecimalDigits(a.receivedAtMs);
      DecimalDigits(b.receivedAtMs);
      DecimalDigits(a.index);
      DecimalDigits(b.index);
      EndsAtFirst(':', Decimal(a.receivedAtMs), restA, Decimal(b.receivedAtMs), restB);
      EndsAtFirst(':', Decimal(a.index), Last12(a.sender), Decimal(b.index), Last12(b.sender));
      DecimalInjective(a.receivedAtMs, b.receivedAtMs);
      DecimalInjective(a.index, b.index);
    }
  }

  predicate Queued(rows: map<Id, QueueRow>, receiverId: string, sms: Sms) {
    exists id :: id in rows && rows[id].key == KeyFor(receiverId, sms) && rows[id].body == sms.body
  }

  /** Two texts from one sender, listed at one index with one timestamp, share a
      key: of "VERIFY AAAA" and "VERIFY BBBB" no queue holds both, although
      ReadOnce deletes each from the modem. */
  lemma OneKeyTwoBodies(receiverId: string, rows: map<Id, QueueRow>)
    requires KeysUnique(rows)
    ensures var a := Sms(1, "+963900000001", "VERIFY AAAA", 0);
            var b := Sms(1, "+963900000001", "VERIFY BBBB", 0);
      && KeyFor(receiverId, a) == KeyFor(receiverId, b)
      && !(Queued(rows, receiverId, a) && Queued(rows, receiverId, b))
  {
    hide KeyFor;
    var a := Sms(1, "+963900000001", "VERIFY AAAA", 0);
    var b := Sms(1, "+963900000001", "VERIFY BBBB", 0);
    SameKeyIff(receiverId, a, b);
    assert a.body[7] == 'A' && b.body[7] == 'B';
  }
}
