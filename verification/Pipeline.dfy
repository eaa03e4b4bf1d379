/** The gateway's upload worker, a network that loses, delays and repeats, and
    the server, as one system. The server may take any step of its state machine
    at any time, so it may also die between storing a message and matching it. */
module Pipeline {
  import opened Wrappers
  import opened Schema
  import opened Store
  import opened Invariant
  import opened ClaimLemmas
  import opened OutboxLemmas
  import opened Evolution
  import opened Guarantees
  import opened Gateway

  datatype Message = Message(from: string, body: string, key: string)

  datatype Reply = Reply(key: string, status: nat)

  /** The POST the worker waits for, with the attempts its snapshot showed. */
  datatype Waiting = Waiting(id: Id, attempts: nat, key: string)

  /** History: an item taken off the queue, and the reply that did it. */
  datatype Drop = Drop(key: string, attempts: nat, result: PostResult)

  datatype Device = Device(
    now: Time, nextId: Id, rows: map<Id, QueueRow>, waiting: Option<Waiting>, authFailed: bool,
    added: set<string>, dropped: set<Drop>)

  /** `requests` and `replies` hold everything ever sent: what the network loses
      is never delivered, what it repeats is delivered again. `serving` is what
      the handler of a call remembers of its request, and `finished` holds the
      handlers whose processInbound has returned. */
  datatype Pipe = Pipe(
    device: Device, requests: set<Message>, replies: set<Reply>, server: State,
    serving: map<Id, Message>, finished: map<Id, Message>)

  const NoDevice: Device := Device(0, 0, map[], None, false, {}, {})

  datatype PipeStep =
    | Wait(dt: nat)
    | ReadSms(from: string, body: string, receivedAt: Time, key: string)
    | Post(id: Id)
    | Receive(status: nat)
    | GetNothing
    | Restart
    | Serve(msg: Message)
    | Acknowledge(call: Id)
    | Refuse(key: string, status: nat)
    | OtherServerStep(step: Step)

  predicate Stored(s: State, r: Id, key: string) { KeyTaken(s.db.inbound, r, key) }

  /** The worker's side. The rest of a snapshot is posted even after a 401, so
      the latch does not bar a post. */
  function StepDevice(p: Pipe, step: PipeStep): Pipe {
    var d := p.device;
    match step
    case Wait(dt) => p.(device := d.(now := d.now + dt))
    case ReadSms(from, body, receivedAt, key) =>
      if HasKey(d.rows, key) then p
      else p.(device := d.(rows := d.rows[d.nextId := QueueRow(from, body, key, receivedAt, 0, 0)],
                           nextId := d.nextId + 1, added := d.added + {key}))
    case Post(id) =>
      if d.waiting.None? && id in d.rows && Ready(d.rows[id], d.now)
      then p.(device := d.(waiting := Some(Waiting(id, d.rows[id].attempts, d.rows[id].key))),
              requests := p.requests + {Message(d.rows[id].from, d.rows[id].body, d.rows[id].key)})
      else p
    case Receive(status) =>
      if d.waiting.Some? && Reply(d.waiting.value.key, status) in p.replies
      then p.(device := Conclude(d, d.waiting.value, Answered(status))) else p
    case GetNothing => if d.waiting.Some? then p.(device := Conclude(d, d.waiting.value, NetworkError)) else p
    case Restart => p.(device := d.(waiting := None, authFailed := false))
    case _ => p
  }

  function Conclude(d: Device, w: Waiting, r: PostResult): Device {
    d.(waiting := None,
       rows := AfterReply(d.rows, w.id, w.attempts, r, d.now),
       authFailed := d.authFailed || Unauthorised(r),
       dropped := if Confirms(r) || GivesUp(w.attempts, r) then d.dropped + {Drop(w.key, w.attempts, r)} else d.dropped)
  }

  /** The server's step, if any. */
  function ServerStep(r: Id, step: PipeStep): Option<Step> {
    match step
    case Serve(msg) => Some(Inbounds(DoStoreInbound(r, msg.from, msg.body, msg.key)))
    case OtherServerStep(other) => Some(other)
    case _ => None
  }

  function Served(s: State, cfg: Config, r: Id, step: PipeStep): State {
    match ServerStep(r, step)
    case Some(x) => Apply(s, cfg, x)
    case None => s
  }

  /** No row for the call's nonce: binding_no_match, which is a normal return. */
  predicate NothingToPromote(s: State, id: Id) {
    && id in s.live.calls && s.live.calls[id].phase.Clocked? && s.live.calls[id].intent.Bind?
    && var c := s.live.calls[id];
       Promotable(s.db.bindings, c.receiverId, c.from, c.intent.nonce, c.phase.serverNow) == {}
  }

  /** The steps with which processInbound returns: the claim, the note after a
      promotion, a promotion that finds no row, and a body that asks nothing. A
      crash and a refused promotion end a call without returning. */
  predicate Returns(s: State, step: InboundStep, id: Id) {
    match step
    case DoClaim(i, _, _, _) => i == id
    case DoAnnotate(i) => i == id
    case DoReturn(i) => i == id
    case DoConsumeNonce(i, _) => i == id && NothingToPromote(s, id)
    case _ => false
  }

  /** The step is the one with which this call, in flight before, has ended. */
  predicate EndsWell(s: State, t: State, step: Step, id: Id) {
    step.Inbounds? && Returns(s, step.inbound, id) && id in s.live.calls && id !in t.live.calls
  }

  function Serving(p: Pipe, t: State, step: PipeStep): map<Id, Message> {
    if step.Serve? && p.server.nextId in t.db.inbound && p.server.nextId !in p.server.db.inbound
    then p.serving[p.server.nextId := step.msg] else p.serving
  }

  function Finished(p: Pipe, t: State, step: PipeStep): map<Id, Message> {
    if step.OtherServerStep?
    then p.finished + (map id | id in p.serving && EndsWell(p.server, t, step.step, id) :: p.serving[id])
    else p.finished
  }

  /** What the route answers: 409 when processInbound finds the key taken, 202
      when the handler's own call has returned, and otherwise some status that
      confirms nothing. */
  function NewReplies(p: Pipe, r: Id, step: PipeStep): set<Reply> {
    match step
    case Serve(msg) =>
      if msg in p.requests && WellFormed(msg.from, msg.body, msg.key) && Stored(p.server, r, msg.key)
      then {Reply(msg.key, 409)} else {}
    case Acknowledge(call) => if call in p.finished then {Reply(p.finished[call].key, 202)} else {}
    case Refuse(key, status) => if Confirms(Answered(status)) then {} else {Reply(key, status)}
    case _ => {}
  }

  function Next(p: Pipe, cfg: Config, r: Id, step: PipeStep): Pipe {
    if step.Serve? && step.msg !in p.requests then p
    else
      var t := Served(p.server, cfg, r, step);
      StepDevice(p, step).(server := t, replies := p.replies + NewReplies(p, r, step),
                           serving := Serving(p, t, step), finished := Finished(p, t, step))
  }

  function Run(p: Pipe, cfg: Config, r: Id, steps: seq<PipeStep>): Pipe
    decreases |steps|
  {
    if steps == [] then p else Run(Next(p, cfg, r, steps[0]), cfg, r, steps[1..])
  }

  function NewPipe(server: State): Pipe { Pipe(NoDevice, {}, {}, server, map[], map[]) }

  /** Any server that runs from empty tables, and a new gateway. */
  ghost predicate PipeReachable(p: Pipe, cfg: Config, r: Id) {
    exists server, steps: seq<PipeStep> :: Reachable(server, cfg) && p == Run(NewPipe(server), cfg, r, steps)
  }

  // ----- invariant ---------------------------------------------------------

  ghost predicate RepliesTrue(s: State, r: Id, replies: set<Reply>) {
    forall y :: y in replies && Confirms(Answered(y.status)) ==> Stored(s, r, y.key)
  }

  /** A handler's call has the row that its request asked for. */
  ghost predicate HandlersTrue(s: State, r: Id, handlers: map<Id, Message>) {
    forall i :: i in handlers ==>
      i in s.db.inbound && s.db.inbound[i].receiverId == r && s.db.inbound[i].idempotencyKey == handlers[i].key
  }

  /** Nothing leaves the queue but by a drop, and the wait is for its own row. */
  ghost predicate DeviceSound(d: Device) {
    && (forall id :: id in d.rows ==> id < d.nextId && d.rows[id].key in d.added)
    && KeysUnique(d.rows)
    && (forall key :: key in d.added ==> HasKey(d.rows, key) || exists x :: x in d.dropped && x.key == key)
    && (d.waiting.Some? ==>
          && d.waiting.value.id < d.nextId
          && (d.waiting.value.id in d.rows ==> d.rows[d.waiting.value.id].nextTry <= d.now)
          && (d.waiting.value.id in d.rows ==>
                && d.rows[d.waiting.value.id].key == d.waiting.value.key
                && d.rows[d.waiting.value.id].attempts == d.waiting.value.attempts))
  }

  ghost predicate DropTrue(s: State, r: Id, x: Drop) {
    (Confirms(x.result) && Stored(s, r, x.key)) || GivesUp(x.attempts, x.result)
  }

  ghost predicate DropsTrue(s: State, r: Id, dropped: set<Drop>) { forall x :: x in dropped ==> DropTrue(s, r, x) }

  ghost predicate PipeInv(p: Pipe, cfg: Config, r: Id) {
    && Reachable(p.server, cfg)
    && HandlersTrue(p.server, r, p.serving) && HandlersTrue(p.server, r, p.finished)
    && RepliesTrue(p.server, r, p.replies)
    && DeviceSound(p.device)
    && DropsTrue(p.server, r, p.device.dropped)
  }

  /** The server never forgets a message or its key. */
  lemma StoredStays(s: State, cfg: Config, r: Id, step: PipeStep)
    requires Reachable(s, cfg)
    ensures var t := Served(s, cfg, r, step);
      && Reachable(t, cfg)
      && (forall key :: Stored(s, r, key) ==> Stored(t, r, key))
      && (forall handlers :: HandlersTrue(s, r, handlers) ==> HandlersTrue(t, r, handlers))
  {
    hide Inv, Apply, Reachable, RowsEvolve, BindingsEvolve, EventsEvolve;
    var served := ServerStep(r, step);
    if served.Some? {
      ReachableNext(s, cfg, served.value);
      ReachableInv(s, cfg);
      StepEvolves(s, cfg, served.value);
      var t := Apply(s, cfg, served.value);
      forall key | Stored(s, r, key) ensures Stored(t, r, key) {
        var i :| i in s.db.inbound && s.db.inbound[i].receiverId == r && s.db.inbound[i].idempotencyKey == key;
        assert t.db.inbound[i].idempotencyKey == key;
      }
    }
  }

  /** The row a served request makes is its own. */
  lemma ServedRow(s: State, cfg: Config, r: Id, msg: Message)
    requires s.nextId !in s.db.inbound && s.nextId in Served(s, cfg, r, Serve(msg)).db.inbound
    ensures var t := Served(s, cfg, r, Serve(msg));
      t.db.inbound[s.nextId].receiverId == r && t.db.inbound[s.nextId].idempotencyKey == msg.key
  {
    hide Sender, Truncate, WellFormed, KeyTaken;
  }

  lemma RepliesStayTrue(p: Pipe, cfg: Config, r: Id, step: PipeStep)
    requires HandlersTrue(p.server, r, p.finished) && RepliesTrue(p.server, r, p.replies)
    ensures RepliesTrue(p.server, r, p.replies + NewReplies(p, r, step))
  {
    hide WellFormed;
    if step.Acknowledge? && step.call in p.finished {
      assert p.server.db.inbound[step.call].idempotencyKey == p.finished[step.call].key;
    }
  }

  lemma ConcludeSound(d: Device, r: PostResult)
    requires DeviceSound(d) && d.waiting.Some?
    ensures DeviceSound(Conclude(d, d.waiting.value, r))
  {
    hide Confirms, GivesUp, Unauthorised, BackoffFor;
    var w := d.waiting.value;
    var e := Conclude(d, w, r);
    forall key | key in e.added ensures HasKey(e.rows, key) || exists x :: x in e.dropped && x.key == key {
      if HasKey(d.rows, key) {
        var id :| id in d.rows && d.rows[id].key == key;
        if id in e.rows {
          assert e.rows[id].key == key;
        } else {
          assert Drop(w.key, w.attempts, r) in e.dropped;
        }
      } else {
        var x :| x in d.dropped && x.key == key;
        assert x in e.dropped;
      }
    }
  }

  lemma StepDeviceSound(p: Pipe, step: PipeStep)
    requires DeviceSound(p.device)
    ensures DeviceSound(StepDevice(p, step).device)
  {
    var d := p.device;
    match step
    case Receive(status) =>
      if d.waiting.Some? {
        ConcludeSound(d, Answered(status));
      }
    case GetNothing =>
      if d.waiting.Some? {
        ConcludeSound(d, NetworkError);
      }
    case ReadSms(from, body, receivedAt, key) => AddSound(p, from, body, receivedAt, key);
    case _ =>
  }

  lemma AddSound(p: Pipe, from: string, body: string, receivedAt: Time, key: string)
    requires DeviceSound(p.device)
    ensures DeviceSound(StepDevice(p, ReadSms(from, body, receivedAt, key)).device)
  {
    var d := p.device;
    var e := StepDevice(p, ReadSms(from, body, receivedAt, key)).device;
    if !HasKey(d.rows, key) {
      assert e.rows[d.nextId].key == key;
      forall k | k in e.added ensures HasKey(e.rows, k) || exists x :: x in e.dropped && x.key == k {
        if HasKey(d.rows, k) {
          var id :| id in d.rows && d.rows[id].key == k;
          assert e.rows[id].key == k;
        }
      }
    }
  }

  lemma StepKeepsPipe(p: Pipe, cfg: Config, r: Id, step: PipeStep)
    requires PipeInv(p, cfg, r)
    ensures PipeInv(Next(p, cfg, r, step), cfg, r)
  {
    hide Served, Reachable, DeviceSound, StepDevice, NewReplies, KeyTaken, EndsWell;
    StepDeviceSound(p, step);
    DropsStayTrue(p, cfg, r, step);
    StoredStays(p.server, cfg, r, step);
    RepliesStayTrue(p, cfg, r, step);
    if step.Serve? && p.server.nextId in Served(p.server, cfg, r, step).db.inbound && p.server.nextId !in p.server.db.inbound {
      ServedRow(p.server, cfg, r, step.msg);
    }
  }

  lemma DropsStayTrue(p: Pipe, cfg: Config, r: Id, step: PipeStep)
    requires RepliesTrue(p.server, r, p.replies) && DropsTrue(p.server, r, p.device.dropped)
    ensures DropsTrue(p.server, r, StepDevice(p, step).device.dropped)
  {
    hide KeyTaken, AfterReply, HasKey;
  }

  lemma {:induction false} RunKeepsPipe(p: Pipe, cfg: Config, r: Id, steps: seq<PipeStep>)
    requires PipeInv(p, cfg, r)
    ensures PipeInv(Run(p, cfg, r, steps), cfg, r)
    decreases |steps|
  {
    hide PipeInv, Next;
    if steps != [] {
      StepKeepsPipe(p, cfg, r, steps[0]);
      RunKeepsPipe(Next(p, cfg, r, steps[0]), cfg, r, steps[1..]);
    }
  }

  lemma PipeReachableInv(p: Pipe, cfg: Config, r: Id)
    requires PipeReachable(p, cfg, r)
    ensures PipeInv(p, cfg, r)
  {
    hide Reachable;
    var server, steps: seq<PipeStep> :| Reachable(server, cfg) && p == Run(NewPipe(server), cfg, r, steps);
    RunKeepsPipe(NewPipe(server), cfg, r, steps);
  }

  // ----- end to end --------------------------------------------------------

  /** An item leaves the queue only when the server holds its key, or on a
      client error other than 401 and 409 at its fifth or a later attempt. */
  lemma DropsOnlyWhen(p: Pipe, cfg: Config, r: Id, x: Drop)
    requires PipeReachable(p, cfg, r) && x in p.device.dropped
    ensures x.result.Answered?
    ensures
      || ((200 <= x.result.status < 300 || x.result.status == 409) && |Rows(p.server, r, x.key)| == 1)
      || (400 <= x.result.status < 500 && x.result.status != 401 && x.result.status != 409 && x.attempts + 1 >= 5)
  {
    hide Reachable, PipeReachable, DeviceSound, RepliesTrue;
    PipeReachableInv(p, cfg, r);
    assert DropTrue(p.server, r, x);
    if Stored(p.server, r, x.key) {
      OneRowPerKey(p.server, cfg, r, x.key);
      var i :| i in p.server.db.inbound && p.server.db.inbound[i].receiverId == r && p.server.db.inbound[i].idempotencyKey == x.key;
      assert i in Rows(p.server, r, x.key);
    }
  }

  /** Dropped on a client error that is neither 401 nor 409, at its fifth try or
      a later one. */
  predicate ClientError(x: Drop) {
    x.result.Answered? && 400 <= x.result.status < 500 && x.result.status != 401 && x.result.status != 409 && x.attempts >= 4
  }

  /** The worker only ever waits for an item whose next try was due, with the
      attempts and the key that the item still has. */
  lemma WaitsForDue(p: Pipe, cfg: Config, r: Id)
    requires PipeReachable(p, cfg, r) && p.device.waiting.Some? && p.device.waiting.value.id in p.device.rows
    ensures var row := p.device.rows[p.device.waiting.value.id];
      row.nextTry <= p.device.now && p.device.waiting.value.attempts == row.attempts && p.device.waiting.value.key == row.key
  {
    hide Reachable, PipeReachable, RepliesTrue, DropsTrue;
    PipeReachableInv(p, cfg, r);
  }

  /** What becomes of every message ever queued, through lost requests, lost
      replies, repeats, restarts and crashes: it is still queued, or was given
      up on a client error, or is one row at the server. And in any case it has
      verified at most one row or promoted at most one binding. */
  lemma EndToEnd(p: Pipe, cfg: Config, r: Id, key: string)
    requires PipeReachable(p, cfg, r)
    ensures |Rows(p.server, r, key)| <= 1
    ensures |VerifiedBy(p.server, r, key)| + |PromotedBy(p.server, r, key)| <= 1
    ensures key in p.device.added ==>
      || HasKey(p.device.rows, key)
      || |Rows(p.server, r, key)| == 1
      || exists x :: x in p.device.dropped && x.key == key && ClientError(x)
  {
    hide Reachable, PipeReachable, RepliesTrue, Confirms, GivesUp, DropsTrue;
    PipeReachableInv(p, cfg, r);
    AtMostOneEffect(p.server, cfg, r, key);
    if key in p.device.added && !HasKey(p.device.rows, key) {
      var x :| x in p.device.dropped && x.key == key;
      DropsOnlyWhen(p, cfg, r, x);
    }
  }

  // ----- what the network can always do, and what no retry repairs ----------

  lemma {:induction false} RunThen(p: Pipe, cfg: Config, r: Id, steps: seq<PipeStep>, step: PipeStep)
    ensures Run(p, cfg, r, steps + [step]) == Next(Run(p, cfg, r, steps), cfg, r, step)
    decreases |steps|
  {
    hide Next;
    if steps == [] {
      assert [] + [step] == [step] && [step][1..] == [];
    } else {
      assert (steps + [step])[1..] == steps[1..] + [step];
      RunThen(Next(p, cfg, r, steps[0]), cfg, r, steps[1..], step);
    }
  }

  lemma {:induction false} RunConcat(p: Pipe, cfg: Config, r: Id, a: seq<PipeStep>, b: seq<PipeStep>)
    ensures Run(p, cfg, r, a + b) == Run(Run(p, cfg, r, a), cfg, r, b)
    decreases |a|
  {
    hide Next;
    if a == [] {
      assert a + b == b;
    } else {
      assert (a + b)[1..] == a[1..] + b;
      RunConcat(Next(p, cfg, r, a[0]), cfg, r, a[1..], b);
    }
  }

  function Request(row: QueueRow): Message { Message(row.from, row.body, row.key) }

  /** The worker waits until an item is ready and posts it. */
  ghost predicate Posted(p: Pipe, q: Pipe, id: Id) {
    && id in p.device.rows
    && q.server == p.server && p.replies <= q.replies
    && q.device.rows == p.device.rows && q.device.nextId == p.device.nextId
    && q.device.waiting == Some(Waiting(id, p.device.rows[id].attempts, p.device.rows[id].key))
    && Request(p.device.rows[id]) in q.requests
  }

  lemma CanPost(p: Pipe, cfg: Config, r: Id, id: Id) returns (steps: seq<PipeStep>)
    requires id in p.device.rows && p.device.waiting.None?
    ensures Posted(p, Run(p, cfg, r, steps), id)
  {
    hide Run;
    var due := p.device.rows[id].nextTry - p.device.now;
    var wait := Wait(if due > 0 then due else 0);
    RunNone(p, cfg, r);
    RunThen(p, cfg, r, [], wait);
    RunThen(p, cfg, r, [] + [wait], Post(id));
    steps := [] + [wait] + [Post(id)];
  }

  lemma RunNone(p: Pipe, cfg: Config, r: Id)
    ensures Run(p, cfg, r, []) == p
  {
  }

  /** The worker gives up waiting, if it was: the row stays, with its message. */
  ghost predicate Waited(p: Pipe, q: Pipe, id: Id) {
    && id in p.device.rows && id in q.device.rows && Request(q.device.rows[id]) == Request(p.device.rows[id])
    && q.device.waiting.None? && q.server == p.server
  }

  lemma CanIdle(p: Pipe, cfg: Config, r: Id, id: Id) returns (steps: seq<PipeStep>)
    requires id in p.device.rows
    ensures Waited(p, Run(p, cfg, r, steps), id)
  {
    hide Run;
    RunNone(p, cfg, r);
    steps := [];
    if p.device.waiting.Some? {
      RunThen(p, cfg, r, [], GetNothing);
      steps := [] + [GetNothing];
    }
  }

  /** An item whose key the server has already can be retried off the queue: it
      gets a 409, and the server does not change. */
  lemma DuplicateClears(p: Pipe, cfg: Config, r: Id, id: Id) returns (steps: seq<PipeStep>)
    requires id in p.device.rows
    requires var row := p.device.rows[id]; WellFormed(row.from, row.body, row.key) && Stored(p.server, r, row.key)
    ensures var q := Run(p, cfg, r, steps); id !in q.device.rows && q.server == p.server
  {
    hide Run, WellFormed, KeyTaken, StepDevice, Next;
    steps := CanIdle(p, cfg, r, id);
    var p1 := Run(p, cfg, r, steps);
    var more := CanPost(p1, cfg, r, id);
    var p2 := Run(p1, cfg, r, more);
    RunConcat(p, cfg, r, steps, more);
    var serve := Serve(Request(p1.device.rows[id]));
    RunThen(p, cfg, r, steps + more, serve);
    RunThen(p, cfg, r, steps + more + [serve], Receive(409));
    DuplicateAnswered(p2, cfg, r, id, p1.device.rows[id]);
    steps := steps + more + [serve] + [Receive(409)];
  }

  lemma DuplicateAnswered(p: Pipe, cfg: Config, r: Id, id: Id, row: QueueRow)
    requires id in p.device.rows && p.device.rows[id] == row && Request(row) in p.requests
    requires p.device.waiting == Some(Waiting(id, row.attempts, row.key))
    requires WellFormed(row.from, row.body, row.key) && Stored(p.server, r, row.key)
    ensures var q := Next(Next(p, cfg, r, Serve(Request(row))), cfg, r, Receive(409));
      id !in q.device.rows && q.server == p.server
  {
    hide WellFormed, KeyTaken;
    assert Confirms(Answered(409));
    TakenKeyStoresNothing(p.server, cfg, r, row.from, row.body, row.key);
  }

  /** The server's own state when a request it has not seen is served. */
  lemma StoresNew(s: State, cfg: Config, r: Id, msg: Message)
    requires r in s.db.receivers && WellFormed(msg.from, msg.body, msg.key) && !Stored(s, r, msg.key)
    ensures var t := Served(s, cfg, r, Serve(msg));
      && Stored(t, r, msg.key)
      && s.nextId in t.db.inbound && t.db.inbound[s.nextId].idempotencyKey == msg.key
      && t.db.inbound[s.nextId].receiverId == r && t.db.inbound[s.nextId].matched.None?
      && s.nextId in t.live.calls && t.live.calls[s.nextId].phase.Stored?
      && t.past == s.past
  {
    hide Sender, WellFormed;
    var t := Served(s, cfg, r, Serve(msg));
    assert t.db.inbound[s.nextId].idempotencyKey == msg.key;
  }

  /** A queued item's request has been served for the first time, its call is in
      flight, and the worker waits for the answer. */
  ghost predicate InService(q: Pipe, r: Id, id: Id, row: QueueRow, i: Id) {
    && id in q.device.rows && q.device.rows[id].key == row.key && Request(q.device.rows[id]) == Request(row)
    && q.device.waiting.Some? && q.device.waiting.value.id == id && q.device.waiting.value.key == row.key
    && i in q.serving && q.serving[i] == Request(row)
    && i in q.server.live.calls && q.server.live.calls[i].phase.Stored?
    && Unmatched(q.server, r, row.key, i)
  }

  /** The message's row, which has matched nothing and promoted nothing. */
  ghost predicate Unmatched(s: State, r: Id, key: string, i: Id) {
    && i in s.db.inbound && s.db.inbound[i].receiverId == r && s.db.inbound[i].idempotencyKey == key
    && s.db.inbound[i].matched.None?
    && forall b :: b in s.past.boundBy ==> s.past.boundBy[b] != i
  }

  lemma FreshMessage(s: State, cfg: Config)
    requires Reachable(s, cfg)
    ensures s.nextId !in s.db.inbound && forall b :: b in s.past.boundBy ==> s.past.boundBy[b] != s.nextId
  {
    SoundClaims(s, cfg);
    ReachableInv(s, cfg);
    hide Reachable, Homed, PendingSafe, MessagesSound, OnTime, BoundFirst, OutboxExact, ClaimsSound, BindingsSound, Idempotent, CallOk;
  }

  lemma CanBeServed(p: Pipe, cfg: Config, r: Id, id: Id) returns (steps: seq<PipeStep>)
    requires Reachable(p.server, cfg) && id in p.device.rows && r in p.server.db.receivers
    requires var row := p.device.rows[id]; WellFormed(row.from, row.body, row.key) && !Stored(p.server, r, row.key)
    ensures InService(Run(p, cfg, r, steps), r, id, p.device.rows[id], p.server.nextId)
  {
    hide Run, WellFormed, KeyTaken, Reachable, StepDevice, Next;
    FreshMessage(p.server, cfg);
    steps := CanIdle(p, cfg, r, id);
    var p1 := Run(p, cfg, r, steps);
    var more := CanPost(p1, cfg, r, id);
    RunConcat(p, cfg, r, steps, more);
    var row := p1.device.rows[id];
    RunThen(p, cfg, r, steps + more, Serve(Request(row)));
    ServeIsService(Run(p1, cfg, r, more), cfg, r, id, row);
    steps := steps + more + [Serve(Request(row))];
  }

  lemma ServeIsService(p: Pipe, cfg: Config, r: Id, id: Id, row: QueueRow)
    requires id in p.device.rows && p.device.rows[id] == row && Request(row) in p.requests && r in p.server.db.receivers
    requires p.device.waiting == Some(Waiting(id, row.attempts, row.key))
    requires WellFormed(row.from, row.body, row.key) && !Stored(p.server, r, row.key)
    requires p.server.nextId !in p.server.db.inbound
    requires forall b :: b in p.server.past.boundBy ==> p.server.past.boundBy[b] != p.server.nextId
    ensures InService(Next(p, cfg, r, Serve(Request(row))), r, id, row, p.server.nextId)
  {
    StoresNew(p.server, cfg, r, Request(row));
    hide WellFormed, KeyTaken, Served;
  }

  // ----- a call that runs to its end ---------------------------------------

  /** The handler's part of a pipe is what it was, and the device's. */
  ghost predicate SameDevice(p: Pipe, q: Pipe) {
    q.device == p.device && q.requests == p.requests && p.replies <= q.replies && q.serving == p.serving
  }

  /** A server step by another process changes the server, and finishes the call
      it ends well. */
  lemma Other(p: Pipe, cfg: Config, r: Id, steps: seq<PipeStep>, step: Step)
    ensures var q, q' := Run(p, cfg, r, steps), Run(p, cfg, r, steps + [OtherServerStep(step)]);
      && SameDevice(q, q') && q'.server == Apply(q.server, cfg, step)
      && forall i :: i in q.serving && EndsWell(q.server, q'.server, step, i) ==> i in q'.finished && q'.finished[i] == q.serving[i]
  {
    hide Run, Apply, EndsWell;
    RunThen(p, cfg, r, steps, OtherServerStep(step));
  }

  /** The call is over, and processInbound returned unless the index refused its
      promotion; nothing about its message is forgotten. */
  ghost predicate CallOver(p: Pipe, q: Pipe, cfg: Config, i: Id) {
    && SameDevice(p, q)
    && i in p.serving && i !in q.server.live.calls
    && ((i in q.finished && q.finished[i] == p.serving[i]) || RefusedFor(q.server, cfg, i))
  }

  /** The message's promotion would leave two verified rows of one phone. */
  ghost predicate RefusedFor(s: State, cfg: Config, i: Id) {
    i in s.db.inbound && exists nonce, at :: cfg.parse(s.db.inbound[i].body) == Bind(nonce) && Breaks(s, s.db.inbound[i], nonce, at)
  }

  ghost predicate Breaks(s: State, m: Inbound, nonce: string, at: Time) {
    !ActiveUnique(Promote(s.db.bindings, Promotable(s.db.bindings, m.receiverId, m.from, nonce, at), at))
  }

  lemma CallReadsItsRow(s: State, cfg: Config, i: Id)
    requires Inv(s, cfg) && i in s.live.calls
    ensures i in s.db.inbound && s.live.calls[i].receiverId == s.db.inbound[i].receiverId
    ensures s.live.calls[i].from == s.db.inbound[i].from && s.live.calls[i].intent == cfg.parse(s.db.inbound[i].body)
  {
    hide IdsBelow, Homed, PendingSafe, OnTime, BoundFirst, OutboxExact, Idempotent, ClaimsSound, BindingsSound;
    assert CallOk(cfg, s.db.inbound, s.past.boundBy, i, s.live.calls[i]);
  }

  lemma ClaimsToEnd(s: State, cfg: Config, i: Id) returns (step: Step)
    requires Inv(s, cfg) && i in s.live.calls && s.live.calls[i].phase.Clocked? && s.live.calls[i].intent.Verify?
    ensures EndsWell(s, Apply(s, cfg, step), step, i)
  {
    hide Inv, ClaimVerification, Candidates, Finish, Subscribed, Lists;
    ReachedCall(s, cfg, i);
    var c := s.live.calls[i];
    var open := Candidates(s.db.verifications, c.receiverId, c.from, c.intent.code, c.phase.serverNow);
    if open == {} {
      ClaimNone(s, i, []);
      step := Inbounds(DoClaim(i, {}, 0, []));
    } else {
      var pick :| pick in open;
      CandidateIn(s.db.verifications, c.receiverId, c.from, c.intent.code, c.phase.serverNow, pick);
      var order := ListsExist(Subscribed(s.db.endpoints, s.db.verifications[pick].appId, VerificationVerified));
      ClaimOne(s, i, pick, order);
      FinishEndsCall(MatchedBy(s, i, pick), pick, Claimed(s.db.verifications[pick], i, c.phase.serverNow), VerificationVerified, order);
      step := Inbounds(DoClaim(i, {}, pick, order));
    }
  }

  lemma FinishEndsCall(s: State, id: Id, row: Verification, kind: EventType, order: seq<Id>)
    ensures Finish(s, id, row, kind, order).live == s.live
  {
  }

  /** A call that has just been served runs to its end. */
  lemma CanFinish(p: Pipe, cfg: Config, r: Id, i: Id) returns (steps: seq<PipeStep>)
    requires Reachable(p.server, cfg) && i in p.serving && i in p.server.live.calls && p.server.live.calls[i].phase.Stored?
    ensures CallOver(p, Run(p, cfg, r, steps), cfg, i)
  {
    hide Run, Apply, Reachable, Inv, EndsWell, RefusedFor;
    RunNone(p, cfg, r);
    steps := [];
    if p.server.live.calls[i].intent.Nothing? {
      ReturnEnds(p.server, cfg, i);
      Other(p, cfg, r, steps, Inbounds(DoReturn(i)));
      steps := steps + [OtherServerStep(Inbounds(DoReturn(i)))];
    } else {
      ClockTaken(p.server, cfg, i);
      Other(p, cfg, r, steps, Inbounds(DoReadClock(i)));
      steps := steps + [OtherServerStep(Inbounds(DoReadClock(i)))];
      var q := Run(p, cfg, r, steps);
      ReachableNext(p.server, cfg, Inbounds(DoReadClock(i)));
      ReachableInv(q.server, cfg);
      if q.server.live.calls[i].intent.Verify? {
        var step := ClaimsToEnd(q.server, cfg, i);
        EndsCall(q.server, cfg, step, i);
        Other(p, cfg, r, steps, step);
        steps := steps + [OtherServerStep(step)];
      } else {
        var more := CanPromote(q, cfg, r, i);
        RunConcat(p, cfg, r, steps, more);
        steps := steps + more;
      }
    }
  }

  lemma EndsCall(s: State, cfg: Config, step: Step, i: Id)
    requires EndsWell(s, Apply(s, cfg, step), step, i)
    ensures i !in Apply(s, cfg, step).live.calls
  {
    hide Apply;
  }

  lemma ReturnEnds(s: State, cfg: Config, i: Id)
    requires i in s.live.calls && s.live.calls[i].phase.Stored? && s.live.calls[i].intent.Nothing?
    ensures var step := Inbounds(DoReturn(i)); EndsWell(s, Apply(s, cfg, step), step, i) && i !in Apply(s, cfg, step).live.calls
  {
  }

  lemma ClockTaken(s: State, cfg: Config, i: Id)
    requires i in s.live.calls && s.live.calls[i].phase.Stored?
    ensures var t := Apply(s, cfg, Inbounds(DoReadClock(i)));
      i in t.live.calls && t.live.calls[i] == s.live.calls[i].(phase := Clocked(s.now))
  {
  }

  lemma CanPromote(p: Pipe, cfg: Config, r: Id, i: Id) returns (steps: seq<PipeStep>)
    requires Inv(p.server, cfg) && i in p.serving
    requires i in p.server.live.calls && p.server.live.calls[i].phase.Clocked? && p.server.live.calls[i].intent.Bind?
    ensures CallOver(p, Run(p, cfg, r, steps), cfg, i)
  {
    hide Run, Apply, Inv, Promotable, Promote, ActiveUnique;
    RunNone(p, cfg, r);
    var s, c := p.server, p.server.live.calls[i];
    var which := Promotable(s.db.bindings, c.receiverId, c.from, c.intent.nonce, c.phase.serverNow);
    if which == {} || !ActiveUnique(Promote(s.db.bindings, which, c.phase.serverNow)) {
      ConsumeRefused(s, cfg, i);
      Other(p, cfg, r, [], Inbounds(DoConsumeNonce(i, 0)));
      steps := [] + [OtherServerStep(Inbounds(DoConsumeNonce(i, 0)))];
      if which == {} {
        assert EndsWell(s, Apply(s, cfg, Inbounds(DoConsumeNonce(i, 0))), Inbounds(DoConsumeNonce(i, 0)), i);
      } else {
        CallReadsItsRow(s, cfg, i);
        assert Breaks(CrashCall(s, i), s.db.inbound[i], c.intent.nonce, c.phase.serverNow);
      }
    } else {
      var pick :| pick in which;
      ConsumeTaken(s, cfg, i, pick);
      Other(p, cfg, r, [], Inbounds(DoConsumeNonce(i, pick)));
      steps := [] + [OtherServerStep(Inbounds(DoConsumeNonce(i, pick)))];
      var q := Run(p, cfg, r, steps);
      ReachedCall(s, cfg, i);
      AnnotateEnds(q.server, cfg, i);
      Other(p, cfg, r, steps, Inbounds(DoAnnotate(i)));
      steps := steps + [OtherServerStep(Inbounds(DoAnnotate(i)))];
    }
  }

  lemma AnnotateEnds(s: State, cfg: Config, i: Id)
    requires i in s.live.calls && i in s.db.inbound && s.live.calls[i].phase.Promoted?
    ensures var step := Inbounds(DoAnnotate(i)); EndsWell(s, Apply(s, cfg, step), step, i) && i !in Apply(s, cfg, step).live.calls
  {
  }

  // ----- getting through, and being confirmed for nothing -------------------

  /** The item is off the queue and its message stored; and if the server had not
      seen it before, its own call has run to its end. */
  ghost predicate Through(p: Pipe, q: Pipe, r: Id, id: Id, key: string) {
    && id !in q.device.rows && Stored(q.server, r, key)
    && (!Stored(p.server, r, key) ==> p.server.nextId in q.server.db.inbound && p.server.nextId !in q.server.live.calls)
  }

  /** A queued message that is well formed can always get through: whatever has
      happened, some run stores it, has its call run to its end, answers it and
      takes it off the queue. */
  lemma CanGetThrough(p: Pipe, cfg: Config, r: Id, id: Id)
    requires Reachable(p.server, cfg) && id in p.device.rows && r in p.server.db.receivers
    requires var row := p.device.rows[id]; WellFormed(row.from, row.body, row.key)
    ensures exists steps: seq<PipeStep> :: Through(p, Run(p, cfg, r, steps), r, id, p.device.rows[id].key)
  {
    hide Run, WellFormed, Reachable, KeyTaken;
    var row := p.device.rows[id];
    var steps;
    if Stored(p.server, r, row.key) {
      steps := DuplicateClears(p, cfg, r, id);
    } else {
      steps := CanBeServed(p, cfg, r, id);
      var q := Run(p, cfg, r, steps);
      RunReaches(p, cfg, r, steps);
      var more := GetsAnswer(q, cfg, r, id, p.server.nextId);
      RunConcat(p, cfg, r, steps, more);
      steps := steps + more;
    }
    assert Through(p, Run(p, cfg, r, steps), r, id, row.key);
  }

  lemma GetsAnswer(p: Pipe, cfg: Config, r: Id, id: Id, i: Id) returns (steps: seq<PipeStep>)
    requires Reachable(p.server, cfg) && id in p.device.rows && InService(p, r, id, p.device.rows[id], i)
    requires var row := p.device.rows[id]; WellFormed(row.from, row.body, row.key)
    ensures var q := Run(p, cfg, r, steps);
      id !in q.device.rows && i in q.server.db.inbound && i !in q.server.live.calls && Stored(q.server, r, p.device.rows[id].key)
  {
    hide Run, WellFormed, Reachable, KeyTaken, RefusedFor, Next;
    var row := p.device.rows[id];
    steps := CanFinish(p, cfg, r, i);
    var q := Run(p, cfg, r, steps);
    KeepsMessage(p, cfg, r, steps, row.key, i);
    if i in q.finished && q.finished[i] == p.serving[i] {
      RunThen(p, cfg, r, steps, Acknowledge(i));
      RunThen(p, cfg, r, steps + [Acknowledge(i)], Receive(202));
      Acknowledged(q, cfg, r, id, i);
      steps := steps + [Acknowledge(i)] + [Receive(202)];
    } else {
      var more := DuplicateClears(q, cfg, r, id);
      RunConcat(p, cfg, r, steps, more);
      steps := steps + more;
    }
  }

  lemma Acknowledged(p: Pipe, cfg: Config, r: Id, id: Id, i: Id)
    requires i in p.finished && p.device.waiting.Some? && p.device.waiting.value.id == id
    requires p.device.waiting.value.key == p.finished[i].key
    ensures var q := Next(Next(p, cfg, r, Acknowledge(i)), cfg, r, Receive(202));
      id !in q.device.rows && q.server == p.server
  {
    assert Confirms(Answered(202));
  }

  /** Over any run of the pipe the message's row stays, and so its key is held. */
  lemma {:induction false} KeepsMessage(p: Pipe, cfg: Config, r: Id, steps: seq<PipeStep>, key: string, i: Id)
    requires Reachable(p.server, cfg)
    requires i in p.server.db.inbound && p.server.db.inbound[i].receiverId == r && p.server.db.inbound[i].idempotencyKey == key
    ensures var q := Run(p, cfg, r, steps);
      && i in q.server.db.inbound && q.server.db.inbound[i].receiverId == r && q.server.db.inbound[i].idempotencyKey == key
      && Stored(q.server, r, key)
    decreases |steps|
  {
    hide Reachable, Served, StepDevice, NewReplies, Serving, Finished;
    if steps != [] {
      var handler := map[i := Message("", "", key)];
      StoredStays(p.server, cfg, r, steps[0]);
      assert HandlersTrue(p.server, r, handler);
      assert HandlersTrue(Next(p, cfg, r, steps[0]).server, r, handler);
      KeepsMessage(Next(p, cfg, r, steps[0]), cfg, r, steps[1..], key, i);
    }
  }

  /** The first try of a message is stored, the server dies before matching it,
      and the reply is lost. */
  lemma CanBeOrphaned(p: Pipe, cfg: Config, r: Id, id: Id) returns (steps: seq<PipeStep>)
    requires Reachable(p.server, cfg) && id in p.device.rows && r in p.server.db.receivers
    requires var row := p.device.rows[id]; WellFormed(row.from, row.body, row.key) && !Stored(p.server, r, row.key)
    ensures var q := Run(p, cfg, r, steps);
      && Unmatched(q.server, r, p.device.rows[id].key, p.server.nextId) && p.server.nextId !in q.server.live.calls
      && id in q.device.rows && Request(q.device.rows[id]) == Request(p.device.rows[id])
  {
    hide Run, WellFormed, Reachable, KeyTaken, Next;
    steps := CanBeServed(p, cfg, r, id);
    var crash := Inbounds(DoCrashCall(p.server.nextId));
    Other(p, cfg, r, steps, crash);
    steps := steps + [OtherServerStep(crash)];
  }

  /** Delivery is at most once, not exactly once. Any well-formed message that
      the server does not have yet may end like this: the gateway has seen it
      confirmed and dropped it, and no later run of the server matches it. */
  lemma MayConfirmAndNeverMatch(p: Pipe, cfg: Config, r: Id, id: Id)
    requires Reachable(p.server, cfg) && id in p.device.rows && r in p.server.db.receivers
    requires var row := p.device.rows[id]; WellFormed(row.from, row.body, row.key) && !Stored(p.server, r, row.key)
    ensures exists steps: seq<PipeStep> :: ConfirmedForNothing(Run(p, cfg, r, steps), cfg, r, id, p.device.rows[id].key)
  {
    hide Run, WellFormed, Reachable, Exec;
    var i := p.server.nextId;
    var steps := CanBeOrphaned(p, cfg, r, id);
    var q := Run(p, cfg, r, steps);
    assert Stored(q.server, r, q.device.rows[id].key);
    var more := DuplicateClears(q, cfg, r, id);
    RunConcat(p, cfg, r, steps, more);
    RunReaches(p, cfg, r, steps);
    forall later: seq<Step> ensures NeverMatches(Exec(q.server, cfg, later), i) {
      NoSecondChance(q.server, cfg, i, later);
    }
    assert ConfirmedForNothing(Run(p, cfg, r, steps + more), cfg, r, id, p.device.rows[id].key);
  }

  /** The message has matched nothing, verified nothing and promoted nothing. */
  ghost predicate NeverMatches(t: State, i: Id) {
    && i in t.db.inbound && t.db.inbound[i].matched.None?
    && (forall v :: v in t.db.verifications ==> t.db.verifications[v].matchedInbound != Some(i))
    && (forall b :: b in t.past.boundBy ==> t.past.boundBy[b] != i)
  }

  /** The item is gone from the queue, its message is stored, and no run of the
      server ever matches it. */
  ghost predicate ConfirmedForNothing(q: Pipe, cfg: Config, r: Id, id: Id, key: string) {
    && id !in q.device.rows
    && exists i :: i in q.server.db.inbound && q.server.db.inbound[i].receiverId == r
                   && q.server.db.inbound[i].idempotencyKey == key && Hopeless(q.server, cfg, i)
  }

  ghost predicate Hopeless(s: State, cfg: Config, i: Id) {
    forall later: seq<Step> :: NeverMatches(Exec(s, cfg, later), i)
  }

  lemma {:induction false} RunReaches(p: Pipe, cfg: Config, r: Id, steps: seq<PipeStep>)
    requires Reachable(p.server, cfg)
    ensures Reachable(Run(p, cfg, r, steps).server, cfg)
    decreases |steps|
  {
    hide Reachable, Served, StepDevice, NewReplies, Serving, Finished;
    if steps != [] {
      StoredStays(p.server, cfg, r, steps[0]);
      RunReaches(Next(p, cfg, r, steps[0]), cfg, r, steps[1..]);
    }
  }
}
