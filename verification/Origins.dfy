/** Where every row comes from: in any run, each verification, binding and
    message goes back to one request of that run, from which it has its columns
    and its deadline. */
module Origins {
  import opened Wrappers
  import opened Schema
  import opened Store
  import opened Columns
  import opened Invariant
  import opened StepLemmas
  import opened Evolution
  import Selection

  /** The state in which the k-th step of a run from empty tables is taken. */
  function Before(cfg: Config, run: seq<Step>, k: nat): State
    requires k <= |run|
  {
    Exec(Empty, cfg, run[..k])
  }

  /** What a start fixes for its row. */
  datatype Terms = Terms(appId: string, phone: string, expiresAt: Time)

  /** Step k began the verification: the phone was bound then, and the deadline
      is verificationTtl after that moment. */
  ghost predicate StartBegan(cfg: Config, run: seq<Step>, k: nat, id: Id, terms: Terms)
    requires k < |run|
  {
    var s := Before(cfg, run, k);
    && run[k].Starts? && run[k].start.DoBeginStart?
    && s.nextId == id
    && run[k].start.appId == terms.appId && run[k].start.phone == terms.phone
    && HasActive(s.db.bindings, terms.appId, terms.phone)
    && terms.expiresAt == s.now + cfg.verificationTtl
  }

  /** What a request to bind fixes for its row. */
  datatype BindTerms = BindTerms(appId: string, receiverId: Id, phone: string, expiresAt: Time)

  /** Step k began the binding: on an enabled receiver of the app, for a phone not
      bound then, and the deadline is bindingTtl after that moment. */
  ghost predicate BindBegan(cfg: Config, run: seq<Step>, k: nat, id: Id, terms: BindTerms)
    requires k < |run|
  {
    var s := Before(cfg, run, k);
    && run[k].Binds? && run[k].bind.DoBeginBind?
    && s.nextId == id
    && run[k].bind.appId == terms.appId && run[k].bind.receiverId == terms.receiverId
    && cfg.normalize(run[k].bind.phone) == Some(terms.phone)
    && terms.receiverId in s.db.receivers && s.db.receivers[terms.receiverId].appId == terms.appId
    && s.db.receivers[terms.receiverId].enabled
    && !HasActive(s.db.bindings, terms.appId, terms.phone)
    && terms.expiresAt == s.now + cfg.bindingTtl
  }

  /** What a request to store a message fixes for its row. */
  datatype Text = Text(receiverId: Id, from: string, body: string, key: string)

  /** Step k stored the message: well formed, to a known receiver, under a key new
      to it; the sender in normal form, the body whole. */
  ghost predicate Came(cfg: Config, run: seq<Step>, k: nat, id: Id, text: Text)
    requires k < |run|
  {
    var s := Before(cfg, run, k);
    && run[k].Inbounds? && run[k].inbound.DoStoreInbound?
    && s.nextId == id
    && run[k].inbound.receiverId == text.receiverId && text.receiverId in s.db.receivers
    && run[k].inbound.body == text.body && run[k].inbound.key == text.key
    && 3 <= |run[k].inbound.from| <= 32 && 1 <= |text.body| <= 1600 && 8 <= |text.key| <= 128
    && IsSender(cfg, run[k].inbound.from, text.from)
    && forall i :: i in s.db.inbound && s.db.inbound[i].receiverId == text.receiverId ==> s.db.inbound[i].idempotencyKey != text.key
  }

  // ----- every row of a state has its request in the run --------------------

  function TermsOf(row: Verification): Terms { Terms(row.appId, row.phone, row.expiresAt) }

  function StartTerms(start: Start): Terms { Terms(start.appId, start.phone, start.expiresAt) }

  function BindTermsOf(row: Binding): BindTerms { BindTerms(row.appId, row.receiverId, row.phone, row.expiresAt) }

  function BindStartTerms(b: BindStart): BindTerms { BindTerms(b.appId, b.receiverId, b.phone, b.expiresAt) }

  function TextOf(m: Inbound): Text { Text(m.receiverId, m.from, m.body, m.idempotencyKey) }

  ghost predicate HasStart(cfg: Config, run: seq<Step>, id: Id, terms: Terms) {
    exists k :: 0 <= k < |run| && StartBegan(cfg, run, k, id, terms)
  }

  ghost predicate HasBind(cfg: Config, run: seq<Step>, id: Id, terms: BindTerms) {
    exists k :: 0 <= k < |run| && BindBegan(cfg, run, k, id, terms)
  }

  ghost predicate HasCome(cfg: Config, run: seq<Step>, id: Id, text: Text) {
    exists k :: 0 <= k < |run| && Came(cfg, run, k, id, text)
  }

  ghost predicate Traced(cfg: Config, run: seq<Step>, s: State) {
    && (forall v :: v in s.db.verifications ==> HasStart(cfg, run, v, TermsOf(s.db.verifications[v])))
    && (forall o :: o in s.live.starts ==> HasStart(cfg, run, o, StartTerms(s.live.starts[o])))
    && (forall b :: b in s.db.bindings ==> HasBind(cfg, run, b, BindTermsOf(s.db.bindings[b])))
    && (forall b :: b in s.live.bindStarts ==> HasBind(cfg, run, b, BindStartTerms(s.live.bindStarts[b])))
    && (forall i :: i in s.db.inbound ==> HasCome(cfg, run, i, TextOf(s.db.inbound[i])))
  }

  // ----- what one step adds ------------------------------------------------

  /** A start is one that was there, with its terms, or is begun by this step. */
  ghost predicate StartsFrom(s: State, cfg: Config, step: Step, t: State) {
    forall o :: o in t.live.starts ==>
      || (o in s.live.starts && StartTerms(t.live.starts[o]) == StartTerms(s.live.starts[o]))
      || (step.Starts? && step.start.DoBeginStart? && o == s.nextId
          && HasActive(s.db.bindings, step.start.appId, step.start.phone)
          && StartTerms(t.live.starts[o]) == Terms(step.start.appId, step.start.phone, s.now + cfg.verificationTtl))
  }

  /** A verification was there, or is a start's that was in flight. */
  ghost predicate RowsFrom(s: State, t: State) {
    forall v :: v in t.db.verifications ==>
      || (v in s.db.verifications && TermsOf(t.db.verifications[v]) == TermsOf(s.db.verifications[v]))
      || (v in s.live.starts && TermsOf(t.db.verifications[v]) == StartTerms(s.live.starts[v]))
  }

  ghost predicate BindStartsFrom(s: State, cfg: Config, step: Step, t: State) {
    forall b :: b in t.live.bindStarts ==>
      || (b in s.live.bindStarts && t.live.bindStarts[b] == s.live.bindStarts[b])
      || (step.Binds? && step.bind.DoBeginBind? && b == s.nextId
          && cfg.normalize(step.bind.phone).Some?
          && step.bind.receiverId in s.db.receivers && s.db.receivers[step.bind.receiverId].appId == step.bind.appId
          && s.db.receivers[step.bind.receiverId].enabled
          && !HasActive(s.db.bindings, step.bind.appId, cfg.normalize(step.bind.phone).value)
          && BindStartTerms(t.live.bindStarts[b])
             == BindTerms(step.bind.appId, step.bind.receiverId, cfg.normalize(step.bind.phone).value, s.now + cfg.bindingTtl))
  }

  ghost predicate BindingsFrom(s: State, t: State) {
    forall b :: b in t.db.bindings ==>
      || (b in s.db.bindings && BindTermsOf(t.db.bindings[b]) == BindTermsOf(s.db.bindings[b]))
      || (b in s.live.bindStarts && BindTermsOf(t.db.bindings[b]) == BindStartTerms(s.live.bindStarts[b]))
  }

  ghost predicate MessagesFrom(s: State, cfg: Config, step: Step, t: State) {
    forall i :: i in t.db.inbound ==>
      || (i in s.db.inbound && TextOf(t.db.inbound[i]) == TextOf(s.db.inbound[i]))
      || (step.Inbounds? && step.inbound.DoStoreInbound? && i == s.nextId
          && NewText(s, cfg, step.inbound.receiverId, step.inbound.from, step.inbound.body, step.inbound.key, TextOf(t.db.inbound[i])))
  }

  ghost predicate NewText(s: State, cfg: Config, receiverId: Id, from: string, body: string, key: string, text: Text) {
    && receiverId in s.db.receivers && 3 <= |from| <= 32 && 1 <= |body| <= 1600 && 8 <= |key| <= 128
    && text.receiverId == receiverId && text.body == body && text.key == key && IsSender(cfg, from, text.from)
    && forall i :: i in s.db.inbound && s.db.inbound[i].receiverId == receiverId ==> s.db.inbound[i].idempotencyKey != key
  }

  lemma StartStepFrom(s: State, cfg: Config, step: StartStep)
    requires Inv(s, cfg)
    ensures StartsFrom(s, cfg, Starts(step), ApplyStart(s, cfg, step)) && RowsFrom(s, ApplyStart(s, cfg, step))
  {
    hide Inv, IsBound, HasActive, LockFree, MustWait, Collides, PendingFor, Eligible, First, NewRow;
    if step.DoBeginStart? {
      BoundIff(s.db.bindings, step.appId, step.phone);
    }
    if step.DoCommitStart? && step.id in s.live.starts && s.live.starts[step.id].phase.Inserted? {
      InsertedTerms(s, cfg, step.id);
    }
  }

  /** An inserted row has its start's terms. */
  lemma InsertedTerms(s: State, cfg: Config, id: Id)
    requires Inv(s, cfg) && id in s.live.starts && s.live.starts[id].phase.Inserted?
    ensures TermsOf(s.live.starts[id].phase.row) == StartTerms(s.live.starts[id])
  {
    hide IdsBelow, Homed, MessagesSound, OnTime, BoundFirst, OutboxExact, LocksApart, WithinCap, PendingUnique, Collides;
  }

  lemma BindStepFrom(s: State, cfg: Config, step: BindStep)
    ensures BindStartsFrom(s, cfg, Binds(step), ApplyBind(s, cfg, step)) && BindingsFrom(s, ApplyBind(s, cfg, step))
  {
    hide IsBound, HasActive;
    if step.DoBeginBind? && cfg.normalize(step.phone).Some? {
      BoundIff(s.db.bindings, step.appId, cfg.normalize(step.phone).value);
    }
  }

  lemma InboundStepFrom(s: State, cfg: Config, step: InboundStep)
    ensures MessagesFrom(s, cfg, Inbounds(step), ApplyInbound(s, cfg, step))
    ensures BindingsFrom(s, ApplyInbound(s, cfg, step))
  {
    hide Candidates, FanOut, Subscribed, Lists, DataFor, Sender, IsSender, ActiveUnique, Promotable;
    if step.DoStoreInbound? {
      SenderIs(cfg, step.from);
    }
  }

  lemma ClosedRowsFrom(s: State, t: State)
    requires Selection.ClosesOne(s, t) && RowsEvolve(s.db.verifications, t.db.verifications)
    ensures RowsFrom(s, t)
  {
  }

  lemma BindStartsUntouched(s: State, cfg: Config, step: Step)
    ensures !step.Binds? ==> Apply(s, cfg, step).live.bindStarts == s.live.bindStarts
  {
    hide Subscribed, Lists, FanOut, DataFor, Candidates, Promotable, Promote, ActiveUnique, KeyTaken, WellFormed, Sender, Truncate, IsBound,
         LockFree, MustWait, Collides, PendingFor, Eligible, First, NewRow;
  }

  ghost predicate StepFrom(s: State, cfg: Config, step: Step, t: State) {
    StartsFrom(s, cfg, step, t) && RowsFrom(s, t) && BindStartsFrom(s, cfg, step, t) && BindingsFrom(s, t) && MessagesFrom(s, cfg, step, t)
  }

  lemma StepAdds(s: State, cfg: Config, step: Step)
    requires Inv(s, cfg)
    ensures StepFrom(s, cfg, step, Apply(s, cfg, step))
  {
    hide Inv, ApplyAdmin, ApplyBind, ApplyStart, ApplyInbound, ApplyClose, HasActive, IsSender, Selection.ClosesOne,
         BindingsEvolve, MessagesEvolve, EventsEvolve, NewText;
    var t := Apply(s, cfg, step);
    StepEvolves(s, cfg, step);
    Selection.StartsUntouched(s, cfg, step);
    BindStartsUntouched(s, cfg, step);
    match step
    case Tick(_) =>
    case Admin(a) => AdminFrame(s, a);
    case Binds(b) => BindFrame(s, cfg, b); BindStepFrom(s, cfg, b);
    case Starts(st) => StartFrame(s, cfg, st); StartStepFrom(s, cfg, st);
    case Inbounds(i) => Selection.InboundClosesOne(s, cfg, i); ClosedRowsFrom(s, t); InboundStepFrom(s, cfg, i);
    case Closes(c) => CloseFrame(s, c); Selection.CloseClosesOne(s, c); ClosedRowsFrom(s, t);
  }

  // ----- runs --------------------------------------------------------------

  lemma TracedLonger(cfg: Config, run: seq<Step>, step: Step)
    ensures forall id, terms :: HasStart(cfg, run, id, terms) ==> HasStart(cfg, run + [step], id, terms)
    ensures forall id, terms :: HasBind(cfg, run, id, terms) ==> HasBind(cfg, run + [step], id, terms)
    ensures forall id, text :: HasCome(cfg, run, id, text) ==> HasCome(cfg, run + [step], id, text)
  {
    hide Exec, HasActive, IsSender;
    var longer := run + [step];
    forall k | 0 <= k < |run| ensures Before(cfg, longer, k) == Before(cfg, run, k) {
      assert longer[..k] == run[..k];
    }
    forall id, terms | HasStart(cfg, run, id, terms) ensures HasStart(cfg, longer, id, terms) {
      var k :| 0 <= k < |run| && StartBegan(cfg, run, k, id, terms);
      assert StartBegan(cfg, longer, k, id, terms);
    }
    forall id, terms | HasBind(cfg, run, id, terms) ensures HasBind(cfg, longer, id, terms) {
      var k :| 0 <= k < |run| && BindBegan(cfg, run, k, id, terms);
      assert BindBegan(cfg, longer, k, id, terms);
    }
    forall id, text | HasCome(cfg, run, id, text) ensures HasCome(cfg, longer, id, text) {
      var k :| 0 <= k < |run| && Came(cfg, run, k, id, text);
      assert Came(cfg, longer, k, id, text);
    }
  }

  lemma TracedNext(cfg: Config, run: seq<Step>, step: Step, s: State, t: State)
    requires s == Exec(Empty, cfg, run) && Traced(cfg, run, s) && StepFrom(s, cfg, step, t)
    ensures Traced(cfg, run + [step], t)
  {
    hide Exec, HasActive, IsSender, HasStart, HasBind, HasCome;
    TracedLonger(cfg, run, step);
    var longer := run + [step];
    assert Before(cfg, longer, |run|) == s && longer[|run|] == step by {
      assert longer[..|run|] == run;
    }
    forall o | o in t.live.starts && !(o in s.live.starts && StartTerms(t.live.starts[o]) == StartTerms(s.live.starts[o]))
      ensures HasStart(cfg, longer, o, StartTerms(t.live.starts[o])) {
      Starting(cfg, longer, |run|, o, StartTerms(t.live.starts[o]));
    }
    forall b | b in t.live.bindStarts && !(b in s.live.bindStarts && t.live.bindStarts[b] == s.live.bindStarts[b])
      ensures HasBind(cfg, longer, b, BindStartTerms(t.live.bindStarts[b])) {
      Binding(cfg, longer, |run|, b, BindStartTerms(t.live.bindStarts[b]));
    }
    forall i | i in t.db.inbound && !(i in s.db.inbound && TextOf(t.db.inbound[i]) == TextOf(s.db.inbound[i]))
      ensures HasCome(cfg, longer, i, TextOf(t.db.inbound[i])) {
      Coming(cfg, longer, |run|, i, TextOf(t.db.inbound[i]));
    }
  }

  lemma Starting(cfg: Config, run: seq<Step>, k: nat, id: Id, terms: Terms)
    requires k < |run| && StartBegan(cfg, run, k, id, terms)
    ensures HasStart(cfg, run, id, terms)
  {
  }

  lemma Binding(cfg: Config, run: seq<Step>, k: nat, id: Id, terms: BindTerms)
    requires k < |run| && BindBegan(cfg, run, k, id, terms)
    ensures HasBind(cfg, run, id, terms)
  {
  }

  lemma Coming(cfg: Config, run: seq<Step>, k: nat, id: Id, text: Text)
    requires k < |run| && Came(cfg, run, k, id, text)
    ensures HasCome(cfg, run, id, text)
  {
  }

  lemma {:induction false} RunTraced(cfg: Config, run: seq<Step>)
    ensures Inv(Exec(Empty, cfg, run), cfg) && Traced(cfg, run, Exec(Empty, cfg, run))
    decreases |run|
  {
    hide Inv, Apply, StepFrom, HasStart, HasBind, HasCome;
    InvInitially(cfg);
    if run != [] {
      var earlier, step := run[..|run| - 1], run[|run| - 1];
      assert run == earlier + [step];
      RunTraced(cfg, earlier);
      var s := Exec(Empty, cfg, earlier);
      ExecThen(Empty, cfg, earlier, step);
      StepKeeps(s, cfg, step);
      StepAdds(s, cfg, step);
      hide Traced;
      TracedNext(cfg, earlier, step, s, Apply(s, cfg, step));
    }
  }

  /** In every run, a verification goes back to the start that began it: its app
      and phone are that request's, the phone was bound at that moment, and the
      deadline is exactly verificationTtl after it; until then, and no longer, a
      pending row is reported as pending. */
  lemma VerificationBegan(cfg: Config, run: seq<Step>, v: Id)
    requires v in Exec(Empty, cfg, run).db.verifications
    ensures var row := Exec(Empty, cfg, run).db.verifications[v];
      exists k | 0 <= k < |run| ::
        && StartBegan(cfg, run, k, v, TermsOf(row))
        && forall at :: Reported(row, at) == VerificationStatus.Pending
             <==> row.status == VerificationStatus.Pending && at < Before(cfg, run, k).now + cfg.verificationTtl
  {
    hide Inv, Exec, StartBegan;
    RunTraced(cfg, run);
    var row := Exec(Empty, cfg, run).db.verifications[v];
    assert HasStart(cfg, run, v, TermsOf(row));
    var k :| 0 <= k < |run| && StartBegan(cfg, run, k, v, TermsOf(row));
    assert row.expiresAt == Before(cfg, run, k).now + cfg.verificationTtl by {
      DeadlineOf(cfg, run, k, v, TermsOf(row));
    }
  }

  lemma DeadlineOf(cfg: Config, run: seq<Step>, k: nat, id: Id, terms: Terms)
    requires k < |run| && StartBegan(cfg, run, k, id, terms)
    ensures terms.expiresAt == Before(cfg, run, k).now + cfg.verificationTtl
  {
  }

  /** In every run, a binding goes back to the request that began it. */
  lemma BindingBegan(cfg: Config, run: seq<Step>, b: Id)
    requires b in Exec(Empty, cfg, run).db.bindings
    ensures exists k | 0 <= k < |run| :: BindBegan(cfg, run, k, b, BindTermsOf(Exec(Empty, cfg, run).db.bindings[b]))
  {
    hide Inv, Exec, BindBegan;
    RunTraced(cfg, run);
    assert HasBind(cfg, run, b, BindTermsOf(Exec(Empty, cfg, run).db.bindings[b]));
  }

  /** In every run, a stored message goes back to one request: its sender is the
      normal form of that request's, or the first 32 characters, and its text and
      key are as they came. */
  lemma MessageCame(cfg: Config, run: seq<Step>, i: Id)
    requires i in Exec(Empty, cfg, run).db.inbound
    ensures exists k | 0 <= k < |run| :: Came(cfg, run, k, i, TextOf(Exec(Empty, cfg, run).db.inbound[i]))
  {
    hide Inv, Exec, Came;
    RunTraced(cfg, run);
    assert HasCome(cfg, run, i, TextOf(Exec(Empty, cfg, run).db.inbound[i]));
  }
}
