/** The server's claim of a message, down to its text: the parser of the state
    machine is the one that reads bodies. */
module TextEvidence {
  import opened Wrappers
  import opened Schema
  import opened Store
  import opened Invariant
  import opened Guarantees
  import opened Messages

  ghost predicate ReadsText(cfg: Config, u: Unicode) { Standard(u) && forall body :: cfg.parse(body) == Parse(u, body) }

  /** A verified row has a stored message, from its phone on its receiver, whose
      letters are VERIFY and the row's code and nothing else. */
  lemma VerifiedByText(s: State, cfg: Config, u: Unicode, v: Id)
    requires Reachable(s, cfg) && ReadsText(cfg, u)
    requires v in s.db.verifications && s.db.verifications[v].status == VerificationStatus.Verified
    ensures exists i | i in s.db.inbound ::
      && s.db.inbound[i].receiverId == s.db.verifications[v].receiverId
      && s.db.inbound[i].from == s.db.verifications[v].phone
      && Messages.Upper(u, Squeeze(u, s.db.inbound[i].body)) == "VERIFY" + s.db.verifications[v].code
  {
    VerifiedHasEvidence(s, cfg, v);
    hide Reachable, Parse, Extract, Standard, Squeeze, Upper;
    var i := s.db.verifications[v].matchedInbound.value;
    var body := s.db.inbound[i].body;
    ParsesExactly(u, body, s.db.verifications[v].code);
  }

  /** A binding that was ever verified has one whose letters are BIND and the
      binding's nonce. */
  lemma BoundByText(s: State, cfg: Config, u: Unicode, b: Id)
    requires Reachable(s, cfg) && ReadsText(cfg, u)
    requires b in s.db.bindings && s.db.bindings[b].boundAt.Some?
    ensures exists i | i in s.db.inbound ::
      && s.db.inbound[i].receiverId == s.db.bindings[b].receiverId
      && s.db.inbound[i].from == s.db.bindings[b].phone
      && Messages.Upper(u, Squeeze(u, s.db.inbound[i].body)) == "BIND" + s.db.bindings[b].nonce
  {
    BoundHasEvidence(s, cfg, b, []);
    hide Reachable, Parse, Extract, Standard, Squeeze, Upper;
    var i := s.past.boundBy[b];
    var body := s.db.inbound[i].body;
    ParsesExactly(u, body, s.db.bindings[b].nonce);
  }
}
