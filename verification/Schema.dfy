/** Row types of the server's tables. Columns that no modelled step reads or
    writes (purpose, locale, client_ref, ip, names) are left out. */
module Schema {
  import opened Wrappers

  /** Row ids are drawn from one counter; the source draws ULIDs. */
  type Id = nat

  /** The id is one of the first n of a list. */
  predicate Among(ids: seq<Id>, n: nat, id: Id)
    requires n <= |ids|
  {
    exists i :: 0 <= i < n && ids[i] == id
  }

  lemma AmongNext(ids: seq<Id>, n: nat)
    requires n < |ids|
    ensures forall id :: Among(ids, n + 1, id) <==> Among(ids, n, id) || id == ids[n]
  {
    forall id ensures Among(ids, n + 1, id) <==> Among(ids, n, id) || id == ids[n] {
      if Among(ids, n, id) {
        var i :| 0 <= i < n && ids[i] == id;
        assert 0 <= i < n + 1;
      }
    }
  }

  /** Milliseconds on the single clock the model assumes. */
  type Time = int

  datatype VerificationStatus = Pending | Verified | Expired | Cancelled | Failed

  datatype BindingStatus = Pending | Verified | Revoked

  datatype DeliveryStatus = Pending | Delivered | Failed | Abandoned

  datatype EventType = VerificationVerified | VerificationExpired | VerificationCancelled

  /** What an SMS body asks for: the BIND prefix is tried before VERIFY. */
  datatype Intent = Bind(nonce: string) | Verify(code: string) | Nothing

  datatype Receiver = Receiver(
    appId: string, msisdn: string, operator: Option<string>,
    enabled: bool, lastHeartbeatAt: Option<Time>, createdAt: Time)

  datatype Verification = Verification(
    appId: string, phone: string, receiverId: Id, code: string,
    status: VerificationStatus, attempts: nat, expiresAt: Time,
    verifiedAt: Option<Time>, cancelledAt: Option<Time>, matchedInbound: Option<Id>)

  datatype Inbound = Inbound(
    receiverId: Id, from: string, body: string, idempotencyKey: string, matched: Option<Id>)

  datatype Binding = Binding(
    appId: string, receiverId: Id, phone: string, status: BindingStatus,
    nonce: string, expiresAt: Time, boundAt: Option<Time>, revokedAt: Option<Time>)

  datatype Endpoint = Endpoint(appId: string, enabled: bool, eventTypes: set<EventType>)

  /** The data block of a webhook payload: which verification, its status, and
      the one timestamp that goes with the event type. */
  datatype EventData = EventData(verificationId: Id, status: VerificationStatus, at: Option<Time>)

  datatype Event = Event(appId: string, eventType: EventType, data: EventData, createdAt: Time)

  datatype Delivery = Delivery(
    endpointId: Id, eventId: Id, eventType: EventType,
    status: DeliveryStatus, attemptCount: nat, nextAttemptAt: Time)
}
