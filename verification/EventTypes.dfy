/** The event types of a new endpoint: validated, without repeats, in the order
    given. */
module EventTypes {
  import opened Wrappers
  import opened Schema

  /** isValidEventType, with the type it names. */
  function TypeNamed(name: string): (kind: Option<EventType>) {
    if name == "verification.verified" then Some(VerificationVerified)
    else if name == "verification.expired" then Some(VerificationExpired)
    else if name == "verification.cancelled" then Some(VerificationCancelled)
    else None
  }

  /** Every name is one of the three. */
  predicate AllTypes(names: seq<string>) {
    forall i :: 0 <= i < |names| ==>
      names[i] == "verification.verified" || names[i] == "verification.expired" || names[i] == "verification.cancelled"
  }

  predicate Unknown(input: seq<string>) { exists i :: 0 <= i < |input| && TypeNamed(input[i]).None? }

  /** Where a type is first named. */
  ghost predicate FirstNamed(input: seq<string>, i: nat, kind: EventType)
    requires i < |input|
  {
    TypeNamed(input[i]) == Some(kind) && forall j :: 0 <= j < i ==> TypeNamed(input[j]) != Some(kind)
  }

  /** `at[k]` is where `out[k]` is first named, and these places ascend. */
  ghost predicate InOrder(input: seq<string>, out: seq<EventType>, at: seq<nat>) {
    && |at| == |out|
    && (forall k :: 0 <= k < |out| ==> at[k] < |input| && FirstNamed(input, at[k], out[k]))
    && (forall k, l :: 0 <= k < l < |at| ==> at[k] < at[l])
  }

  /** uniqueValidatedEventTypes: refused if empty or with an unknown name;
      otherwise every named type once, in order of first appearance. */
  method UniqueValidated(input: seq<string>) returns (r: Option<seq<EventType>>, ghost at: seq<nat>)
    ensures r.None? <==> input == [] || !AllTypes(input)
    ensures r.Some? ==> InOrder(input, r.value, at)
    ensures r.Some? ==> forall k, l :: 0 <= k < l < |r.value| ==> r.value[k] != r.value[l]
    ensures r.Some? ==>
      && (VerificationVerified in r.value <==> "verification.verified" in input)
      && (VerificationExpired in r.value <==> "verification.expired" in input)
      && (VerificationCancelled in r.value <==> "verification.cancelled" in input)
  {
    hide TypeNamed, AllTypes;
    KnownIff(input);
    at := [];
    if input == [] {
      return None, [];
    }
    var seen: set<EventType> := {};
    var out: seq<EventType> := [];
    for i := 0 to |input|
      invariant forall j :: 0 <= j < i ==> TypeNamed(input[j]).Some? && TypeNamed(input[j]).value in seen
      invariant forall kind :: kind in seen <==> kind in out
      invariant InOrder(input, out, at)
      invariant forall k :: 0 <= k < |at| ==> at[k] < i
    {
      var v := TypeNamed(input[i]);
      if v.None? {
        return None, [];
      }
      if v.value !in seen {
        seen := seen + {v.value};
        ghost var before := out;
        out := out + [v.value];
        at := at + [i];
        assert out[|before|] == v.value && forall kind :: kind in before ==> kind in out;
        assert forall k :: 0 <= k < |before| ==> out[k] == before[k];
      }
    }
    forall k, l | 0 <= k < l < |out| ensures out[k] != out[l] {
      InOrderIsDistinct(input, out, at, k, l);
    }
    NamesAre(input, out, at);
    r := Some(out);
  }

  lemma KnownIff(input: seq<string>)
    ensures AllTypes(input) <==> !Unknown(input)
  {
  }

  /** The types listed are the types named. */
  lemma NamesAre(input: seq<string>, out: seq<EventType>, at: seq<nat>)
    requires InOrder(input, out, at)
    requires forall i :: 0 <= i < |input| ==> TypeNamed(input[i]).Some? && TypeNamed(input[i]).value in out
    ensures VerificationVerified in out <==> "verification.verified" in input
    ensures VerificationExpired in out <==> "verification.expired" in input
    ensures VerificationCancelled in out <==> "verification.cancelled" in input
  {
    forall kind | kind in out ensures exists i :: 0 <= i < |input| && TypeNamed(input[i]) == Some(kind) {
      var k :| 0 <= k < |out| && out[k] == kind;
      assert FirstNamed(input, at[k], out[k]);
    }
  }

  /** No type is first named in two places. */
  lemma InOrderIsDistinct(input: seq<string>, out: seq<EventType>, at: seq<nat>, k: nat, l: nat)
    requires InOrder(input, out, at) && k < l < |out|
    ensures out[k] != out[l]
  {
    assert FirstNamed(input, at[l], out[l]) && FirstNamed(input, at[k], out[k]);
  }
}
