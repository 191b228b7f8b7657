/** The `OperationType` string enum of the account schema: two members with lower-case values. */
module OperationTypes {
  import opened Wrappers

  datatype OperationType = Sending | Receiving {

    /** The string value of the member (the enum is a `str` enum). */
    function Value(): (v: string)
      ensures |v| > 0
      ensures forall i :: 0 <= i < |v| ==> 'a' <= v[i] <= 'z'
    {
      match this
      case Sending => "sending"
      case Receiving => "receiving"
    }
  }

  /** Lookup of a member by its value, as the enum's constructor does; None for any other string. */
  function FromValue(s: string): (r: Option<OperationType>)
    ensures r.Some? ==> r.value.Value() == s
    ensures r.None? ==> forall t: OperationType :: t.Value() != s
  {
    if s == "sending" then Some(Sending)
    else if s == "receiving" then Some(Receiving)
    else None
  }

  /** The value-to-member mapping round-trips in both directions. */
  lemma ValueRoundTrip(t: OperationType, s: string)
    ensures FromValue(s) == Some(t) <==> t.Value() == s
  {
  }

  /** Distinct members have distinct values. */
  lemma ValueInjective(t: OperationType, u: OperationType)
    ensures t.Value() == u.Value() ==> t == u
  {
  }

  /** Every member is one of the two named ones. */
  lemma ExactlyTwoMembers(t: OperationType)
    ensures t == Sending || t == Receiving
    ensures Sending != Receiving
    ensures Sending.Value() == "sending" && Receiving.Value() == "receiving"
  {
  }
}
