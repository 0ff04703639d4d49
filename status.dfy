/** The order lifecycle statuses: a `str` enum whose values are lower-case words. */
module Status {
  import opened Common

  datatype OrderStatus = Pending | Processing | Shipped | Delivered | Cancelled {

    /** The member's `value` string. */
    function Value(): (s: string)
      ensures s != [] && forall i | 0 <= i < |s| :: 'a' <= s[i] <= 'z'
    {
      match this
      case Pending => "pending"
      case Processing => "processing"
      case Shipped => "shipped"
      case Delivered => "delivered"
      case Cancelled => "cancelled"
    }

    /** `str(status)`: the overridden `__str__` returns the value, a lower-case word. */
    function ToString(): (s: string)
      ensures s == Value()
    {
      Value()
    }

    /** `status == s` for a plain string `s`: a `str` enum member compares as its value,
        so it equals exactly the one string that names it. */
    predicate EqualsString(s: string)
      ensures EqualsString(s) <==> FromValue(s) == Some(this)
    {
      Value() == s
    }
  }

  /** `OrderStatus(s)`: the member whose value is `s`, if any. */
  function FromValue(s: string): (r: Option<OrderStatus>)
    ensures r.Some? ==> r.value.Value() == s
    ensures r.None? ==> forall st: OrderStatus :: st.Value() != s
  {
    if s == "pending" then Some(Pending)
    else if s == "processing" then Some(Processing)
    else if s == "shipped" then Some(Shipped)
    else if s == "delivered" then Some(Delivered)
    else if s == "cancelled" then Some(Cancelled)
    else None
  }

  /** The members in declaration order. */
  const AllStatuses: seq<OrderStatus> := [Pending, Processing, Shipped, Delivered, Cancelled]

  /** There are exactly five statuses, each listed once. */
  lemma ExactlyFiveStatuses(st: OrderStatus)
    ensures |AllStatuses| == 5 && NoDuplicates(AllStatuses)
    ensures st in AllStatuses
  {
  }

  /** Distinct statuses have distinct values, so comparing values compares statuses, and
      looking a status's value up gives that status back. */
  lemma {:induction false} ValueDeterminesStatus(a: OrderStatus, b: OrderStatus)
    ensures a.Value() == b.Value() <==> a == b
    ensures FromValue(a.Value()) == Some(a)
  {
    assert FromValue(a.Value()) == Some(a) && FromValue(b.Value()) == Some(b);
  }
}
