/** The badge colour of a booking's status on the traveler's bookings page. */
module TravelerBookings {
  import opened Text

  /** `getStatusColor`: a switch on the lower-cased status. */
  function GetStatusColor(status: string): (r: string)
    ensures ToLowerAscii(status) == "accepted" ==> r == "success"
    ensures ToLowerAscii(status) == "pending" ==> r == "warning"
    ensures ToLowerAscii(status) == "cancelled" ==> r == "danger"
    ensures ToLowerAscii(status) !in {"accepted", "pending", "cancelled"} ==> r == "secondary"
  {
    match ToLowerAscii(status)
    case "accepted" => "success"
    case "pending" => "warning"
    case "cancelled" => "danger"
    case _ => "secondary"
  }

  /** Lower-casing twice is lower-casing once. */
  lemma {:induction false} LowerIdempotent(s: string)
    ensures ToLowerAscii(ToLowerAscii(s)) == ToLowerAscii(s)
  {
    var l := ToLowerAscii(s);
    forall i | 0 <= i < |l| ensures ToLowerAscii(l)[i] == l[i] {
      assert !('A' <= l[i] <= 'Z');
    }
  }

  /** The colour depends on the status only through its lower-cased form: statuses that
      lower-case alike get one colour, and the lower-cased status gets the same colour as the
      status itself. */
  lemma ColorDependsOnLowerCase(a: string, b: string)
    ensures ToLowerAscii(a) == ToLowerAscii(b) ==> GetStatusColor(a) == GetStatusColor(b)
    ensures GetStatusColor(ToLowerAscii(a)) == GetStatusColor(a)
  {
    LowerIdempotent(a);
  }

  /** Lower-casing, checked character by character. */
  lemma Lowered(s: string, l: string)
    requires |s| == |l|
    requires forall i :: 0 <= i < |s| ==> l[i] == if 'A' <= s[i] <= 'Z' then s[i] - 'A' + 'a' else s[i]
    ensures ToLowerAscii(s) == l
  {
  }

  /** The backend's status words are upper case; each gets its colour. */
  lemma AcceptedColor()
    ensures GetStatusColor("ACCEPTED") == "success"
  {
    Lowered("ACCEPTED", "accepted");
  }

  lemma PendingColor()
    ensures GetStatusColor("PENDING") == "warning"
  {
    Lowered("PENDING", "pending");
  }

  lemma CancelledColor()
    ensures GetStatusColor("CANCELLED") == "danger"
  {
    Lowered("CANCELLED", "cancelled");
  }
}
