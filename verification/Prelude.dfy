// Shared vocabulary: identifiers, optional values, operation results and the
// status every vote, proposal and invitation row carries.
module Prelude {
  datatype Option<+T> = None | Some(value: T)

  datatype Result<+T, +E> = Ok(value: T) | Err(error: E)

  // Row identifiers are UUIDs in the source; here they are drawn from counters,
  // so a fresh identifier differs from every one issued before it.
  type UserId = nat
  type GroupId = nat
  type ConnId = nat
  type PropId = nat
  type ChatId = nat
  type SignalId = nat
  type SecretId = nat

  // The persisted values of the status columns. 'expired' is written only in a
  // transaction that is then rolled back, so no committed row ever holds it.
  datatype Status = Pending | Accepted | Declined

  datatype Error =
    | AlreadyBlocked
    | AlreadyConnected
    | AlreadyMember
    | AlreadyResponded
    | AlreadyVouched
    | ChatNotFound
    | ConnectionNotFound
    | ConstraintViolation
    | CannotBlockSelf
    | Forbidden
    | GroupBlocked
    | GroupNotFound
    | GroupNotInProposal
    | InvalidRequest
    | InvitationAlreadyPending
    | InvitationExpired
    | InvitationNotFound
    | InviterLeft
    | LastAdmin
    | LinkExhausted
    | LinkExpired
    | LinkNotFound
    | NoPendingRotation
    | NotConnectionMember
    | NotMember
    | NotTrustedOrAdmin
    | ProposalNotFound
    | ProposalNotPending
    | SelfVouch
    | SignalGroupLimit
    | UserBanned
    | WrongRecipients

  predicate IsLeast(s: set<nat>, x: nat) {
    x in s && forall y :: y in s ==> x <= y
  }

  function Least(s: set<nat>): (least: nat)
    requires s != {}
    ensures IsLeast(s, least)
  {
    LeastExists(s);
    var least :| IsLeast(s, least);
    least
  }

  lemma {:induction false} LeastExists(s: set<nat>)
    requires s != {}
    ensures exists x :: IsLeast(s, x)
  {
    var x :| x in s;
    var rest := s - {x};
    assert forall y :: y in s ==> y == x || y in rest;
    if rest == {} {
      assert IsLeast(s, x);
    } else {
      LeastExists(rest);
      var m :| IsLeast(rest, m);
      assert IsLeast(s, if m < x then m else x);
    }
  }

  /** The elements of `s` in ascending order: the order in which rows come back. */
  function RowOrder(s: set<nat>): seq<nat> {
    if s == {} then [] else [Least(s)] + RowOrder(s - {Least(s)})
  }

  lemma {:induction false} RowOrderLists(s: set<nat>)
    ensures |RowOrder(s)| == |s|
    ensures forall x :: x in RowOrder(s) <==> x in s
    ensures forall i, j :: 0 <= i < j < |RowOrder(s)| ==> RowOrder(s)[i] < RowOrder(s)[j]
  {
    if s != {} {
      var least, rest := Least(s), RowOrder(s - {Least(s)});
      RowOrderLists(s - {least});
      assert RowOrder(s) == [least] + rest;
      forall i, j | 0 <= i < j < |RowOrder(s)|
        ensures RowOrder(s)[i] < RowOrder(s)[j]
      {
        assert RowOrder(s)[j] == rest[j - 1] && rest[j - 1] in s - {least};
        if i > 0 {
          assert RowOrder(s)[i] == rest[i - 1];
        }
      }
    }
  }

  lemma {:induction false} SubsetSize<T>(small: set<T>, big: set<T>)
    requires small <= big
    ensures |small| <= |big|
    ensures |small| == |big| ==> small == big
  {
    if small != {} {
      var x :| x in small;
      SubsetSize(small - {x}, big - {x});
    }
  }
}
