/** The admin's card for one order: the status buttons it offers and what a
    click on one of them does. */
module OrderCard {
  import opened Orders

  /** The statuses a card offers to move to, in button order. */
  function Transitions(s: Status): seq<Status> {
    match s
    case New => [Confirmed, Canceled]
    case Confirmed => [Delivered, Canceled]
    case Delivered => []
    case Canceled => []
  }

  /** How far along its life an order is; the two terminal statuses share
      the last step. */
  function Stage(s: Status): nat {
    match s
    case New => 0
    case Confirmed => 1
    case Delivered => 2
    case Canceled => 2
  }

  predicate Terminal(s: Status) { s == Delivered || s == Canceled }

  /** `getStatusButtons`: nothing for a canceled order, otherwise the buttons
      pushed by the branch for the current status. */
  method StatusButtons(current: Status) returns (buttons: seq<Status>)
    ensures buttons == Transitions(current)
  {
    buttons := [];
    if current == Canceled {
      return;
    }
    if current == New {
      buttons := buttons + [Confirmed];
      buttons := buttons + [Canceled];
    }
    if current == Confirmed {
      buttons := buttons + [Delivered];
      buttons := buttons + [Canceled];
    }
  }

  /** Terminal statuses offer nothing; every other status offers to
      cancel. */
  lemma TerminalIffNoButtons(s: Status)
    ensures Terminal(s) <==> Transitions(s) == []
    ensures !Terminal(s) <==> Canceled in Transitions(s)
  {
  }

  /** Every offered move goes strictly forward, so no order returns to
      `new`, the current status is never offered, and at most two clicks
      reach a terminal status. */
  lemma {:induction false} TransitionsMoveForward(s: Status, t: Status)
    requires t in Transitions(s)
    ensures Stage(s) < Stage(t)
    ensures t != New && t != s
  {
    match s
    case New => assert t == Confirmed || t == Canceled;
    case Confirmed => assert t == Delivered || t == Canceled;
  }

  /** Any sequence of offered moves is at most two long. */
  predicate OfferedPath(s: Status, path: seq<Status>)
    decreases |path|
  {
    |path| == 0 || (path[0] in Transitions(s) && OfferedPath(path[0], path[1..]))
  }

  lemma {:induction false} OfferedPathsAreShort(s: Status, path: seq<Status>)
    requires OfferedPath(s, path)
    ensures |path| + Stage(s) <= 2
    ensures |path| > 0 ==> Terminal(path[|path| - 1]) || Stage(path[|path| - 1]) == 1
    decreases |path|
  {
    if |path| > 0 {
      TransitionsMoveForward(s, path[0]);
      OfferedPathsAreShort(path[0], path[1..]);
      if |path| > 1 {
        assert path[1..][|path[1..]| - 1] == path[|path| - 1];
      }
    }
  }

  class Card {
    const orderId: string
    var currentStatus: Status
    var loading: bool

    constructor (id: string, status: Status)
      ensures orderId == id && currentStatus == status && !loading
    {
      orderId := id;
      currentStatus := status;
      loading := false;
    }

    /** `handleStatusChange`: picking the current status, or declining the
        cancel confirmation, does nothing; otherwise the update is requested
        (`requested`), the shown status follows it only when the update
        succeeds, and `loading` is off again afterwards. `confirmed` is the
        answer to the confirmation dialog, `updateOk` whether the update
        callback resolved. */
    method HandleStatusChange(newStatus: Status, confirmed: bool, updateOk: bool) returns (requested: bool)
      modifies this
      ensures requested <==> newStatus != old(currentStatus) && (newStatus == Canceled ==> confirmed)
      ensures !requested ==> currentStatus == old(currentStatus) && loading == old(loading)
      ensures requested ==> !loading
      ensures requested ==> currentStatus == if updateOk then newStatus else old(currentStatus)
    {
      requested := false;
      if newStatus == currentStatus {
        return;
      }
      if newStatus == Canceled {
        if !confirmed {
          return;
        }
      }
      loading := true;
      requested := true;
      if updateOk {
        currentStatus := newStatus;
      }
      loading := false;
    }
  }

  /** A click on an offered button that the server accepts moves the card
      strictly forward. */
  method ClickOffered(card: Card, i: nat, confirmed: bool) returns (requested: bool)
    requires i < |Transitions(card.currentStatus)|
    requires Transitions(card.currentStatus)[i] == Canceled ==> confirmed
    modifies card
    ensures requested
    ensures Stage(old(card.currentStatus)) < Stage(card.currentStatus)
  {
    var before := card.currentStatus;
    var next := Transitions(before)[i];
    TransitionsMoveForward(before, next);
    requested := card.HandleStatusChange(next, confirmed, true);
  }
}
