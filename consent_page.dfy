/**
 * The patient's consent notifications (src/assets/pages/Consent.jsx).
 *
 * The `notifications` state is a field of class `ConsentPage`; `handleAction` replaces it
 * with the pure update `ApplyAction`.
 */
module ConsentPage {

  datatype Notification = Notification(id: int, title: string, kind: string, status: string, timestamp: string)

  /** `initialNotifications`. */
  function InitialNotifications(): (ns: seq<Notification>)
    ensures |ns| == 3 && ns[0].id == 1 && ns[1].id == 2 && ns[2].id == 3
    ensures ns[0].status == "Pending" && ns[1].status == "Approved" && ns[2].status == "Pending"
  {
    [ Notification(1, "Dr. Alice Sharma requests access", "Lab Reports", "Pending", "2025-10-12 10:30"),
      Notification(2, "AI Analysis consent recorded", "AI Analysis", "Approved", "2025-10-11 15:20"),
      Notification(3, "Dr. Rajesh Kumar requests access", "X-ray Scans", "Pending", "2025-10-12 09:50") ]
  }

  /** `action === "approve" ? "Approved" : "Declined"`. */
  function ActionStatus(action: string): (s: string)
    ensures s == "Approved" <==> action == "approve"
    ensures s != "Approved" ==> s == "Declined"
  {
    if action == "approve" then "Approved" else "Declined"
  }

  /** The updater passed to `setNotifications`. */
  function ApplyAction(ns: seq<Notification>, id: int, action: string): (r: seq<Notification>)
    ensures |r| == |ns|
    ensures forall k :: 0 <= k < |ns| ==>
      r[k] == if ns[k].id == id then ns[k].(status := ActionStatus(action)) else ns[k]
  {
    seq(|ns|, k requires 0 <= k < |ns| =>
      if ns[k].id == id then ns[k].(status := ActionStatus(action)) else ns[k])
  }

  /** Only notifications with the given id change, and only in their status. */
  lemma OnlyThatIdChanges(ns: seq<Notification>, id: int, action: string, k: nat)
    requires k < |ns|
    ensures var r := ApplyAction(ns, id, action);
      r[k].id == ns[k].id && r[k].title == ns[k].title && r[k].kind == ns[k].kind &&
      r[k].timestamp == ns[k].timestamp && (ns[k].id != id ==> r[k] == ns[k])
  {
  }

  /** An id that no notification has changes nothing. */
  lemma UnknownIdChangesNothing(ns: seq<Notification>, id: int, action: string)
    requires forall k :: 0 <= k < |ns| ==> ns[k].id != id
    ensures ApplyAction(ns, id, action) == ns
  {
  }

  /** Repeating an action on the same id changes nothing more. */
  lemma ActionIsIdempotent(ns: seq<Notification>, id: int, action: string)
    ensures ApplyAction(ApplyAction(ns, id, action), id, action) == ApplyAction(ns, id, action)
  {
  }

  /** A later action on the same id wins. */
  lemma LastActionWins(ns: seq<Notification>, id: int, first: string, second: string)
    ensures ApplyAction(ApplyAction(ns, id, first), id, second) == ApplyAction(ns, id, second)
  {
  }

  /** The Approve and Decline buttons. */
  predicate ShowsControls(n: Notification) {
    n.status == "Pending"
  }

  /** Once acted on, a notification shows no controls any more. */
  lemma ActedOnShowsNoControls(ns: seq<Notification>, id: int, action: string, k: nat)
    requires k < |ns| && ns[k].id == id
    ensures !ShowsControls(ApplyAction(ns, id, action)[k])
  {
  }

  class ConsentPage {
    var notifications: seq<Notification>

    constructor ()
      ensures notifications == InitialNotifications()
    {
      notifications := InitialNotifications();
    }

    /** `handleAction`. */
    method HandleAction(id: int, action: string)
      modifies this
      ensures notifications == ApplyAction(old(notifications), id, action)
    {
      notifications := ApplyAction(notifications, id, action);
    }
  }
}
