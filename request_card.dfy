/** One request on the dashboard: who may change its status, the status selector, and its badges. */
module RequestCard {
  import opened Wrappers
  import opened Domain

  /** `canEdit` on the card: the chief, or a logistician when the request's issuer is literally "Current User". */
  function CanEdit(role: Role, r: Request): (ok: bool)
    ensures role == ChiefLogistician ==> ok
    ensures role == Logistician ==> (ok <==> r.issuedBy == CurrentUserLiteral)
  {
    role == ChiefLogistician || r.issuedBy == CurrentUserLiteral
  }

  /** The options of the status selector. */
  const StatusOptions: seq<Status> := [NotStarted, Loading, InTransit, Unloading, Completed]

  /** The selector offers every status exactly once, in lifecycle order. */
  lemma StatusOptionsInLifecycleOrder()
    ensures |StatusOptions| == 5
    ensures forall st: Status :: st in StatusOptions
    ensures forall i :: 0 <= i < |StatusOptions| ==> Rank(StatusOptions[i]) == i
    ensures forall i, j :: 0 <= i < j < |StatusOptions| ==> StatusOptions[i] != StatusOptions[j]
  {
    forall st: Status ensures st in StatusOptions {
      assert StatusOptions[Rank(st)] == st;
    }
  }

  /** The status selector is rendered, with its options, only when the card may be edited. */
  function StatusSelector(role: Role, r: Request): (options: Option<seq<Status>>)
    ensures options.Some? <==> CanEdit(role, r)
    ensures options.Some? ==> options.value == StatusOptions
  {
    if CanEdit(role, r) then Some(StatusOptions) else None
  }

  /** The call `onStatusUpdate(request.id, value)` the selector makes. */
  datatype StatusUpdate = StatusUpdate(requestId: string, status: Status)

  function OnStatusChosen(r: Request, chosen: Status): (u: StatusUpdate)
    ensures u.requestId == r.id && u.status == chosen
  {
    StatusUpdate(r.id, chosen)
  }

  /**
   * Applied to a list holding the card's request, the call the selector makes gives that request the
   * chosen status, whatever status it had before; every other field of it stays.
   */
  lemma ChosenStatusApplies(rs: seq<Request>, i: int, chosen: Status)
    requires 0 <= i < |rs|
    ensures var u := OnStatusChosen(rs[i], chosen);
            SetStatus(rs, u.requestId, u.status)[i] == rs[i].(status := chosen)
  {
    var u := OnStatusChosen(rs[i], chosen);
    var after := SetStatus(rs, u.requestId, u.status);
    assert after[i] == rs[i].(status := after[i].status);
  }

  /** The "+n точек" badge: the number of waypoints, shown only when there are some. */
  function WaypointBadge(r: Request): (badge: Option<nat>)
    ensures badge.Some? <==> r.route.waypoints.Some? && |r.route.waypoints.value| > 0
    ensures badge.Some? ==> badge.value == |r.route.waypoints.value|
  {
    match r.route.waypoints
    case Some(w) => if |w| > 0 then Some(|w|) else None
    case None => None
  }

  /** The document badges: ТТН when a TTN file name is set, then CMR when a CMR file name is set; never SMR. */
  function DocumentBadges(r: Request): (badges: seq<DocKind>)
    ensures Ttn in badges <==> Filled(r.documents.ttn)
    ensures Cmr in badges <==> Filled(r.documents.cmr)
    ensures Smr !in badges
    ensures forall i, j :: 0 <= i < j < |badges| ==> badges[i] == Ttn && badges[j] == Cmr
  {
    (if Filled(r.documents.ttn) then [Ttn] else []) + (if Filled(r.documents.cmr) then [Cmr] else [])
  }
}
