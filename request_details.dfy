/** The details page of one request: edit rights, its document list, its route and its status history. */
module RequestDetails {
  import opened Wrappers
  import opened Seqs
  import opened Domain
  import RequestCard

  /**
   * `canEdit` on the details page: the signed-in chief, or the signed-in user whose name is the request's
   * issuer. With nobody signed in it is false (`undefined` never equals an issuer string).
   */
  function CanEdit(user: Option<User>, r: Request): (ok: bool)
    ensures user.None? ==> !ok
    ensures user.Some? && user.value.role == ChiefLogistician ==> ok
    ensures user.Some? && user.value.role == Logistician ==> (ok <==> r.issuedBy == user.value.name)
  {
    match user
    case None => false
    case Some(u) => u.role == ChiefLogistician || r.issuedBy == u.name
  }

  /**
   * The details page compares the issuer with the signed-in name, the card with the literal "Current User":
   * a logistician who issued a request may edit it here but not from the card.
   */
  lemma CardAndDetailsDiffer(r: Request, u: User)
    requires u.role == Logistician && u.name != CurrentUserLiteral && r.issuedBy == u.name
    ensures CanEdit(Some(u), r)
    ensures !RequestCard.CanEdit(u.role, r)
  {
  }

  /** `Object.entries(request.documents)`: the keys the object has, with their file names. */
  function KeyEntries(docs: RequestDocuments): (es: seq<(DocKind, string)>)
    ensures forall k: DocKind, f :: (k, f) in es <==> DocumentFile(docs, k) == Some(f)
    ensures |es| == 0 <==> docs.ttn.None? && docs.cmr.None? && docs.smr.None?
  {
    (if docs.ttn.Some? then [(Ttn, docs.ttn.value)] else [])
    + (if docs.cmr.Some? then [(Cmr, docs.cmr.value)] else [])
    + (if docs.smr.Some? then [(Smr, docs.smr.value)] else [])
  }

  predicate HasFileName(e: (DocKind, string)) { e.1 != "" }

  /** The documents tab: one entry per key whose file name is not empty, in key order. */
  function ListedDocuments(docs: RequestDocuments): (listed: seq<(DocKind, string)>)
    ensures forall k: DocKind, f :: (k, f) in listed <==> DocumentFile(docs, k) == Some(f) && f != ""
    ensures IsSubsequence(listed, KeyEntries(docs))
  {
    Filter(HasFileName, KeyEntries(docs))
  }

  /** The "Документы не загружены" message: shown only when the object has no keys at all. */
  predicate ShowsEmptyState(docs: RequestDocuments)
  {
    |KeyEntries(docs)| == 0
  }

  /** The empty state implies an empty list; the converse fails for a key whose file name is empty. */
  lemma EmptyStateAndListing(docs: RequestDocuments)
    ensures ShowsEmptyState(docs) <==> docs.ttn.None? && docs.cmr.None? && docs.smr.None?
    ensures ShowsEmptyState(docs) ==> ListedDocuments(docs) == []
    ensures docs == RequestDocuments(Some(""), None, None) ==> ListedDocuments(docs) == [] && !ShowsEmptyState(docs)
  {
    if docs == RequestDocuments(Some(""), None, None) {
      assert KeyEntries(docs) == [(Ttn, "")];
    }
  }

  /** The route tab: the origin, then the waypoints in stored order, then the destination. */
  function RouteStops(route: Route): (stops: seq<string>)
    ensures var w := route.waypoints.GetOr([]);
      |stops| == |w| + 2 && stops[0] == route.from && stops[|stops| - 1] == route.to
      && stops[1..|stops| - 1] == w
  {
    [route.from] + route.waypoints.GetOr([]) + [route.to]
  }

  datatype HistoryEntry = HistoryEntry(status: Status, date: string, user: string)

  /** The history tab: always not started, loading, in transit, all by the issuer, whatever the request's status. */
  function StatusHistory(r: Request): (h: seq<HistoryEntry>)
    ensures |h| == 3
    ensures h[0].status == NotStarted && h[1].status == Loading && h[2].status == InTransit
    ensures h[0].date == r.createdAt
    ensures forall i :: 0 <= i < 3 ==> h[i].user == r.issuedBy
  {
    [
      HistoryEntry(NotStarted, r.createdAt, r.issuedBy),
      HistoryEntry(Loading, "2024-01-15T08:00:00Z", r.issuedBy),
      HistoryEntry(InTransit, "2024-01-15T14:30:00Z", r.issuedBy)
    ]
  }

  /** The history does not follow the request's status. */
  lemma HistoryIgnoresStatus(r: Request, st: Status)
    ensures StatusHistory(r.(status := st)) == StatusHistory(r)
  {
  }
}
