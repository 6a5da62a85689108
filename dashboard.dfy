/**
 * The dashboard: counters over the whole request list, the requests a role may see, the search and
 * filters applied to them, and the status update on the dashboard's own copy of the request list.
 */
module Dashboard {
  import opened Wrappers
  import opened Seqs
  import opened Text
  import opened Domain

  predicate IsNotStarted(r: Request) { r.status == NotStarted }
  predicate IsInProgress(r: Request) { r.status == Loading || r.status == InTransit }
  predicate IsCompleted(r: Request) { r.status == Completed }
  predicate IsUnloading(r: Request) { r.status == Unloading }

  datatype Stats = Stats(total: nat, notStarted: nat, inProgress: nat, completed: nat)

  /** Every request is counted in exactly one of the four groups. */
  lemma {:induction false} StatusPartition(rs: seq<Request>)
    ensures |Filter(IsNotStarted, rs)| + |Filter(IsInProgress, rs)| + |Filter(IsCompleted, rs)|
            + |Filter(IsUnloading, rs)| == |rs|
    decreases |rs|
  {
    if rs != [] {
      StatusPartition(rs[1..]);
    }
  }

  /** Each counter's filter keeps one request per position holding the counter's statuses. */
  lemma StatusCounts(rs: seq<Request>)
    ensures |Filter(IsNotStarted, rs)| == |set i | 0 <= i < |rs| && rs[i].status == NotStarted|
    ensures |Filter(IsInProgress, rs)| == |set i | 0 <= i < |rs| && (rs[i].status == Loading || rs[i].status == InTransit)|
    ensures |Filter(IsCompleted, rs)| == |set i | 0 <= i < |rs| && rs[i].status == Completed|
  {
    FilterLengthCountsPositions(IsNotStarted, rs);
    assert (set i | 0 <= i < |rs| && rs[i].status == NotStarted) == Positions(IsNotStarted, rs);
    FilterLengthCountsPositions(IsInProgress, rs);
    assert (set i | 0 <= i < |rs| && (rs[i].status == Loading || rs[i].status == InTransit))
      == Positions(IsInProgress, rs);
    FilterLengthCountsPositions(IsCompleted, rs);
    assert (set i | 0 <= i < |rs| && rs[i].status == Completed) == Positions(IsCompleted, rs);
  }

  /**
   * `stats`: counted over all requests, whatever the role and the filters. "In progress" is loading or
   * in transit only, so the three status counters fall short of the total by the number of requests unloading.
   */
  function ComputeStats(rs: seq<Request>): (s: Stats)
    ensures s.total == |rs|
    ensures s.notStarted == |set i | 0 <= i < |rs| && rs[i].status == NotStarted|
    ensures s.inProgress == |set i | 0 <= i < |rs| && (rs[i].status == Loading || rs[i].status == InTransit)|
    ensures s.completed == |set i | 0 <= i < |rs| && rs[i].status == Completed|
    ensures s.notStarted + s.inProgress + s.completed + |Filter(IsUnloading, rs)| == s.total
    ensures s.notStarted + s.inProgress + s.completed <= s.total
  {
    StatusPartition(rs);
    StatusCounts(rs);
    Stats(|rs|, |Filter(IsNotStarted, rs)|, |Filter(IsInProgress, rs)|, |Filter(IsCompleted, rs)|)
  }

  /** A logistician's request: issued by, or driven by someone whose name contains, the literal "Current User". */
  predicate OwnedByCurrentUser(r: Request)
  {
    r.issuedBy == CurrentUserLiteral || Contains(r.driver.name, CurrentUserLiteral)
  }

  /** The requests a role may see on the dashboard. */
  predicate VisibleTo(role: Role, r: Request)
  {
    role == ChiefLogistician || OwnedByCurrentUser(r)
  }

  /** `userRequests`: the chief sees the whole list; a logistician the requests owned by "Current User", in order. */
  function UserRequests(role: Role, rs: seq<Request>): (r: seq<Request>)
    ensures role == ChiefLogistician ==> r == rs
    ensures role == Logistician ==> forall i :: 0 <= i < |r| ==> OwnedByCurrentUser(r[i])
    ensures role == Logistician ==> forall i :: 0 <= i < |rs| && OwnedByCurrentUser(rs[i]) ==> rs[i] in r
    ensures forall i :: 0 <= i < |r| ==> r[i] in rs
    ensures IsSubsequence(r, rs)
  {
    SubsequenceReflexive(rs);
    if role == ChiefLogistician then rs else Filter(OwnedByCurrentUser, rs)
  }

  /** The search box: the lower-cased term occurs in the lower-cased cargo name, driver name, origin or destination. */
  predicate MatchesSearch(r: Request, searchTerm: string)
  {
    var t := Lower(searchTerm);
    Contains(Lower(r.cargo.name), t) || Contains(Lower(r.driver.name), t)
    || Contains(Lower(r.route.from), t) || Contains(Lower(r.route.to), t)
  }

  /** The status select: "all", or the request's status name. */
  predicate MatchesStatus(r: Request, statusFilter: string)
  {
    statusFilter == "all" || StatusName(r.status) == statusFilter
  }

  /** The logistician select: "all", or the request's issuer. */
  predicate MatchesIssuer(r: Request, logisticianFilter: string)
  {
    logisticianFilter == "all" || r.issuedBy == logisticianFilter
  }

  predicate MatchesFilters(r: Request, searchTerm: string, statusFilter: string, logisticianFilter: string)
  {
    MatchesSearch(r, searchTerm) && MatchesStatus(r, statusFilter) && MatchesIssuer(r, logisticianFilter)
  }

  /** `filteredRequests`: the requests that match the search AND the status AND the issuer, in their order. */
  function FilteredRequests(rs: seq<Request>, searchTerm: string, statusFilter: string, logisticianFilter: string)
    : (r: seq<Request>)
    ensures forall i :: 0 <= i < |r| ==> r[i] in rs && MatchesFilters(r[i], searchTerm, statusFilter, logisticianFilter)
    ensures forall i :: 0 <= i < |rs| && MatchesFilters(rs[i], searchTerm, statusFilter, logisticianFilter) ==> rs[i] in r
    ensures IsSubsequence(r, rs)
  {
    Filter(x => MatchesFilters(x, searchTerm, statusFilter, logisticianFilter), rs)
  }

  /** The search is a case-insensitive substring test over the four fields. */
  lemma SearchOccurs(r: Request, searchTerm: string)
    ensures MatchesSearch(r, searchTerm) <==>
      var t := Lower(searchTerm);
      (exists i :: OccursAt(Lower(r.cargo.name), t, i)) || (exists i :: OccursAt(Lower(r.driver.name), t, i))
      || (exists i :: OccursAt(Lower(r.route.from), t, i)) || (exists i :: OccursAt(Lower(r.route.to), t, i))
  {
    var t := Lower(searchTerm);
    ContainsIffOccurs(Lower(r.cargo.name), t);
    ContainsIffOccurs(Lower(r.driver.name), t);
    ContainsIffOccurs(Lower(r.route.from), t);
    ContainsIffOccurs(Lower(r.route.to), t);
  }

  /** The search ignores case: a term matches exactly when its lower-cased form does. */
  lemma SearchIgnoresCase(r: Request, searchTerm: string)
    ensures MatchesSearch(r, searchTerm) <==> MatchesSearch(r, Lower(searchTerm))
  {
    LowerIdempotent(searchTerm);
  }

  /** A status filter other than "all" keeps exactly the requests with that status. */
  lemma StatusFilterExact(r: Request, st: Status)
    ensures MatchesStatus(r, StatusName(st)) <==> r.status == st
  {
    StatusNamesDistinct(r.status, st);
  }

  /** With an empty search and both selects at "all" the filter keeps every request. */
  lemma NoFilterIsIdentity(rs: seq<Request>)
    ensures FilteredRequests(rs, "", "all", "all") == rs
  {
    FilterKeepsAll(x => MatchesFilters(x, "", "all", "all"), rs);
  }

  /** The list shown: a request appears iff the role may see it and it passes the three filters. */
  function ShownRequests(role: Role, rs: seq<Request>, searchTerm: string, statusFilter: string, logisticianFilter: string)
    : (r: seq<Request>)
    ensures forall i :: 0 <= i < |r| ==>
      r[i] in rs && VisibleTo(role, r[i]) && MatchesFilters(r[i], searchTerm, statusFilter, logisticianFilter)
    ensures forall i :: 0 <= i < |rs| ==>
      (VisibleTo(role, rs[i]) && MatchesFilters(rs[i], searchTerm, statusFilter, logisticianFilter) ==> rs[i] in r)
  {
    FilteredRequests(UserRequests(role, rs), searchTerm, statusFilter, logisticianFilter)
  }

  /** The dashboard component's own state; the request list here is independent of the application page's. */
  class DashboardState {
    const userRole: Role
    /** Passed in by the page, never read. */
    const currentUserId: string
    var requests: seq<Request>
    var searchTerm: string
    var statusFilter: string
    var logisticianFilter: string

    /** The issuer select is rendered for the chief only, so a logistician's issuer filter stays "all". */
    ghost predicate Valid()
      reads this
    {
      userRole == Logistician ==> logisticianFilter == "all"
    }

    constructor(userRole: Role, currentUserId: string, initial: seq<Request>)
      ensures Valid()
      ensures this.userRole == userRole && this.currentUserId == currentUserId
      ensures requests == initial && searchTerm == "" && statusFilter == "all" && logisticianFilter == "all"
      ensures Shown() == UserRequests(userRole, initial)
    {
      this.userRole := userRole;
      this.currentUserId := currentUserId;
      requests := initial;
      searchTerm := "";
      statusFilter := "all";
      logisticianFilter := "all";
      new;
      NoFilterIsIdentity(UserRequests(userRole, initial));
    }

    /**
     * The requests rendered as cards. In a valid state a logistician's list is decided by ownership, the
     * search and the status alone: the issuer filter they are never offered keeps everything.
     */
    function Shown(): (r: seq<Request>)
      reads this
      ensures forall i :: 0 <= i < |r| ==> r[i] in requests
      ensures Valid() && userRole == Logistician ==> forall i :: 0 <= i < |requests| ==>
        ((OwnedByCurrentUser(requests[i]) && MatchesSearch(requests[i], searchTerm)
          && MatchesStatus(requests[i], statusFilter)) ==> requests[i] in r)
      ensures userRole == Logistician ==> forall i :: 0 <= i < |r| ==>
        OwnedByCurrentUser(r[i]) && MatchesSearch(r[i], searchTerm) && MatchesStatus(r[i], statusFilter)
    {
      ShownRequests(userRole, requests, searchTerm, statusFilter, logisticianFilter)
    }

    function CurrentStats(): Stats
      reads this
    {
      ComputeStats(requests)
    }

    /** `updateRequestStatus`: the matching requests get the new status; the filters are untouched. */
    method UpdateRequestStatus(requestId: string, newStatus: Status)
      requires Valid()
      modifies this`requests
      ensures Valid()
      ensures requests == SetStatus(old(requests), requestId, newStatus)
      ensures CurrentStats().total == old(CurrentStats().total)
    {
      requests := SetStatus(requests, requestId, newStatus);
    }

    method SetSearchTerm(term: string)
      requires Valid()
      modifies this`searchTerm
      ensures Valid() && searchTerm == term
    {
      searchTerm := term;
    }

    method SetStatusFilter(value: string)
      requires Valid()
      modifies this`statusFilter
      ensures Valid() && statusFilter == value
    {
      statusFilter := value;
    }

    /** Only the chief is offered the issuer select. */
    method SetLogisticianFilter(value: string)
      requires Valid() && userRole == ChiefLogistician
      modifies this`logisticianFilter
      ensures Valid() && logisticianFilter == value
    {
      logisticianFilter := value;
    }
  }
}
