/**
 * The entities the dashboard works on (a transport request, a document, an activity-log entry, a user)
 * and the one update every request list undergoes: setting the status of the requests with a given id.
 */
module Domain {
  import opened Wrappers

  /** The lifecycle of a request, in lifecycle order. Nothing enforces the order when a status is set. */
  datatype Status = NotStarted | Loading | InTransit | Unloading | Completed

  /** The string the source stores for a status; never the filter wildcard "all". */
  function StatusName(s: Status): (r: string)
    ensures r != "all"
  {
    match s
    case NotStarted => "not_started"
    case Loading => "loading"
    case InTransit => "in_transit"
    case Unloading => "unloading"
    case Completed => "completed"
  }

  /** Position of a status in the lifecycle, from 0 (not started) to 4 (completed). */
  function Rank(s: Status): (r: nat)
    ensures r < 5
  {
    match s
    case NotStarted => 0
    case Loading => 1
    case InTransit => 2
    case Unloading => 3
    case Completed => 4
  }

  /** Different statuses have different names and different lifecycle positions. */
  lemma StatusNamesDistinct(a: Status, b: Status)
    ensures StatusName(a) == StatusName(b) ==> a == b
    ensures Rank(a) == Rank(b) ==> a == b
  {
  }

  datatype Role = ChiefLogistician | Logistician

  /** A signed-in user as the application holds it: no password. */
  datatype User = User(id: string, name: string, role: Role, email: string)

  /** The issuer name that the dashboard, the request card and the activity log compare with literally. */
  const CurrentUserLiteral: string := "Current User"

  datatype Route = Route(from: string, to: string, waypoints: Option<seq<string>>)
  datatype Dates = Dates(loading: string, unloading: string)
  datatype Driver = Driver(name: string, iin: string)
  datatype Vehicle = Vehicle(stateNumber: string, kind: string, hasTractor: bool, hasTrailer: bool)
  datatype Cargo = Cargo(name: string, weight: int, palletCount: int, temperatureMode: Option<string>)
  /** Amounts in whole tenge. */
  datatype Payment = Payment(costToDriver: int, priceFromCustomer: int, advance: int, totalMargin: int)

  /** The optional document file names of a request; `None` is a key the object does not have. */
  datatype RequestDocuments = RequestDocuments(ttn: Option<string>, cmr: Option<string>, smr: Option<string>)
  datatype DocKind = Ttn | Cmr | Smr

  /** The file name stored under a key, if the key is present. */
  function DocumentFile(docs: RequestDocuments, k: DocKind): Option<string>
  {
    match k
    case Ttn => docs.ttn
    case Cmr => docs.cmr
    case Smr => docs.smr
  }

  /** JavaScript truthiness of an optional string: present and not empty. */
  predicate Filled(o: Option<string>)
  {
    o.Some? && o.value != ""
  }

  datatype Request = Request(
    id: string,
    status: Status,
    route: Route,
    dates: Dates,
    driver: Driver,
    vehicle: Vehicle,
    cargo: Cargo,
    payment: Payment,
    documents: RequestDocuments,
    issuedBy: string,
    createdAt: string,
    updatedAt: string)

  datatype DocType = TtnDoc | CmrDoc | Invoice | Contract | OtherDoc
  datatype DocStatus = Pending | Approved | Rejected

  function DocTypeName(t: DocType): (r: string)
    ensures r != "all"
  {
    match t
    case TtnDoc => "ttn"
    case CmrDoc => "cmr"
    case Invoice => "invoice"
    case Contract => "contract"
    case OtherDoc => "other"
  }

  function DocStatusName(s: DocStatus): (r: string)
    ensures r != "all"
  {
    match s
    case Pending => "pending"
    case Approved => "approved"
    case Rejected => "rejected"
  }

  lemma DocNamesDistinct(a: DocType, b: DocType, s: DocStatus, u: DocStatus)
    ensures DocTypeName(a) == DocTypeName(b) ==> a == b
    ensures DocStatusName(s) == DocStatusName(u) ==> s == u
  {
  }

  datatype Document = Document(
    id: string,
    name: string,
    kind: DocType,
    status: DocStatus,
    requestId: string,
    driverName: Option<string>,
    keywords: seq<string>,
    uploadedAt: string,
    uploadedBy: string,
    fileUrl: string,
    fileSize: nat)

  /** An activity-log entry; `action` is kept as the string the entry carries, so unknown actions can be looked up. */
  datatype ActivityEntry = ActivityEntry(
    id: string,
    userId: string,
    userName: string,
    action: string,
    description: string,
    requestId: Option<string>,
    timestamp: string)

  /**
   * `prev.map((req) => (req.id === requestId ? { ...req, status: newStatus } : req))`: every request whose id
   * is `id` gets status `st`, whatever its status was; nothing else about any request changes.
   */
  function SetStatus(rs: seq<Request>, id: string, st: Status): (r: seq<Request>)
    ensures |r| == |rs|
    ensures forall i :: 0 <= i < |rs| ==> r[i] == rs[i].(status := r[i].status)
    ensures forall i :: 0 <= i < |rs| ==> r[i].status == if rs[i].id == id then st else rs[i].status
    decreases |rs|
  {
    if rs == [] then []
    else [if rs[0].id == id then rs[0].(status := st) else rs[0]] + SetStatus(rs[1..], id, st)
  }

  /** An id no request has leaves the list as it was. */
  lemma SetStatusUnknownId(rs: seq<Request>, id: string, st: Status)
    requires forall i :: 0 <= i < |rs| ==> rs[i].id != id
    ensures SetStatus(rs, id, st) == rs
  {
  }

  /** Setting the status the matching requests already have leaves the list as it was. */
  lemma SetStatusToCurrent(rs: seq<Request>, id: string, st: Status)
    requires forall i :: 0 <= i < |rs| && rs[i].id == id ==> rs[i].status == st
    ensures SetStatus(rs, id, st) == rs
  {
  }

  /** Of two status updates of the same id, the later one wins; so an update repeated is the update once. */
  lemma SetStatusLastWins(rs: seq<Request>, id: string, a: Status, b: Status)
    ensures SetStatus(SetStatus(rs, id, a), id, b) == SetStatus(rs, id, b)
  {
  }

  /** Updates of two different ids do not interfere: they may be applied in either order. */
  lemma SetStatusCommutes(rs: seq<Request>, id1: string, a: Status, id2: string, b: Status)
    requires id1 != id2
    ensures SetStatus(SetStatus(rs, id1, a), id2, b) == SetStatus(SetStatus(rs, id2, b), id1, a)
  {
  }
}
