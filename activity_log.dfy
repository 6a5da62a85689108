/** The activity log: the entries a role may see, the user and action selects, and the per-action lookups. */
module ActivityLog {
  import opened Seqs
  import opened Domain

  predicate ByCurrentUser(e: ActivityEntry) { e.userName == CurrentUserLiteral }

  /** `userActivities`: the chief sees every entry; anyone else the entries whose user name is literally "Current User". */
  function UserActivities(role: Role, entries: seq<ActivityEntry>): (r: seq<ActivityEntry>)
    ensures role == ChiefLogistician ==> r == entries
    ensures role != ChiefLogistician ==> forall i :: 0 <= i < |r| ==> r[i].userName == CurrentUserLiteral
    ensures role != ChiefLogistician ==> forall i :: 0 <= i < |entries| && ByCurrentUser(entries[i]) ==> entries[i] in r
    ensures IsSubsequence(r, entries)
  {
    SubsequenceReflexive(entries);
    if role == ChiefLogistician then entries else Filter(ByCurrentUser, entries)
  }

  predicate MatchesFilters(e: ActivityEntry, userFilter: string, actionFilter: string)
  {
    (userFilter == "all" || e.userId == userFilter) && (actionFilter == "all" || e.action == actionFilter)
  }

  /** `filteredActivities`: the entries whose user id and action pass the two selects, in their order. */
  function FilteredActivities(entries: seq<ActivityEntry>, userFilter: string, actionFilter: string)
    : (r: seq<ActivityEntry>)
    ensures forall i :: 0 <= i < |r| ==> r[i] in entries && MatchesFilters(r[i], userFilter, actionFilter)
    ensures forall i :: 0 <= i < |entries| && MatchesFilters(entries[i], userFilter, actionFilter) ==> entries[i] in r
    ensures IsSubsequence(r, entries)
  {
    Filter(e => MatchesFilters(e, userFilter, actionFilter), entries)
  }

  /**
   * With both selects at their initial "all" the log shows the role's entries unchanged. A non-chief is
   * never shown the selects, so this is all a logistician ever sees.
   */
  lemma DefaultFiltersShowScope(role: Role, entries: seq<ActivityEntry>)
    ensures FilteredActivities(UserActivities(role, entries), "all", "all") == UserActivities(role, entries)
  {
    FilterKeepsAll(e => MatchesFilters(e, "all", "all"), UserActivities(role, entries));
  }

  /** A select set to a value no visible entry carries empties the log. */
  lemma UnmatchedUserEmpties(entries: seq<ActivityEntry>, userFilter: string, actionFilter: string)
    requires userFilter != "all"
    requires forall i :: 0 <= i < |entries| ==> entries[i].userId != userFilter
    ensures FilteredActivities(entries, userFilter, actionFilter) == []
  {
    FilterDropsAll(e => MatchesFilters(e, userFilter, actionFilter), entries);
  }

  /** The actions the lookup tables have an entry for. */
  const KnownActions: set<string> :=
    {"create_request", "update_status", "upload_document", "complete_request", "login", "other"}

  datatype Icon = FileTextIcon | TruckIcon | CheckCircleIcon | UserIcon | AlertCircleIcon

  /** `getActionIcon`: the table's icon, or the icon of "other" for an action it does not list. */
  function ActionIcon(action: string): (icon: Icon)
    ensures action !in KnownActions ==> icon == AlertCircleIcon
    ensures icon == AlertCircleIcon <==> action !in KnownActions || action == "other"
  {
    match action
    case "create_request" => FileTextIcon
    case "update_status" => TruckIcon
    case "upload_document" => FileTextIcon
    case "complete_request" => CheckCircleIcon
    case "login" => UserIcon
    case _ => AlertCircleIcon
  }

  /** `getActionLabel`: the table's label, or "Другое действие" for an action it does not list. */
  function ActionLabel(action: string): (caption: string)
    ensures action !in KnownActions ==> caption == "Другое действие"
    ensures caption == "Другое действие" <==> action !in KnownActions || action == "other"
  {
    match action
    case "create_request" => "Создание заявки"
    case "update_status" => "Обновление статуса"
    case "upload_document" => "Загрузка документа"
    case "complete_request" => "Завершение заявки"
    case "login" => "Вход в систему"
    case _ => "Другое действие"
  }

  /** `getActionColor`: the table's classes, or those of "other" (which "login" shares) for an action it does not list. */
  function ActionColor(action: string): (color: string)
    ensures action !in KnownActions ==> color == "bg-gray-100 text-gray-800"
    ensures color == "bg-gray-100 text-gray-800" <==> action !in KnownActions || action == "other" || action == "login"
  {
    match action
    case "create_request" => "bg-blue-100 text-blue-800"
    case "update_status" => "bg-yellow-100 text-yellow-800"
    case "upload_document" => "bg-purple-100 text-purple-800"
    case "complete_request" => "bg-green-100 text-green-800"
    case "login" => "bg-gray-100 text-gray-800"
    case _ => "bg-gray-100 text-gray-800"
  }

  /** The six labels are different, so a label names its action. */
  lemma LabelsDistinct(a: string, b: string)
    requires a in KnownActions && b in KnownActions && a != b
    ensures ActionLabel(a) != ActionLabel(b)
  {
  }
}
