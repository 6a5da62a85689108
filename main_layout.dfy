/** The page frame: the navigation tabs a role gets, and the header's role caption and avatar initials. */
module MainLayout {
  import opened Text
  import opened Domain

  datatype Tab = Tab(id: string, caption: string)

  /** The tabs everyone gets, in display order. */
  const CommonTabs: seq<Tab> := [
    Tab("dashboard", "Панель управления"),
    Tab("create-request", "Создать заявку"),
    Tab("documents", "Документы"),
    Tab("activity", "Активность")
  ]

  const UsersTab: Tab := Tab("users", "Пользователи")

  /** The four common tabs, followed by the users tab for the chief only. */
  function Tabs(role: Role): (tabs: seq<Tab>)
    ensures |tabs| == if role == ChiefLogistician then 5 else 4
    ensures tabs[..4] == CommonTabs
    ensures UsersTab in tabs <==> role == ChiefLogistician
    ensures role == ChiefLogistician ==> tabs[4] == UsersTab
  {
    CommonTabs + (if role == ChiefLogistician then [UsersTab] else [])
  }

  /** No two tabs share an id, so the active tab highlights exactly one button. */
  lemma TabIdsDistinct(role: Role)
    ensures forall i, j :: 0 <= i < j < |Tabs(role)| ==> Tabs(role)[i].id != Tabs(role)[j].id
  {
    var tabs := Tabs(role);
    assert tabs[0].id == "dashboard" && tabs[1].id == "create-request";
    assert tabs[2].id == "documents" && tabs[3].id == "activity";
  }

  /** The caption under the user's name. */
  function RoleCaption(role: Role): (caption: string)
    ensures caption == "Главный логист" <==> role == ChiefLogistician
    ensures caption == "Логист" <==> role == Logistician
  {
    match role
    case ChiefLogistician => "Главный логист"
    case Logistician => "Логист"
  }

  /**
   * The avatar fallback, `name.split(" ").map((n) => n[0]).join("")`: the first character of every word.
   * Runs of spaces yield empty pieces, whose missing first character joins as nothing.
   */
  function Initials(name: string): (r: string)
    ensures r == WordStarts(name, true)
    ensures |r| <= |name| && ' ' !in r
  {
    HeadsOfSplit(name);
    Heads(Split(name))
  }

  /** Two words give two initials, whatever spacing surrounds them. */
  lemma InitialsOfTwoWords(first: string, last: string)
    requires |first| > 0 && |last| > 0 && ' ' !in first && ' ' !in last
    ensures Initials(first + " " + last) == [first[0], last[0]]
  {
    NoWordStartsInside(first[1..]);
    NoWordStartsInside(last[1..]);
    var s := first + " " + last;
    var tail := " " + last;
    assert s == [first[0]] + (first[1..] + tail);
    assert s[1..] == first[1..] + tail;
    assert WordStarts(s, true) == [first[0]] + WordStarts(first[1..] + tail, false);
    WordStartsConcat(first[1..], tail, false);
    assert tail[1..] == last;
    assert WordStarts(tail, false) == WordStarts(last, true);
    assert WordStarts(last, true) == [last[0]] + WordStarts(last[1..], false);
  }

  /** Inside a word, after its first character, nothing begins a word. */
  lemma {:induction false} NoWordStartsInside(s: string)
    requires ' ' !in s
    ensures WordStarts(s, false) == ""
    decreases |s|
  {
    if |s| > 0 {
      NoWordStartsInside(s[1..]);
    }
  }

  /** The word starts of a concatenation: the second part starts fresh exactly when the first ends in a space. */
  lemma {:induction false} WordStartsConcat(a: string, b: string, atStart: bool)
    ensures WordStarts(a + b, atStart) == WordStarts(a, atStart) + WordStarts(b, if |a| == 0 then atStart else a[|a| - 1] == ' ')
    decreases |a|
  {
    if |a| > 0 {
      assert (a + b)[1..] == a[1..] + b;
      WordStartsConcat(a[1..], b, a[0] == ' ');
    } else {
      assert a + b == b;
    }
  }
}
