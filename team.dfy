/** The team page: members fetched from the CMS, per-department counts
    written into the department table, and the colour, icon and badge a
    member's designation earns. */
module Team {
  import opened Js
  import opened Text

  datatype Member = Member(id: int, name: string, designation: string)

  /** The keyword groups of a designation, in the order the colour and
      icon chains test them. */
  datatype Group = Leadership | Management | Technical | Research | EventsTeam | Media | General {
    function Keywords(): seq<string> {
      match this
      case Leadership => ["founder", "president"]
      case Management => ["head", "lead"]
      case Technical => ["technical", "developer"]
      case Research => ["research"]
      case EventsTeam => ["events", "coordinator"]
      case Media => ["media", "content"]
      case General => []
    }

    function Color(): string {
      match this
      case Leadership => "from-red-500 to-pink-500"
      case Management => "from-blue-500 to-cyan-500"
      case Technical => "from-green-500 to-emerald-500"
      case Research => "from-purple-500 to-violet-500"
      case EventsTeam => "from-orange-500 to-amber-500"
      case Media => "from-indigo-500 to-blue-500"
      case General => "from-gray-500 to-slate-500"
    }

    function Icon(): string {
      match this
      case Leadership => "👑"
      case Management => "🎯"
      case Technical => "⚙️"
      case Research => "🔬"
      case EventsTeam => "🎪"
      case Media => "📸"
      case General => "👤"
    }
  }

  /** The lower-cased designation contains one of the group's keywords. */
  predicate InGroup(lower: string, g: Group) {
    exists k :: k in g.Keywords() && Contains(lower, k)
  }

  const Priority := [Leadership, Management, Technical, Research, EventsTeam, Media]

  /** The position in `Priority`, from `i` on, of the first group the
      designation is in, or `|Priority|` when there is none. */
  function FirstMatchFrom(lower: string, i: nat): (j: nat)
    requires i <= |Priority|
    ensures i <= j <= |Priority|
    ensures j < |Priority| ==> InGroup(lower, Priority[j])
    ensures forall k :: i <= k < j ==> !InGroup(lower, Priority[k])
    decreases |Priority| - i
  {
    if i == |Priority| then i
    else if InGroup(lower, Priority[i]) then i
    else FirstMatchFrom(lower, i + 1)
  }

  /** The group a designation belongs to: the first in priority order whose
      keywords it mentions, in any case; otherwise the general one. */
  function GroupOf(designation: string): (g: Group)
    ensures g == General <==> forall k :: 0 <= k < |Priority| ==> !InGroup(ToLower(designation), Priority[k])
    ensures g != General ==> InGroup(ToLower(designation), g)
  {
    var j := FirstMatchFrom(ToLower(designation), 0);
    if j == |Priority| then General else Priority[j]
  }

  /** `getDepartmentColor`. */
  function DepartmentColor(designation: string): string {
    var lower := ToLower(designation);
    if Contains(lower, "founder") || Contains(lower, "president") then "from-red-500 to-pink-500"
    else if Contains(lower, "head") || Contains(lower, "lead") then "from-blue-500 to-cyan-500"
    else if Contains(lower, "technical") || Contains(lower, "developer") then "from-green-500 to-emerald-500"
    else if Contains(lower, "research") then "from-purple-500 to-violet-500"
    else if Contains(lower, "events") || Contains(lower, "coordinator") then "from-orange-500 to-amber-500"
    else if Contains(lower, "media") || Contains(lower, "content") then "from-indigo-500 to-blue-500"
    else "from-gray-500 to-slate-500"
  }

  /** `getDepartmentIcon`. */
  function DepartmentIcon(designation: string): string {
    var lower := ToLower(designation);
    if Contains(lower, "founder") || Contains(lower, "president") then "👑"
    else if Contains(lower, "head") || Contains(lower, "lead") then "🎯"
    else if Contains(lower, "technical") || Contains(lower, "developer") then "⚙️"
    else if Contains(lower, "research") then "🔬"
    else if Contains(lower, "events") || Contains(lower, "coordinator") then "🎪"
    else if Contains(lower, "media") || Contains(lower, "content") then "📸"
    else "👤"
  }

  /** Group membership spelled out keyword by keyword, as the chains test it. */
  lemma InGroupByKeywords(lower: string)
    ensures InGroup(lower, Leadership) <==> Contains(lower, "founder") || Contains(lower, "president")
    ensures InGroup(lower, Management) <==> Contains(lower, "head") || Contains(lower, "lead")
    ensures InGroup(lower, Technical) <==> Contains(lower, "technical") || Contains(lower, "developer")
    ensures InGroup(lower, Research) <==> Contains(lower, "research")
    ensures InGroup(lower, EventsTeam) <==> Contains(lower, "events") || Contains(lower, "coordinator")
    ensures InGroup(lower, Media) <==> Contains(lower, "media") || Contains(lower, "content")
  {
  }

  /** The priority search, written out as a chain of tests. */
  lemma {:induction false} GroupOfAsChain(designation: string)
    ensures GroupOf(designation) ==
      var lower := ToLower(designation);
      if InGroup(lower, Leadership) then Leadership
      else if InGroup(lower, Management) then Management
      else if InGroup(lower, Technical) then Technical
      else if InGroup(lower, Research) then Research
      else if InGroup(lower, EventsTeam) then EventsTeam
      else if InGroup(lower, Media) then Media
      else General
  {
    var lower := ToLower(designation);
    assert FirstMatchFrom(lower, 6) == 6;
    assert FirstMatchFrom(lower, 5) == if InGroup(lower, Media) then 5 else 6;
    assert FirstMatchFrom(lower, 4) == if InGroup(lower, EventsTeam) then 4 else FirstMatchFrom(lower, 5);
    assert FirstMatchFrom(lower, 3) == if InGroup(lower, Research) then 3 else FirstMatchFrom(lower, 4);
    assert FirstMatchFrom(lower, 2) == if InGroup(lower, Technical) then 2 else FirstMatchFrom(lower, 3);
    assert FirstMatchFrom(lower, 1) == if InGroup(lower, Management) then 1 else FirstMatchFrom(lower, 2);
    assert FirstMatchFrom(lower, 0) == if InGroup(lower, Leadership) then 0 else FirstMatchFrom(lower, 1);
  }

  /** The colour chain picks the colour of the first group in priority order. */
  lemma ColorFollowsPriority(designation: string)
    ensures DepartmentColor(designation) == GroupOf(designation).Color()
  {
    InGroupByKeywords(ToLower(designation));
    GroupOfAsChain(designation);
  }

  /** The icon chain tests the same groups in the same order, so it always
      takes the branch the colour chain takes. */
  lemma IconFollowsPriority(designation: string)
    ensures DepartmentIcon(designation) == GroupOf(designation).Icon()
  {
    InGroupByKeywords(ToLower(designation));
    GroupOfAsChain(designation);
  }

  /** The badge under a member: a case-sensitive test on the designation as written. */
  function BadgeLabel(designation: string): (r: string)
    ensures r == "Leadership" <==> Contains(designation, "Founder") || Contains(designation, "President")
    ensures r == "Management" <==>
      !Contains(designation, "Founder") && !Contains(designation, "President") && Contains(designation, "Head")
    ensures r == "Team Member" <==>
      !Contains(designation, "Founder") && !Contains(designation, "President") && !Contains(designation, "Head")
  {
    if Contains(designation, "Founder") || Contains(designation, "President") then "Leadership"
    else if Contains(designation, "Head") then "Management"
    else "Team Member"
  }

  /** A lower-case "founder" gets the leadership colour and crown but the
    plain "Team Member" badge. */
  lemma LowerCaseFounderBadge()
    ensures GroupOf("founder") == Leadership
    ensures BadgeLabel("founder") == "Team Member"
  {
    assert ToLower("founder") == "founder";
    ContainsMiddle("", "founder", "");
    assert "" + ("founder" + "") == "founder";
    MissingFirstChar("founder", "Founder");
    MissingFirstChar("founder", "President");
    MissingFirstChar("founder", "Head");
  }

  /** The number of members whose designation is in the group's keywords
      (a member may be in several groups). */
  function CountMatching(members: seq<Member>, g: Group): (n: nat)
    ensures n <= |members|
  {
    if members == [] then 0
    else (if InGroup(ToLower(members[0].designation), g) then 1 else 0) + CountMatching(members[1..], g)
  }

  /** Counting a concatenation counts each part. */
  lemma {:induction false} CountMatchingAppend(a: seq<Member>, b: seq<Member>, g: Group)
    ensures CountMatching(a + b, g) == CountMatching(a, g) + CountMatching(b, g)
  {
    if a == [] {
      assert a + b == b;
    } else {
      assert (a + b)[0] == a[0];
      assert (a + b)[1..] == a[1..] + b;
      CountMatchingAppend(a[1..], b, g);
    }
  }

  /** No member is counted exactly when none is in the group. */
  lemma {:induction false} CountMatchingZero(members: seq<Member>, g: Group)
    ensures CountMatching(members, g) == 0 <==>
      forall k :: 0 <= k < |members| ==> !InGroup(ToLower(members[k].designation), g)
  {
    if members != [] {
      CountMatchingZero(members[1..], g);
      assert forall k :: 1 <= k < |members| ==> members[k] == members[1..][k - 1];
    }
  }

  /** The group counted for a department value; "all" and unknown values have none. */
  function CountedGroup(value: string): Option<Group> {
    if value == "technical" then Some(Technical)
    else if value == "research" then Some(Research)
    else if value == "events" then Some(EventsTeam)
    else if value == "media" then Some(Media)
    else None
  }

  /** The count `updateDepartmentCounts` gives a department value: every
      member for "all", the group count for a known department, and 0 for a
      value missing from the counts. */
  function CountFor(value: string, members: seq<Member>): (n: nat)
    ensures n <= |members|
    ensures value == "all" ==> n == |members|
    ensures value !in DepartmentValues ==> n == 0
  {
    if value == "all" then |members|
    else if CountedGroup(value).Some? then CountMatching(members, CountedGroup(value).value)
    else 0
  }

  /** Departments overlap: a "Technical Events Coordinator" is counted in
      two of them, so the department counts can add up to more than "all". */
  lemma DepartmentsOverlap()
    ensures var m := [Member(1, "", "technical events")];
      CountFor("technical", m) + CountFor("events", m) > CountFor("all", m)
  {
    var d := "technical events";
    assert ToLower(d) == d;
    ContainsMiddle("", "technical", " events");
    assert "" + ("technical" + " events") == d;
    ContainsMiddle("technical ", "events", "");
    assert "technical " + ("events" + "") == d;
    assert InGroup(d, Technical);
    assert InGroup(d, EventsTeam);
  }

  datatype Department = Department(value: string, name: string, count: int, icon: string)

  const DepartmentValues := ["all", "technical", "research", "events", "media"]

  const FetchFailed := "Failed to fetch team members"
  const UnknownFailure := "An error occurred"

  class TeamPage {
    var teamMembers: seq<Member>
    var isLoading: bool
    var error: Option<string>
    /** The memoised department table; its entries' counts are rewritten in place. */
    const departments: array<Department>

    /** The table keeps its five departments, "all" first, in this order. */
    predicate Valid()
      reads this, departments
    {
      departments.Length == |DepartmentValues|
      && forall k :: 0 <= k < departments.Length ==> departments[k].value == DepartmentValues[k]
    }

    constructor ()
      ensures Valid() && fresh(departments)
      ensures teamMembers == [] && isLoading && error == None
      ensures forall k :: 0 <= k < departments.Length ==> departments[k].count == 0
    {
      teamMembers := [];
      isLoading := true;
      error := None;
      departments := new Department[5] [
        Department("all", "All Members", 0, "👥"),
        Department("technical", "Technical Team", 0, "⚙️"),
        Department("research", "Research Team", 0, "🔬"),
        Department("events", "Events Team", 0, "🎯"),
        Department("media", "Media Team", 0, "📸")];
    }

    /** `updateDepartmentCounts`: every entry's count is overwritten with its
      value's count; nothing else in the table changes. */
    method UpdateDepartmentCounts(members: seq<Member>)
      modifies departments
      ensures forall k :: 0 <= k < departments.Length ==>
        departments[k] == old(departments[k]).(count := CountFor(old(departments[k]).value, members))
    {
      var i := 0;
      while i < departments.Length
        invariant 0 <= i <= departments.Length
        invariant forall k :: 0 <= k < i ==>
          departments[k] == old(departments[k]).(count := CountFor(old(departments[k]).value, members))
        invariant forall k :: i <= k < departments.Length ==> departments[k] == old(departments[k])
      {
        var dept := departments[i];
        if dept.value != "all" {
          departments[i] := dept.(count := CountFor(dept.value, members));
        } else {
          departments[i] := dept.(count := |members|);
        }
        i := i + 1;
      }
    }

    /** The fetch effect: an ok answer stores its `data` list (none gives no
      members) and recounts the departments; a failure keeps both and
      records the message. Loading ends either way. */
    method LoadMembers(outcome: ListFetch<Member>)
      requires Valid()
      modifies this, departments
      ensures Valid() && !isLoading
      ensures outcome.ListOk? ==>
                error == None
                && teamMembers == (if outcome.data.Some? then outcome.data.value else [])
                && forall k :: 0 <= k < departments.Length ==>
                     departments[k] == old(departments[k]).(count := CountFor(DepartmentValues[k], teamMembers))
      ensures outcome.ListOk? ==> Displayed() == (if outcome.data.Some? then outcome.data.value else [])
      ensures outcome.ListNotOk? ==> error == Some(FetchFailed) && teamMembers == old(teamMembers)
      ensures outcome.ListThrew? ==>
                error == Some(MessageOr(outcome.e, UnknownFailure)) && teamMembers == old(teamMembers)
      ensures !outcome.ListOk? ==> unchanged(departments)
    {
      isLoading := true;
      error := None;
      match outcome {
        case ListNotOk =>
          error := Some(FetchFailed);
        case ListThrew(e) =>
          error := Some(MessageOr(e, UnknownFailure));
        case ListOk(data) =>
          var members := if data.Some? then data.value else [];
          teamMembers := members;
          UpdateDepartmentCounts(members);
      }
      isLoading := false;
    }

    /** The member grid shows the fetched list as it is. */
    function Displayed(): (r: seq<Member>)
      reads this
      ensures |r| == |teamMembers| && forall k :: 0 <= k < |r| ==> r[k] == teamMembers[k]
    {
      teamMembers
    }

    /** The department overview: every department but "all". */
    function Overview(): (r: seq<Department>)
      requires Valid()
      reads this, departments
      ensures |r| == |DepartmentValues| - 1
      ensures forall k :: 0 <= k < |r| ==> r[k] == departments[k + 1] && r[k].value != "all"
    {
      departments[1..]
    }
  }
}
