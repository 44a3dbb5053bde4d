/** The home page's events section: fixed lists of upcoming and past events,
    a fill-level badge for each upcoming event, exact-match type colours and
    the two tabs. */
module EventsSection {
  import opened Text
  import EventsPage

  /** The fill level of an upcoming event's registrations. */
  datatype Fill = Available | FillingFast | AlmostFull {
    /** The colour name in the badge's Tailwind classes. */
    function Hue(): string {
      match this
      case AlmostFull => "red"
      case FillingFast => "yellow"
      case Available => "green"
    }

    /** The `color` of `getRegistrationStatus`'s result. */
    function Color(): string {
      "text-" + Hue() + "-400"
    }

    /** The `status` text of `getRegistrationStatus`'s result. */
    function Caption(): string {
      match this
      case AlmostFull => "Almost Full"
      case FillingFast => "Filling Fast"
      case Available => "Available"
    }

    /** How full the level says the event is, for comparing levels. */
    function Rank(): nat {
      match this
      case Available => 0
      case FillingFast => 1
      case AlmostFull => 2
    }
  }

  /** `getRegistrationStatus(current, max)`: at least 90 percent is almost
    full, at least 70 percent filling fast, less is available. The
    percentage comparisons are done on integers; with no seats, any
    registration is an infinite percentage and none is not a number, which
    compares false. */
  function RegistrationStatus(current: nat, max: nat): (f: Fill)
    ensures max > 0 ==> (f == AlmostFull <==> 10 * current >= 9 * max)
    ensures max > 0 ==> (f == FillingFast <==> 9 * max > 10 * current >= 7 * max)
    ensures max == 0 ==> (f == AlmostFull <==> current > 0)
    ensures max == 0 ==> f != FillingFast
  {
    if max == 0 then (if current > 0 then AlmostFull else Available)
    else if 10 * current >= 9 * max then AlmostFull
    else if 10 * current >= 7 * max then FillingFast
    else Available
  }

  /** `(current / max) * 100 >= threshold`, in exact arithmetic. */
  predicate PercentAtLeast(current: nat, max: nat, threshold: real)
    requires max > 0
  {
    (current as real / max as real) * 100.0 >= threshold
  }

  /** The integer comparison agrees with the exact percentage for a threshold `t`. */
  lemma {:induction false} PercentAsIntegers(current: nat, max: nat, t: nat)
    requires max > 0
    ensures PercentAtLeast(current, max, t as real) <==> 100 * current >= t * max
  {
    var p := current as real / max as real;
    var m := max as real;
    assert p * m == current as real;
    if p * 100.0 >= t as real {
      assert (p * 100.0) * m >= (t as real) * m;
      assert (p * m) * 100.0 >= (t as real) * m;
    } else {
      assert (p * 100.0) * m < (t as real) * m;
      assert (p * m) * 100.0 < (t as real) * m;
    }
  }

  /** With seats available the thresholds are the source's percentages. */
  lemma RegistrationStatusMatchesPercentage(current: nat, max: nat)
    requires max > 0
    ensures RegistrationStatus(current, max) == AlmostFull <==> PercentAtLeast(current, max, 90.0)
    ensures RegistrationStatus(current, max) == FillingFast <==>
      !PercentAtLeast(current, max, 90.0) && PercentAtLeast(current, max, 70.0)
    ensures RegistrationStatus(current, max) == Available <==> !PercentAtLeast(current, max, 70.0)
  {
    PercentAsIntegers(current, max, 90);
    PercentAsIntegers(current, max, 70);
  }

  /** More registrations for the same seats never make the event look emptier. */
  lemma RegistrationStatusMonotone(current: nat, more: nat, max: nat)
    requires current <= more
    ensures RegistrationStatus(current, max).Rank() <= RegistrationStatus(more, max).Rank()
  {
  }

  /** The three upcoming events of the section's fixed list, as
    (registrations, maxRegistrations). */
  const UpcomingRegistrations: seq<(nat, nat)> := [(45, 60), (28, 40), (120, 150)]

  /** All three fixed upcoming events (75, 70 and 80 percent) show "Filling Fast". */
  lemma FixedEventsFillingFast()
    ensures forall i :: 0 <= i < |UpcomingRegistrations| ==>
      RegistrationStatus(UpcomingRegistrations[i].0, UpcomingRegistrations[i].1) == FillingFast
  {
  }

  /** This section's `getEventTypeColor`: an exact, case-sensitive match on
    five type names. */
  function EventTypeColor(eventType: string): (r: string)
    ensures eventType == "Competition" ==> r == EventsPage.RedBadge
    ensures eventType == "Workshop" ==> r == EventsPage.BlueBadge
    ensures eventType == "Seminar" ==> r == EventsPage.GreenBadge
    ensures eventType == "Hackathon" ==> r == EventsPage.PurpleBadge
    ensures eventType == "Exhibition" ==> r == EventsPage.YellowBadge
    ensures r == EventsPage.GrayBadge <==>
      eventType !in ["Competition", "Workshop", "Seminar", "Hackathon", "Exhibition"]
  {
    if eventType == "Competition" then EventsPage.RedBadge
    else if eventType == "Workshop" then EventsPage.BlueBadge
    else if eventType == "Seminar" then EventsPage.GreenBadge
    else if eventType == "Hackathon" then EventsPage.PurpleBadge
    else if eventType == "Exhibition" then EventsPage.YellowBadge
    else EventsPage.GrayBadge
  }

  /** Unlike the events page, the section does not ignore case: a lower-case
    "workshop" is gray here and blue there. */
  lemma LowerCaseWorkshopDiffers()
    ensures EventTypeColor("workshop") == EventsPage.GrayBadge
    ensures EventsPage.EventTypeColor("workshop") == EventsPage.BlueBadge
  {
    assert ToLower("workshop") == "workshop";
    assert !Contains("workshop", "competition");
    OccursAsPrefix("workshop", "");
    assert "workshop" + "" == "workshop";
    ContainsAt("workshop", "workshop", 0);
  }

  /** `color.replace('text-', prefix).replace('-400', suffix)`. */
  function Rewrite(color: string, prefix: string, suffix: string): string {
    ReplaceFirst(ReplaceFirst(color, "text-", prefix), "-400", suffix)
  }

  /** The three class strings of a fill badge: border, background, text. */
  function BadgeClasses(f: Fill): (classes: (string, string, string)) {
    (Rewrite(f.Color(), "border-", "-400/30"), Rewrite(f.Color(), "bg-", "-400/10"), f.Color())
  }

  /** A colour name with no hyphen that does not start with "400". */
  predicate PlainHue(x: string) {
    (forall k :: 0 <= k < |x| ==> x[k] != '-') && !(|x| >= 3 && x[..3] == "400")
  }

  /** The first replacement swaps the leading "text-" for the prefix. */
  lemma ReplaceTextPrefix(x: string, prefix: string)
    ensures ReplaceFirst("text-" + x + "-400", "text-", prefix) == prefix + x + "-400"
  {
    var color := "text-" + x + "-400";
    assert color[..5] == "text-";
    ReplaceFirstAt(color, "text-", prefix, 0);
    assert color[5..] == x + "-400";
  }

  /** In "P" + "X" + "-400", the first "-400" is the last four characters
    when the prefix has a single hyphen, at its end. */
  lemma {:induction false} NoEarlierSuffix(x: string, prefix: string, j: int)
    requires PlainHue(x)
    requires |prefix| >= 1 && prefix[|prefix| - 1] == '-'
    requires forall k :: 0 <= k < |prefix| - 1 ==> prefix[k] != '-'
    requires 0 <= j < |prefix| + |x|
    ensures !OccursAt(prefix + x + "-400", "-400", j)
  {
    var once := prefix + x + "-400";
    var n := |prefix| - 1;
    if j < n {
      assert once[j] == prefix[j];
    } else if j > n {
      assert once[j] == x[j - |prefix|];
    } else if |x| >= 3 {
      assert once[j..j + 4] == "-" + x[..3];
      assert ("-" + x[..3])[1..] == x[..3];
      assert "-400"[1..] == "400";
    } else {
      assert once[j..j + 4][1 + |x|] == '-';
      assert "-400"[1 + |x|] != '-';
    }
  }

  /** For a plain hue, the rewriting turns "text-X-400" into "P" + "X" + "S"
    with `S` in place of "-400". */
  lemma {:induction false} RewriteHue(x: string, prefix: string, suffix: string)
    requires PlainHue(x)
    requires |prefix| >= 1 && prefix[|prefix| - 1] == '-'
    requires forall k :: 0 <= k < |prefix| - 1 ==> prefix[k] != '-'
    ensures Rewrite("text-" + x + "-400", prefix, suffix) == prefix + x + suffix
  {
    ReplaceTextPrefix(x, prefix);
    var once := prefix + x + "-400";
    var at := |prefix| + |x|;
    assert once[at..at + 4] == "-400";
    forall j | 0 <= j < at
      ensures !OccursAt(once, "-400", j)
    {
      NoEarlierSuffix(x, prefix, j);
    }
    ReplaceFirstAt(once, "-400", suffix, at);
    assert once[..at] == prefix + x;
    assert once[at + 4..] == [];
  }

  lemma HuesArePlain(f: Fill)
    ensures PlainHue(f.Hue())
  {
    var x := f.Hue();
    if |x| >= 3 {
      assert x[0] != '4';
    }
  }

  /** Every fill badge gets matching border and background classes of its colour. */
  lemma BadgeClassesOfFill(f: Fill)
    ensures BadgeClasses(f) == ("border-" + f.Hue() + "-400/30", "bg-" + f.Hue() + "-400/10",
                                "text-" + f.Hue() + "-400")
  {
    HuesArePlain(f);
    RewriteHue(f.Hue(), "border-", "-400/30");
    RewriteHue(f.Hue(), "bg-", "-400/10");
  }

  datatype Tab = UpcomingTab | PastTab

  /** Which list the section renders. */
  datatype Shown = UpcomingShown | PastShown

  class Section {
    var activeTab: Tab

    constructor ()
      ensures activeTab == UpcomingTab
    {
      activeTab := UpcomingTab;
    }

    /** One of the two tab buttons. */
    method SelectTab(tab: Tab)
      modifies this
      ensures activeTab == tab
    {
      activeTab := tab;
    }

    /** Exactly one list renders, the one of the active tab. */
    function Rendered(): (s: Shown)
      reads this
      ensures s == UpcomingShown <==> activeTab == UpcomingTab
      ensures s == PastShown <==> activeTab == PastTab
    {
      match activeTab
      case UpcomingTab => UpcomingShown
      case PastTab => PastShown
    }
  }
}
