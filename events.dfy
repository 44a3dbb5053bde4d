/** The events page: events fetched from the CMS, split into upcoming and
    past lists, badge colours, the register button, and the registration
    modal it opens. */
module EventsPage {
  import opened Js
  import opened Text

  datatype EventStatus = Completed | Open | Closed

  datatype Event = Event(id: int, documentId: string, title: string, eventType: string,
                         date: string, status: EventStatus)

  predicate IsUpcoming(e: Event) {
    e.status == Open || e.status == Closed
  }

  predicate IsPast(e: Event) {
    e.status == Completed
  }

  /** `events.filter(e => e.EventStatus === 'Open' || e.EventStatus === 'Closed')`. */
  function UpcomingEvents(events: seq<Event>): (r: seq<Event>)
    ensures |r| <= |events|
    ensures forall e :: e in r <==> e in events && IsUpcoming(e)
  {
    if events == [] then []
    else (if IsUpcoming(events[0]) then [events[0]] else []) + UpcomingEvents(events[1..])
  }

  /** `events.filter(e => e.EventStatus === 'Completed')`. */
  function PastEvents(events: seq<Event>): (r: seq<Event>)
    ensures |r| <= |events|
    ensures forall e :: e in r <==> e in events && IsPast(e)
  {
    if events == [] then []
    else (if IsPast(events[0]) then [events[0]] else []) + PastEvents(events[1..])
  }

  /** The upcoming filter keeps order: filtering a concatenation filters each part. */
  lemma {:induction false} UpcomingKeepsOrder(a: seq<Event>, b: seq<Event>)
    ensures UpcomingEvents(a + b) == UpcomingEvents(a) + UpcomingEvents(b)
  {
    if a == [] {
      assert a + b == b;
    } else {
      var head := if IsUpcoming(a[0]) then [a[0]] else [];
      assert (a + b)[1..] == a[1..] + b;
      calc {
        UpcomingEvents(a + b);
        head + UpcomingEvents(a[1..] + b);
        { UpcomingKeepsOrder(a[1..], b); }
        head + (UpcomingEvents(a[1..]) + UpcomingEvents(b));
        (head + UpcomingEvents(a[1..])) + UpcomingEvents(b);
      }
    }
  }

  /** The past filter keeps order in the same way. */
  lemma {:induction false} PastKeepsOrder(a: seq<Event>, b: seq<Event>)
    ensures PastEvents(a + b) == PastEvents(a) + PastEvents(b)
  {
    if a == [] {
      assert a + b == b;
    } else {
      var head := if IsPast(a[0]) then [a[0]] else [];
      assert (a + b)[1..] == a[1..] + b;
      calc {
        PastEvents(a + b);
        head + PastEvents(a[1..] + b);
        { PastKeepsOrder(a[1..], b); }
        head + (PastEvents(a[1..]) + PastEvents(b));
        (head + PastEvents(a[1..])) + PastEvents(b);
      }
    }
  }

  /** With three statuses the two lists partition the events: every event is
      in exactly one of them, and their lengths add up. */
  lemma {:induction false} UpcomingAndPastPartition(events: seq<Event>)
    ensures |UpcomingEvents(events)| + |PastEvents(events)| == |events|
    ensures forall e :: e in events ==> (e in UpcomingEvents(events) <==> e !in PastEvents(events))
  {
    if events != [] {
      UpcomingAndPastPartition(events[1..]);
    }
  }

  const RedBadge := "text-red-400 bg-red-400/10 border-red-400/30"
  const BlueBadge := "text-blue-400 bg-blue-400/10 border-blue-400/30"
  const GreenBadge := "text-green-400 bg-green-400/10 border-green-400/30"
  const PurpleBadge := "text-purple-400 bg-purple-400/10 border-purple-400/30"
  const YellowBadge := "text-yellow-400 bg-yellow-400/10 border-yellow-400/30"
  const GrayBadge := "text-gray-400 bg-gray-400/10 border-gray-400/30"

  /** `getEventTypeColor`: the first of competition, workshop, seminar,
      hackathon and exhibition that occurs in the lower-cased type decides
      the colour; none of them gives gray. */
  function EventTypeColor(eventType: string): (r: string)
    ensures r == RedBadge <==> Contains(ToLower(eventType), "competition")
    ensures r == BlueBadge <==>
      !Contains(ToLower(eventType), "competition") && Contains(ToLower(eventType), "workshop")
    ensures r == GreenBadge <==>
      !Contains(ToLower(eventType), "competition") && !Contains(ToLower(eventType), "workshop")
      && Contains(ToLower(eventType), "seminar")
    ensures r == PurpleBadge <==>
      !Contains(ToLower(eventType), "competition") && !Contains(ToLower(eventType), "workshop")
      && !Contains(ToLower(eventType), "seminar") && Contains(ToLower(eventType), "hackathon")
    ensures r == YellowBadge <==>
      !Contains(ToLower(eventType), "competition") && !Contains(ToLower(eventType), "workshop")
      && !Contains(ToLower(eventType), "seminar") && !Contains(ToLower(eventType), "hackathon")
      && Contains(ToLower(eventType), "exhibition")
    ensures r == GrayBadge <==>
      (forall k :: k in ["competition", "workshop", "seminar", "hackathon", "exhibition"] ==>
         !Contains(ToLower(eventType), k))
  {
    var lower := ToLower(eventType);
    if Contains(lower, "competition") then RedBadge
    else if Contains(lower, "workshop") then BlueBadge
    else if Contains(lower, "seminar") then GreenBadge
    else if Contains(lower, "hackathon") then PurpleBadge
    else if Contains(lower, "exhibition") then YellowBadge
    else GrayBadge
  }

  /** The type colour ignores case. */
  lemma EventTypeColorIgnoresCase(eventType: string)
    ensures EventTypeColor(ToLower(eventType)) == EventTypeColor(eventType)
  {
    ToLowerIdempotent(eventType);
  }

  /** `getStatusColor`: Open is green, Closed red, Completed gray. */
  function StatusColor(status: EventStatus): (r: string)
    ensures r == GreenBadge <==> status == Open
    ensures r == RedBadge <==> status == Closed
    ensures r == GrayBadge <==> status == Completed
  {
    match status
    case Open => GreenBadge
    case Closed => RedBadge
    case Completed => GrayBadge
  }

  /** The register button of an upcoming event. */
  datatype RegisterButton = RegisterButton(disabled: bool, caption: string)

  function RegisterButtonFor(e: Event): (b: RegisterButton)
    ensures b.disabled <==> e.status == Closed
    ensures b.caption == "Registration Closed" <==> e.status == Closed
    ensures !b.disabled ==> b.caption == "Register Now"
  {
    if e.status == Closed then RegisterButton(true, "Registration Closed")
    else RegisterButton(false, "Register Now")
  }

  /** Among the listed upcoming events, exactly the open ones can be registered for. */
  lemma RegisterEnabledExactlyForOpen(events: seq<Event>, e: Event)
    requires e in UpcomingEvents(events)
    ensures !RegisterButtonFor(e).disabled <==> e.status == Open
  {
  }

  datatype Tab = UpcomingTab | PastTab

  /** What the page's main area shows. */
  datatype View = Skeletons | ErrorView(message: string) | UpcomingList(items: seq<Event>) | PastList(items: seq<Event>)

  const FetchFailed := "Failed to fetch events"
  const UnknownFailure := "An error occurred"

  class Page {
    var events: seq<Event>
    var isLoading: bool
    var error: Option<string>
    var isModalOpen: bool
    var selectedEvent: Option<Event>
    var activeTab: Tab

    constructor ()
      ensures events == [] && isLoading && error == None
      ensures !isModalOpen && selectedEvent == None && activeTab == UpcomingTab
    {
      events := [];
      isLoading := true;
      error := None;
      isModalOpen := false;
      selectedEvent := None;
      activeTab := UpcomingTab;
    }

    /** The fetch effect: an ok answer replaces the events with its `data`
      list (none gives no events); a failure keeps the events and records
      the message. Loading ends either way. */
    method LoadEvents(outcome: ListFetch<Event>)
      modifies this
      ensures !isLoading
      ensures outcome.ListOk? ==> error == None
      ensures outcome.ListOk? ==> events == (if outcome.data.Some? then outcome.data.value else [])
      ensures outcome.ListNotOk? ==> error == Some(FetchFailed) && events == old(events)
      ensures outcome.ListThrew? ==> error == Some(MessageOr(outcome.e, UnknownFailure)) && events == old(events)
      ensures isModalOpen == old(isModalOpen) && selectedEvent == old(selectedEvent)
      ensures activeTab == old(activeTab)
    {
      isLoading := true;
      error := None;
      match outcome {
        case ListNotOk =>
          error := Some(FetchFailed);
        case ListThrew(e) =>
          error := Some(MessageOr(e, UnknownFailure));
        case ListOk(data) =>
          events := if data.Some? then data.value else [];
      }
      isLoading := false;
    }

    /** `handleRegisterClick`. */
    method RegisterClick(e: Event)
      modifies this
      ensures selectedEvent == Some(e) && isModalOpen
      ensures events == old(events) && isLoading == old(isLoading) && error == old(error)
      ensures activeTab == old(activeTab)
    {
      selectedEvent := Some(e);
      isModalOpen := true;
    }

    /** `handleCloseModal`. */
    method CloseModal()
      modifies this
      ensures selectedEvent == None && !isModalOpen
      ensures events == old(events) && isLoading == old(isLoading) && error == old(error)
      ensures activeTab == old(activeTab)
    {
      isModalOpen := false;
      selectedEvent := None;
    }

    /** One of the two tab buttons. */
    method SelectTab(tab: Tab)
      modifies this
      ensures activeTab == tab
      ensures events == old(events) && isLoading == old(isLoading) && error == old(error)
      ensures isModalOpen == old(isModalOpen) && selectedEvent == old(selectedEvent)
    {
      activeTab := tab;
    }

    /** The registration modal renders only when it is open and has an event. */
    predicate ModalShown()
      reads this
    {
      isModalOpen && selectedEvent.Some?
    }

    /** The main area: skeletons while loading, then the error when its
      text is truthy (an empty message is not shown), then the list of the
      active tab. */
    function Content(): (v: View)
      reads this
      ensures isLoading ==> v == Skeletons
      ensures v.ErrorView? <==> !isLoading && TruthyText(error)
      ensures v.ErrorView? ==> v == ErrorView(error.value)
      ensures !isLoading && !TruthyText(error) && activeTab == UpcomingTab ==> v == UpcomingList(UpcomingEvents(events))
      ensures !isLoading && !TruthyText(error) && activeTab == PastTab ==> v == PastList(PastEvents(events))
    {
      if isLoading then Skeletons
      else if TruthyText(error) then ErrorView(error.value)
      else if activeTab == UpcomingTab then UpcomingList(UpcomingEvents(events))
      else PastList(PastEvents(events))
    }
  }
}
