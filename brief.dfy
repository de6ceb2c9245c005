/** The brief document handler (artifacts/brief/server.ts). Every external
    call (the account table, the calendar API, the language model) is a
    field of `Services`, so one request is a deterministic function of those
    answers. Each request is given twice: as a specification function that
    says what is written, which external calls are made and what is
    returned, and as an imperative method that does it step by step against
    a `DataStream`. */
module Brief {
  import opened Values
  import opened DocumentStream
  import opened Accumulator
  import opened Auth
  import opened Calendar
  import opened BriefPrompt

  /** An external call made while handling a request. */
  datatype Call =
    | LookupAccounts(userId: string, provider: string)
    | ListCalendars
    | ListEvents(calendarId: string, timeMin: string, timeMax: string)
    | StreamText(system: string, prompt: string)

  /** The answers of the outside world.
      `accounts(userId, provider)`: the rows of the account table for that user
      and provider, or a throw. `calendarList`: the `items` of the calendar
      list (possibly absent), or a throw. `events(calendarId, timeMin, timeMax)`:
      the `items` of that calendar's single, start-ordered events, or a throw.
      `model(system, prompt)`: the model's stream for those arguments. */
  datatype Services = Services(
    accounts: (string, string) -> Outcome<seq<Account>>,
    calendarList: Outcome<Option<seq<CalendarListEntry>>>,
    events: (string, string, string) -> Outcome<Option<seq<CalendarEvent>>>,
    model: (string, string) -> ModelStream)

  /** What one handler call does: its writes to the UI stream in order, its
      external calls in order, and what it returns or throws. */
  datatype Run = Run(writes: seq<StreamPart>, calls: seq<Call>, result: Outcome<string>)

  /** Progress of the loop over calendars: the event fetches made, and the
      groups gathered so far or the throw that ended the loop. */
  datatype Collected = Collected(calls: seq<Call>, groups: Outcome<seq<Group>>)

  const Provider: string := "google"
  const NoAccountText: string := "\n**No Google account connected.**"
  const NoEventsText: string := "\n**No events found for today.**"

  function AccountErrorText(message: string): string {
    "\n**Error fetching Google account:** " + message
  }

  function CalendarErrorText(message: string): string {
    "\n**Error fetching Google Calendar events:** " + message
  }

  /** `cal.summary || cal.id`, for a calendar whose id is set. */
  function Label(cal: CalendarListEntry): string
    requires Truthy(cal.id)
  {
    Or(cal.summary, cal.id.value)
  }

  /** `events.data.items && events.data.items.length > 0`. */
  predicate HasEvents(items: Option<seq<CalendarEvent>>) {
    items.Some? && |items.value| > 0
  }

  /** One pass of the loop at artifacts/brief/server.ts:66-81: a calendar
      without an id is skipped; otherwise its events are fetched, and kept
      under the calendar's label when there are any. A throw ends the loop. */
  function Visit(prev: Collected, cal: CalendarListEntry,
                 events: (string, string, string) -> Outcome<Option<seq<CalendarEvent>>>,
                 timeMin: string, timeMax: string): Collected
  {
    match prev.groups
    case Threw(_) => prev
    case Returned(gs) =>
      if !Truthy(cal.id) then prev
      else
        var call := ListEvents(cal.id.value, timeMin, timeMax);
        match events(cal.id.value, timeMin, timeMax)
        case Threw(m) => Collected(prev.calls + [call], Threw(m))
        case Returned(items) =>
          Collected(prev.calls + [call],
                    Returned(if HasEvents(items) then gs + [Group(Label(cal), items.value)] else gs))
  }

  /** The whole loop over the calendar list, in list order. */
  function Collect(cals: seq<CalendarListEntry>,
                   events: (string, string, string) -> Outcome<Option<seq<CalendarEvent>>>,
                   timeMin: string, timeMax: string): Collected
    decreases |cals|
  {
    if cals == [] then Collected([], Returned([]))
    else Visit(Collect(cals[..|cals| - 1], events, timeMin, timeMax), cals[|cals| - 1], events, timeMin, timeMax)
  }

  /** Once a fetch has thrown, later calendars change nothing. */
  lemma {:induction false} CollectStaysThrown(cals: seq<CalendarListEntry>, n: nat,
      events: (string, string, string) -> Outcome<Option<seq<CalendarEvent>>>, timeMin: string, timeMax: string)
    requires n <= |cals|
    requires Collect(cals[..n], events, timeMin, timeMax).groups.Threw?
    ensures Collect(cals, events, timeMin, timeMax) == Collect(cals[..n], events, timeMin, timeMax)
    decreases |cals| - n
  {
    if n < |cals| {
      var init := cals[..|cals| - 1];
      assert init[..n] == cals[..n];
      CollectStaysThrown(init, n, events, timeMin, timeMax);
    } else {
      assert cals[..n] == cals;
    }
  }

  /** The loop of artifacts/brief/server.ts:66-81, building `allEvents`. */
  method CollectGroups(calendars: seq<CalendarListEntry>,
                       events: (string, string, string) -> Outcome<Option<seq<CalendarEvent>>>,
                       timeMin: string, timeMax: string)
    returns (groups: Outcome<seq<Group>>, ghost calls: seq<Call>)
    ensures groups == Collect(calendars, events, timeMin, timeMax).groups
    ensures calls == Collect(calendars, events, timeMin, timeMax).calls
  {
    var allEvents: seq<Group> := [];
    calls := [];
    var i := 0;
    while i < |calendars|
      invariant 0 <= i <= |calendars|
      invariant Collect(calendars[..i], events, timeMin, timeMax) == Collected(calls, Returned(allEvents))
    {
      var cal := calendars[i];
      assert calendars[..i + 1][..i] == calendars[..i];
      if !Truthy(cal.id) {
        i := i + 1;
        continue;
      }
      calls := calls + [ListEvents(cal.id.value, timeMin, timeMax)];
      var fetched := events(cal.id.value, timeMin, timeMax);
      if fetched.Threw? {
        CollectStaysThrown(calendars, i + 1, events, timeMin, timeMax);
        groups := Threw(fetched.message);
        return;
      }
      if fetched.value.Some? && |fetched.value.value| > 0 {
        allEvents := allEvents + [Group(Label(cal), fetched.value.value)];
      }
      i := i + 1;
    }
    assert calendars[..i] == calendars;
    groups := Returned(allEvents);
  }

  /** Running the loop over `a` and then over `b`. */
  function Then(first: Collected, rest: Collected): Collected {
    match first.groups
    case Threw(_) => first
    case Returned(gs) =>
      Collected(first.calls + rest.calls,
                match rest.groups
                case Threw(m) => Threw(m)
                case Returned(hs) => Returned(gs + hs))
  }

  lemma VisitThen(x: Collected, y: Collected, cal: CalendarListEntry,
                  events: (string, string, string) -> Outcome<Option<seq<CalendarEvent>>>,
                  timeMin: string, timeMax: string)
    ensures Visit(Then(x, y), cal, events, timeMin, timeMax) == Then(x, Visit(y, cal, events, timeMin, timeMax))
  {
    if x.groups.Returned? && y.groups.Returned? && Truthy(cal.id) {
      var call := ListEvents(cal.id.value, timeMin, timeMax);
      assert x.calls + y.calls + [call] == x.calls + (y.calls + [call]);
      if events(cal.id.value, timeMin, timeMax).Returned? {
        var items := events(cal.id.value, timeMin, timeMax).value;
        if HasEvents(items) {
          var g := Group(Label(cal), items.value);
          assert x.groups.value + y.groups.value + [g] == x.groups.value + (y.groups.value + [g]);
        }
      }
    }
  }

  /** Calendars are handled one after the other and independently: the loop
      over a list split in two is the loop over the first part followed by
      the loop over the second. Together with `CollectSingle` this fixes the
      outcome of every calendar list, and it shows that kept groups follow
      calendar-list order. */
  lemma {:induction false} CollectAppend(a: seq<CalendarListEntry>, b: seq<CalendarListEntry>,
      events: (string, string, string) -> Outcome<Option<seq<CalendarEvent>>>, timeMin: string, timeMax: string)
    ensures Collect(a + b, events, timeMin, timeMax)
         == Then(Collect(a, events, timeMin, timeMax), Collect(b, events, timeMin, timeMax))
    decreases |b|
  {
    var ca := Collect(a, events, timeMin, timeMax);
    if b == [] {
      assert a + b == a;
      if ca.groups.Returned? {
        assert ca.calls + [] == ca.calls;
        assert ca.groups.value + [] == ca.groups.value;
      }
    } else {
      var b' := b[..|b| - 1];
      assert (a + b)[..|a + b| - 1] == a + b';
      assert (a + b)[|a + b| - 1] == b[|b| - 1];
      CollectAppend(a, b', events, timeMin, timeMax);
      VisitThen(ca, Collect(b', events, timeMin, timeMax), b[|b| - 1], events, timeMin, timeMax);
    }
  }

  /** What a single calendar contributes: nothing without an id; otherwise
      one fetch, then a throw, nothing (no or no events), or one group
      labelled with the summary if it is non-empty and else with the id. */
  lemma CollectSingle(cal: CalendarListEntry,
      events: (string, string, string) -> Outcome<Option<seq<CalendarEvent>>>, timeMin: string, timeMax: string)
    ensures !Truthy(cal.id) ==> Collect([cal], events, timeMin, timeMax) == Collected([], Returned([]))
    ensures Truthy(cal.id) ==>
      var call := ListEvents(cal.id.value, timeMin, timeMax);
      var fetched := events(cal.id.value, timeMin, timeMax);
      Collect([cal], events, timeMin, timeMax) ==
        if fetched.Threw? then Collected([call], Threw(fetched.message))
        else if !HasEvents(fetched.value) then Collected([call], Returned([]))
        else Collected([call], Returned([Group(if Truthy(cal.summary) then cal.summary.value else cal.id.value,
                                               fetched.value.value)]))
  {
    assert [cal][..0] == [];
    assert Collect([cal], events, timeMin, timeMax)
        == Visit(Collected([], Returned([])), cal, events, timeMin, timeMax);
    if Truthy(cal.id) {
      var call := ListEvents(cal.id.value, timeMin, timeMax);
      assert [] + [call] == [call];
      var fetched := events(cal.id.value, timeMin, timeMax);
      if fetched.Returned? && HasEvents(fetched.value) {
        var g := Group(Label(cal), fetched.value.value);
        assert [] + [g] == [g];
      }
    }
  }

  /** Every kept group has a non-empty label and at least one event, and
      there are no more groups than calendars. */
  lemma {:induction false} CollectedGroupsWellFormed(cals: seq<CalendarListEntry>,
      events: (string, string, string) -> Outcome<Option<seq<CalendarEvent>>>, timeMin: string, timeMax: string)
    ensures Collect(cals, events, timeMin, timeMax).groups.Returned? ==>
      var gs := Collect(cals, events, timeMin, timeMax).groups.value;
      |gs| <= |cals| && forall g :: g in gs ==> g.calendar != "" && |g.events| > 0
    decreases |cals|
  {
    if cals != [] {
      CollectedGroupsWellFormed(cals[..|cals| - 1], events, timeMin, timeMax);
    }
  }

  /** The loop completes exactly when no fetch for a calendar with an id throws. */
  lemma {:induction false} CollectSucceedsIff(cals: seq<CalendarListEntry>,
      events: (string, string, string) -> Outcome<Option<seq<CalendarEvent>>>, timeMin: string, timeMax: string)
    ensures Collect(cals, events, timeMin, timeMax).groups.Returned? <==>
      forall k :: 0 <= k < |cals| && Truthy(cals[k].id) ==> events(cals[k].id.value, timeMin, timeMax).Returned?
    decreases |cals|
  {
    if cals != [] {
      var init := cals[..|cals| - 1];
      CollectSucceedsIff(init, events, timeMin, timeMax);
      assert forall k :: 0 <= k < |init| ==> init[k] == cals[k];
    }
  }

  /** No group survives exactly when every calendar with an id returned no
      events (absent or empty) and none threw. */
  lemma {:induction false} CollectEmptyIff(cals: seq<CalendarListEntry>,
      events: (string, string, string) -> Outcome<Option<seq<CalendarEvent>>>, timeMin: string, timeMax: string)
    ensures Collect(cals, events, timeMin, timeMax).groups == Returned([]) <==>
      forall k :: 0 <= k < |cals| && Truthy(cals[k].id) ==>
        events(cals[k].id.value, timeMin, timeMax).Returned? &&
        !HasEvents(events(cals[k].id.value, timeMin, timeMax).value)
    decreases |cals|
  {
    if cals != [] {
      var init := cals[..|cals| - 1];
      CollectEmptyIff(init, events, timeMin, timeMax);
      CollectSucceedsIff(init, events, timeMin, timeMax);
      assert forall k :: 0 <= k < |init| ==> init[k] == cals[k];
    }
  }

  /** Where a completed loop puts the events of calendar `k`, when its fetch
      returned some: in the group whose index is the number of groups kept
      from the calendars before it, under the calendar's label. */
  lemma CollectedGroupAt(cals: seq<CalendarListEntry>,
      events: (string, string, string) -> Outcome<Option<seq<CalendarEvent>>>, timeMin: string, timeMax: string,
      k: nat)
    requires k < |cals| && Truthy(cals[k].id)
    requires Collect(cals, events, timeMin, timeMax).groups.Returned?
    requires events(cals[k].id.value, timeMin, timeMax).Returned?
    requires HasEvents(events(cals[k].id.value, timeMin, timeMax).value)
    ensures Collect(cals[..k], events, timeMin, timeMax).groups.Returned?
    ensures var gs := Collect(cals, events, timeMin, timeMax).groups.value;
      var g := |Collect(cals[..k], events, timeMin, timeMax).groups.value|;
      g < |gs| &&
      gs[g] == Group(Or(cals[k].summary, cals[k].id.value),
                     events(cals[k].id.value, timeMin, timeMax).value.value)
  {
    assert cals == cals[..k] + cals[k..];
    CollectAppend(cals[..k], cals[k..], events, timeMin, timeMax);
    assert cals[k..] == [cals[k]] + cals[k + 1..];
    CollectAppend([cals[k]], cals[k + 1..], events, timeMin, timeMax);
    CollectSingle(cals[k], events, timeMin, timeMax);
  }

  /** Groups keep calendar-list order: a calendar with events that comes
      earlier in the list has its group at a smaller index. */
  lemma CollectedGroupsInOrder(cals: seq<CalendarListEntry>,
      events: (string, string, string) -> Outcome<Option<seq<CalendarEvent>>>, timeMin: string, timeMax: string,
      k: nat, k': nat)
    requires k < k' <= |cals| && Truthy(cals[k].id)
    requires Collect(cals[..k'], events, timeMin, timeMax).groups.Returned?
    requires events(cals[k].id.value, timeMin, timeMax).Returned?
    requires HasEvents(events(cals[k].id.value, timeMin, timeMax).value)
    ensures Collect(cals[..k], events, timeMin, timeMax).groups.Returned?
    ensures |Collect(cals[..k], events, timeMin, timeMax).groups.value|
          < |Collect(cals[..k'], events, timeMin, timeMax).groups.value|
  {
    var pre := cals[..k'];
    assert pre[..k] == cals[..k];
    CollectedGroupAt(pre, events, timeMin, timeMax, k);
  }

  /** The prompt the model receives holds every fetched event's line, inside
      the section that opens with the heading of its calendar's label. */
  lemma FetchedEventInPrompt(cals: seq<CalendarListEntry>,
      events: (string, string, string) -> Outcome<Option<seq<CalendarEvent>>>, timeMin: string, timeMax: string,
      k: nat, m: nat)
    requires k < |cals| && Truthy(cals[k].id)
    requires Collect(cals, events, timeMin, timeMax).groups.Returned?
    requires events(cals[k].id.value, timeMin, timeMax).Returned?
    requires events(cals[k].id.value, timeMin, timeMax).value.Some?
    requires m < |events(cals[k].id.value, timeMin, timeMax).value.value|
    ensures Collect(cals[..k], events, timeMin, timeMax).groups.Returned?
    ensures var gs := Collect(cals, events, timeMin, timeMax).groups.value;
      var g := |Collect(cals[..k], events, timeMin, timeMax).groups.value|;
      var items := events(cals[k].id.value, timeMin, timeMax).value.value;
      g < |gs| && m < |gs[g].events| &&
      StandsAt(SystemPrompt(gs), SectionStart(|Preamble|, gs, g), Heading(Or(cals[k].summary, cals[k].id.value))) &&
      StandsAt(SystemPrompt(gs), LineStart(|Preamble|, gs, g, m), EventLine(items[m])) &&
      LineStart(|Preamble|, gs, g, m) > SectionStart(|Preamble|, gs, g) &&
      LineStart(|Preamble|, gs, g, m) + |EventLine(items[m])| <= SectionStart(|Preamble|, gs, g) + |Section(gs[g])|
  {
    CollectedGroupAt(cals, events, timeMin, timeMax, k);
    var gs := Collect(cals, events, timeMin, timeMax).groups.value;
    var g := |Collect(cals[..k], events, timeMin, timeMax).groups.value|;
    EventInPrompt(Preamble, gs, g, m);
  }

  /** The event lines of the prompt follow the order of the calendar list
      and, within a calendar, the order in which the calendar API returned
      the events: an earlier event's line ends before a later one's begins. */
  lemma FetchedEventsInOrder(cals: seq<CalendarListEntry>,
      events: (string, string, string) -> Outcome<Option<seq<CalendarEvent>>>, timeMin: string, timeMax: string,
      k: nat, m: nat, k': nat, m': nat)
    requires k < |cals| && Truthy(cals[k].id) && k' < |cals| && Truthy(cals[k'].id)
    requires k < k' || (k == k' && m < m')
    requires Collect(cals, events, timeMin, timeMax).groups.Returned?
    requires events(cals[k].id.value, timeMin, timeMax).Returned?
    requires events(cals[k].id.value, timeMin, timeMax).value.Some?
    requires m < |events(cals[k].id.value, timeMin, timeMax).value.value|
    requires events(cals[k'].id.value, timeMin, timeMax).Returned?
    requires events(cals[k'].id.value, timeMin, timeMax).value.Some?
    requires m' < |events(cals[k'].id.value, timeMin, timeMax).value.value|
    ensures Collect(cals[..k], events, timeMin, timeMax).groups.Returned?
    ensures Collect(cals[..k'], events, timeMin, timeMax).groups.Returned?
    ensures var gs := Collect(cals, events, timeMin, timeMax).groups.value;
      var g := |Collect(cals[..k], events, timeMin, timeMax).groups.value|;
      var g' := |Collect(cals[..k'], events, timeMin, timeMax).groups.value|;
      var items := events(cals[k].id.value, timeMin, timeMax).value.value;
      g < |gs| && m < |gs[g].events| && g' < |gs| && m' < |gs[g'].events| &&
      LineStart(|Preamble|, gs, g, m) + |EventLine(items[m])| < LineStart(|Preamble|, gs, g', m')
  {
    CollectedGroupAt(cals, events, timeMin, timeMax, k);
    CollectedGroupAt(cals, events, timeMin, timeMax, k');
    if k < k' {
      CollectedGroupsInOrder(cals, events, timeMin, timeMax, k, k');
    }
    var gs := Collect(cals, events, timeMin, timeMax).groups.value;
    var g := |Collect(cals[..k], events, timeMin, timeMax).groups.value|;
    var g' := |Collect(cals[..k'], events, timeMin, timeMax).groups.value|;
    EventsInOrder(|Preamble|, gs, g, m, g', m');
  }

  /** The fetches a completed loop makes: one per calendar with an id, in
      list order, each with the caller's time range. */
  function FetchCalls(cals: seq<CalendarListEntry>, timeMin: string, timeMax: string): seq<Call>
    decreases |cals|
  {
    if cals == [] then []
    else
      var cal := cals[|cals| - 1];
      FetchCalls(cals[..|cals| - 1], timeMin, timeMax)
        + (if Truthy(cal.id) then [ListEvents(cal.id.value, timeMin, timeMax)] else [])
  }

  /** A completed loop fetched every calendar with an id, in order and with
      the caller's range; a loop ended by a throw made the throwing fetch last. */
  lemma {:induction false} CollectCalls(cals: seq<CalendarListEntry>,
      events: (string, string, string) -> Outcome<Option<seq<CalendarEvent>>>, timeMin: string, timeMax: string)
    ensures forall x :: x in Collect(cals, events, timeMin, timeMax).calls ==> x.ListEvents?
    ensures var c := Collect(cals, events, timeMin, timeMax);
      c.groups.Returned? ==> c.calls == FetchCalls(cals, timeMin, timeMax)
    ensures var c := Collect(cals, events, timeMin, timeMax);
      c.groups.Threw? ==>
        |c.calls| > 0 && c.calls[|c.calls| - 1].ListEvents? &&
        c.calls[|c.calls| - 1] == ListEvents(c.calls[|c.calls| - 1].calendarId, timeMin, timeMax) &&
        events(c.calls[|c.calls| - 1].calendarId, timeMin, timeMax) == Threw(c.groups.message)
    decreases |cals|
  {
    if cals != [] {
      CollectCalls(cals[..|cals| - 1], events, timeMin, timeMax);
    }
  }

  /** `if (accounts[0]) credentials = accounts[0]`: the first row, if any. */
  function Credentials(lookup: Outcome<seq<Account>>): Option<Account> {
    if lookup.Returned? && |lookup.value| > 0 then Some(lookup.value[0]) else None
  }

  /** The `try` block of artifacts/brief/server.ts:48-124, entered once
      credentials are found: list calendars, gather groups, then stream the
      brief. Every throw is caught and reported once. */
  function FetchAndDraft(svc: Services, title: string, timeMin: string, timeMax: string): Run {
    match svc.calendarList
    case Threw(m) => Run([DataTextDelta(CalendarErrorText(m))], [ListCalendars], Returned(""))
    case Returned(items) =>
      var c := Collect(if items.Some? then items.value else [], svc.events, timeMin, timeMax);
      var calls := [ListCalendars] + c.calls;
      match c.groups
      case Threw(m) => Run([DataTextDelta(CalendarErrorText(m))], calls, Returned(""))
      case Returned(gs) =>
        if gs == [] then Run([DataTextDelta(NoEventsText)], calls, Returned(""))
        else
          var system := SystemPrompt(gs);
          var s := svc.model(system, title);
          var forwarded := TextWrites(TextsOf(s.deltas));
          match s.failure
          case Some(m) =>
            Run(forwarded + [DataTextDelta(CalendarErrorText(m))], calls + [StreamText(system, title)], Returned(""))
          case None =>
            Run(forwarded, calls + [StreamText(system, title)], Returned(Concat(TextsOf(s.deltas))))
  }

  /** `onCreateDocument` (artifacts/brief/server.ts:12-127). It never throws;
      it starts with the account lookup; and a non-empty document comes only
      from a model call whose prompt is the title. */
  function CreateBrief(svc: Services, session: Session, title: string, timeMin: string, timeMax: string): (r: Run)
    ensures r.result.Returned?
    ensures |r.calls| > 0 && r.calls[0] == LookupAccounts(session.userId, Provider)
    ensures r.result != Returned("") ==>
      r.calls[|r.calls| - 1].StreamText? && r.calls[|r.calls| - 1].prompt == title
  {
    var lookup := svc.accounts(session.userId, Provider);
    var lookupCall := LookupAccounts(session.userId, Provider);
    var reported := if lookup.Threw? then [DataTextDelta(AccountErrorText(lookup.message))] else [];
    if Credentials(lookup).None? then
      Run(reported + [DataTextDelta(NoAccountText)], [lookupCall], Returned(""))
    else
      var d := FetchAndDraft(svc, title, timeMin, timeMax);
      Run(d.writes, [lookupCall] + d.calls, d.result)
  }

  /** Lines 89-115 of artifacts/brief/server.ts: stream the brief for the
      gathered groups, with the composed system prompt and the title as
      prompt. A throw from the stream propagates to the caller's `catch`. */
  method StreamBrief(stream: DataStream, svc: Services, gs: seq<Group>, title: string)
    returns (r: Outcome<string>, ghost call: Call)
    modifies stream
    ensures call == StreamText(SystemPrompt(gs), title)
    ensures stream.parts == old(stream.parts) + TextWrites(TextsOf(svc.model(SystemPrompt(gs), title).deltas))
    ensures var s := svc.model(SystemPrompt(gs), title);
      r == if s.failure.Some? then Threw(s.failure.value) else Returned(Concat(TextsOf(s.deltas)))
  {
    var system := SystemPrompt(gs);
    call := StreamText(system, title);
    r := ForwardDeltas(stream, svc.model(system, title));
  }

  /** The `try` block of artifacts/brief/server.ts:48-124 with its `catch`,
      step by step: `caught` is the message of the first throw, if any. */
  method TryCalendarBrief(stream: DataStream, svc: Services, title: string, timeMin: string, timeMax: string)
    returns (r: string, ghost calls: seq<Call>)
    modifies stream
    ensures stream.parts == old(stream.parts) + FetchAndDraft(svc, title, timeMin, timeMax).writes
    ensures Returned(r) == FetchAndDraft(svc, title, timeMin, timeMax).result
    ensures calls == FetchAndDraft(svc, title, timeMin, timeMax).calls
  {
    var caught: Option<string> := None;
    calls := [ListCalendars];
    match svc.calendarList {
      case Threw(m) =>
        caught := Some(m);
      case Returned(items) =>
        var calendars := if items.Some? then items.value else [];
        ghost var fetches;
        var allEvents;
        allEvents, fetches := CollectGroups(calendars, svc.events, timeMin, timeMax);
        calls := calls + fetches;
        match allEvents {
          case Threw(m) =>
            caught := Some(m);
          case Returned(gs) =>
            if |gs| == 0 {
              stream.Write(DataTextDelta(NoEventsText));
            } else {
              ghost var call;
              var drafted;
              drafted, call := StreamBrief(stream, svc, gs, title);
              calls := calls + [call];
              match drafted {
                case Returned(draft) =>
                  r := draft;
                  return;
                case Threw(m) =>
                  caught := Some(m);
              }
            }
        }
    }
    if caught.Some? {
      stream.Write(DataTextDelta(CalendarErrorText(caught.value)));
    }
    r := "";
  }

  /** `onCreateDocument`, step by step. */
  method OnCreateDocument(stream: DataStream, svc: Services, session: Session,
                          title: string, timeMin: string, timeMax: string)
    returns (r: string, ghost calls: seq<Call>)
    modifies stream
    ensures stream.parts == old(stream.parts) + CreateBrief(svc, session, title, timeMin, timeMax).writes
    ensures Returned(r) == CreateBrief(svc, session, title, timeMin, timeMax).result
    ensures calls == CreateBrief(svc, session, title, timeMin, timeMax).calls
  {
    var credentials: Option<Account> := None;
    calls := [LookupAccounts(session.userId, Provider)];
    var lookup := svc.accounts(session.userId, Provider);
    match lookup {
      case Threw(m) =>
        stream.Write(DataTextDelta(AccountErrorText(m)));
      case Returned(rows) =>
        if |rows| > 0 {
          credentials := Some(rows[0]);
        }
    }
    if credentials.None? {
      stream.Write(DataTextDelta(NoAccountText));
      r := "";
    } else {
      ghost var tried;
      r, tried := TryCalendarBrief(stream, svc, title, timeMin, timeMax);
      calls := calls + tried;
    }
  }

  /** `onUpdateDocument` (artifacts/brief/server.ts:128-163). The system
      prompt is `updateDocumentPrompt(content, 'brief')`, whose source is
      not part of this model, so it is a parameter. There is no `catch`: a
      throw from the stream is the outcome. */
  function UpdateBrief(svc: Services, updatePrompt: (string, string) -> string,
                       content: string, description: string): Run
  {
    var system := updatePrompt(content, "brief");
    var s := svc.model(system, description);
    Run(TextWrites(TextsOf(s.deltas)), [StreamText(system, description)],
        if s.failure.Some? then Threw(s.failure.value) else Returned(Concat(TextsOf(s.deltas))))
  }

  /** `onUpdateDocument`, step by step. */
  method OnUpdateDocument(stream: DataStream, svc: Services, updatePrompt: (string, string) -> string,
                          content: string, description: string)
    returns (r: Outcome<string>, ghost calls: seq<Call>)
    modifies stream
    ensures stream.parts == old(stream.parts) + UpdateBrief(svc, updatePrompt, content, description).writes
    ensures r == UpdateBrief(svc, updatePrompt, content, description).result
    ensures calls == UpdateBrief(svc, updatePrompt, content, description).calls
  {
    var system := updatePrompt(content, "brief");
    calls := [StreamText(system, description)];
    r := ForwardDeltas(stream, svc.model(system, description));
  }

  /** Without credentials (the lookup threw or found no row) neither the
      calendar API nor the model is called and the result is empty. A
      throwing lookup writes two notices: the error, then "no account". */
  lemma NoCredentials(svc: Services, session: Session, title: string, timeMin: string, timeMax: string)
    requires Credentials(svc.accounts(session.userId, Provider)).None?
    ensures var r := CreateBrief(svc, session, title, timeMin, timeMax);
      r.result == Returned("") && r.calls == [LookupAccounts(session.userId, Provider)]
    ensures var r := CreateBrief(svc, session, title, timeMin, timeMax);
      var lookup := svc.accounts(session.userId, Provider);
      r.writes == if lookup.Threw?
        then [DataTextDelta(AccountErrorText(lookup.message)), DataTextDelta(NoAccountText)]
        else [DataTextDelta(NoAccountText)]
  {
  }

  /** With credentials, a failing calendar list or a failing event fetch
      gives exactly one notice, the calendar error, and an empty result; the
      model is not called. */
  lemma CalendarFailure(svc: Services, session: Session, title: string, timeMin: string, timeMax: string)
    requires Credentials(svc.accounts(session.userId, Provider)).Some?
    requires svc.calendarList.Threw? ||
      Collect(if svc.calendarList.value.Some? then svc.calendarList.value.value else [],
              svc.events, timeMin, timeMax).groups.Threw?
    ensures var r := CreateBrief(svc, session, title, timeMin, timeMax);
      var m := if svc.calendarList.Threw? then svc.calendarList.message
        else Collect(if svc.calendarList.value.Some? then svc.calendarList.value.value else [],
                     svc.events, timeMin, timeMax).groups.message;
      r.writes == [DataTextDelta(CalendarErrorText(m))] && r.result == Returned("") &&
      forall c :: c in r.calls ==> !c.StreamText?
  {
    var r := CreateBrief(svc, session, title, timeMin, timeMax);
    if svc.calendarList.Returned? {
      var items := svc.calendarList.value;
      var c := Collect(if items.Some? then items.value else [], svc.events, timeMin, timeMax);
      CollectCalls(if items.Some? then items.value else [], svc.events, timeMin, timeMax);
      assert r.calls == [LookupAccounts(session.userId, Provider), ListCalendars] + c.calls;
    }
  }

  /** With credentials and no surviving group, the only write is "no events
      found", the model is not called and the result is empty. */
  lemma NoEventsFound(svc: Services, session: Session, title: string, timeMin: string, timeMax: string)
    requires Credentials(svc.accounts(session.userId, Provider)).Some?
    requires svc.calendarList.Returned?
    requires Collect(if svc.calendarList.value.Some? then svc.calendarList.value.value else [],
                     svc.events, timeMin, timeMax).groups == Returned([])
    ensures var r := CreateBrief(svc, session, title, timeMin, timeMax);
      r.writes == [DataTextDelta(NoEventsText)] && r.result == Returned("") &&
      forall c :: c in r.calls ==> !c.StreamText?
  {
    var items := svc.calendarList.value;
    CollectCalls(if items.Some? then items.value else [], svc.events, timeMin, timeMax);
  }

  /** A calendar list whose every entry either has no id or has no events
      today leads to "no events found". */
  lemma NoEventsWhenNoCalendarHasEvents(svc: Services, session: Session, title: string,
                                        timeMin: string, timeMax: string)
    requires Credentials(svc.accounts(session.userId, Provider)).Some?
    requires svc.calendarList.Returned?
    requires var cals := if svc.calendarList.value.Some? then svc.calendarList.value.value else [];
      forall k :: 0 <= k < |cals| && Truthy(cals[k].id) ==>
        svc.events(cals[k].id.value, timeMin, timeMax) == Returned(None) ||
        svc.events(cals[k].id.value, timeMin, timeMax) == Returned(Some([]))
    ensures CreateBrief(svc, session, title, timeMin, timeMax).writes == [DataTextDelta(NoEventsText)]
    ensures CreateBrief(svc, session, title, timeMin, timeMax).result == Returned("")
  {
    var items := svc.calendarList.value;
    CollectEmptyIff(if items.Some? then items.value else [], svc.events, timeMin, timeMax);
    NoEventsFound(svc, session, title, timeMin, timeMax);
  }

  /** With groups to brief on, the model is called last, once, with the
      composed system prompt and the title as prompt. A stream that
      completes has each text delta forwarded in order and nothing else
      written, and the result is the texts concatenated; a stream that
      throws keeps what it forwarded, adds one calendar error notice, and
      the result is empty. */
  lemma Drafting(svc: Services, session: Session, title: string, timeMin: string, timeMax: string)
    requires Credentials(svc.accounts(session.userId, Provider)).Some?
    requires svc.calendarList.Returned?
    requires var gs := Collect(if svc.calendarList.value.Some? then svc.calendarList.value.value else [],
                               svc.events, timeMin, timeMax).groups;
      gs.Returned? && gs.value != []
    ensures var r := CreateBrief(svc, session, title, timeMin, timeMax);
      var gs := Collect(if svc.calendarList.value.Some? then svc.calendarList.value.value else [],
                        svc.events, timeMin, timeMax).groups.value;
      var s := svc.model(SystemPrompt(gs), title);
      r.calls[|r.calls| - 1] == StreamText(SystemPrompt(gs), title) &&
      (forall i :: 0 <= i < |r.calls| - 1 ==> !r.calls[i].StreamText?) &&
      r.writes == TextWrites(TextsOf(s.deltas)) +
                  (if s.failure.Some? then [DataTextDelta(CalendarErrorText(s.failure.value))] else []) &&
      r.result == (if s.failure.Some? then Returned("") else Returned(Concat(TextsOf(s.deltas))))
  {
    var items := svc.calendarList.value;
    var cals := if items.Some? then items.value else [];
    var c := Collect(cals, svc.events, timeMin, timeMax);
    var system := SystemPrompt(c.groups.value);
    var s := svc.model(system, title);
    var before := [LookupAccounts(session.userId, Provider), ListCalendars] + c.calls;
    var r := CreateBrief(svc, session, title, timeMin, timeMax);
    assert r.calls == before + [StreamText(system, title)] by {
      DraftingCalls(svc, title, timeMin, timeMax);
    }
    assert forall x :: x in before ==> !x.StreamText? by {
      CollectCalls(cals, svc.events, timeMin, timeMax);
    }
    forall i | 0 <= i < |r.calls| - 1
      ensures !r.calls[i].StreamText?
    {
      assert r.calls[i] == before[i];
    }
    if s.failure.None? {
      assert r.writes == TextWrites(TextsOf(s.deltas)) + [];
    }
  }

  /** The calls of the `try` block when there are groups: the calendar
      list, the event fetches, then the model. */
  lemma DraftingCalls(svc: Services, title: string, timeMin: string, timeMax: string)
    requires svc.calendarList.Returned?
    requires var gs := Collect(if svc.calendarList.value.Some? then svc.calendarList.value.value else [],
                               svc.events, timeMin, timeMax).groups;
      gs.Returned? && gs.value != []
    ensures var c := Collect(if svc.calendarList.value.Some? then svc.calendarList.value.value else [],
                             svc.events, timeMin, timeMax);
      FetchAndDraft(svc, title, timeMin, timeMax).calls
        == [ListCalendars] + c.calls + [StreamText(SystemPrompt(c.groups.value), title)]
  {
  }

  /** The result is empty on every path except a completed model stream,
      whose draft it then is. */
  lemma EmptyUnlessDrafted(svc: Services, session: Session, title: string, timeMin: string, timeMax: string)
    ensures var r := CreateBrief(svc, session, title, timeMin, timeMax);
      r.result == Returned("") ||
      (r.calls[|r.calls| - 1].StreamText? &&
       var s := svc.model(r.calls[|r.calls| - 1].system, title);
       s.failure.None? && r.result == Returned(Concat(TextsOf(s.deltas))))
  {
  }

  /** `onUpdateDocument` calls the model once, with the update prompt for
      the current content and the description as prompt. It forwards each
      text delta in order and nothing else;
      a completed stream returns the texts concatenated and a throwing
      stream propagates its error instead of returning "". */
  lemma UpdateForwards(svc: Services, updatePrompt: (string, string) -> string, content: string, description: string)
    ensures var r := UpdateBrief(svc, updatePrompt, content, description);
      var s := svc.model(updatePrompt(content, "brief"), description);
      r.calls == [StreamText(updatePrompt(content, "brief"), description)] &&
      r.writes == TextWrites(TextsOf(s.deltas)) &&
      (forall p :: p in r.writes ==> p.DataTextDelta?) &&
      (s.failure.None? ==> r.result == Returned(Concat(TextsOf(s.deltas)))) &&
      (s.failure.Some? ==> r.result == Threw(s.failure.value))
  {
    var s := svc.model(updatePrompt(content, "brief"), description);
    TextWritesAreTextDeltas(TextsOf(s.deltas));
  }
}
