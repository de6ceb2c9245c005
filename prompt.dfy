/** The system prompt of the brief handler (artifacts/brief/server.ts:93):
    a fixed preamble, then one section per calendar group. Each section is a
    heading with the calendar's label and one bullet line per event.

    The sections come from `allEvents.flatMap(...)`, an array of strings,
    interpolated into a template literal. JavaScript turns that array into a
    string with `join(",")`, so consecutive sections are separated by a comma.
    The model keeps that comma. */
module BriefPrompt {
  import opened Values
  import opened Calendar

  const Preamble: string :=
    "Using Markdown, generate a detailed brief book for the upcoming calendar events so I'm properly briefed on all events: "

  /** Shown for an event whose summary is absent or empty. */
  const NoTitle: string := "(No title)"

  /** `e.start?.dateTime || e.start?.date || ''`. */
  function StartText(e: CalendarEvent): string {
    match e.start
    case None => ""
    case Some(st) => Or(st.dateTime, Or(st.date, ""))
  }

  /** `- <summary or placeholder> (<start>)`. */
  function EventLine(e: CalendarEvent): string {
    "- " + Or(e.summary, NoTitle) + " (" + StartText(e) + ")"
  }

  function EventLines(es: seq<CalendarEvent>): seq<string> {
    seq(|es|, i requires 0 <= i < |es| => EventLine(es[i]))
  }

  function Heading(name: string): string {
    "\n### " + name + "\n"
  }

  /** One calendar: its heading, then its event lines joined by newlines. */
  function Section(g: Group): string {
    Heading(g.calendar) + Join(EventLines(g.events), "\n")
  }

  function Sections(gs: seq<Group>): seq<string> {
    seq(|gs|, i requires 0 <= i < |gs| => Section(gs[i]))
  }

  /** A preamble followed by the sections of the groups. */
  function Prompt(preamble: string, gs: seq<Group>): string {
    preamble + Join(Sections(gs), ",")
  }

  /** The `system` argument given to the model. */
  function SystemPrompt(gs: seq<Group>): string {
    Prompt(Preamble, gs)
  }

  /** Where the section of group `k` begins after a preamble of length `n`. */
  function SectionStart(n: nat, gs: seq<Group>, k: nat): nat
    requires k < |gs|
  {
    n + JoinOffset(Sections(gs), ",", k)
  }

  /** Where the line of event `m` of group `k` begins after a preamble of length `n`. */
  function LineStart(n: nat, gs: seq<Group>, k: nat, m: nat): nat
    requires k < |gs| && m < |gs[k].events|
  {
    SectionStart(n, gs, k) + |Heading(gs[k].calendar)| + JoinOffset(EventLines(gs[k].events), "\n", m)
  }

  /** The placeholder is used exactly when the summary is absent or empty,
      and the start is the date-time, else the date, else nothing. */
  lemma EventLineFallbacks(e: CalendarEvent)
    ensures Truthy(e.summary) ==> EventLine(e) == "- " + e.summary.value + " (" + StartText(e) + ")"
    ensures !Truthy(e.summary) ==> EventLine(e) == "- (No title) (" + StartText(e) + ")"
    ensures e.start.Some? && Truthy(e.start.value.dateTime) ==> StartText(e) == e.start.value.dateTime.value
    ensures e.start.Some? && !Truthy(e.start.value.dateTime) && Truthy(e.start.value.date) ==>
      StartText(e) == e.start.value.date.value
    ensures (e.start.None? || (!Truthy(e.start.value.dateTime) && !Truthy(e.start.value.date))) ==>
      StartText(e) == ""
  {
  }

  /** The prompt opens with the preamble, and section `k` stands verbatim at
      its place after it; a comma separates it from the next section. The
      preamble is a parameter here; the model's system prompt uses
      `Preamble`. */
  lemma SectionInPrompt(preamble: string, gs: seq<Group>, k: nat)
    requires k < |gs|
    ensures StandsAt(Prompt(preamble, gs), 0, preamble)
    ensures StandsAt(Prompt(preamble, gs), SectionStart(|preamble|, gs, k), Section(gs[k]))
    ensures k + 1 < |gs| ==>
      StandsAt(Prompt(preamble, gs), SectionStart(|preamble|, gs, k) + |Section(gs[k])|, ",") &&
      SectionStart(|preamble|, gs, k + 1) == SectionStart(|preamble|, gs, k) + |Section(gs[k])| + 1
  {
    StandsFirst(preamble, Join(Sections(gs), ","));
    JoinAtAfter(preamble, Sections(gs), ",", k);
    assert Sections(gs)[k] == Section(gs[k]);
  }

  /** Every event of every group appears as its own line in the prompt,
      inside its group's section, after the heading with its calendar's
      label. */
  lemma EventInPrompt(preamble: string, gs: seq<Group>, k: nat, m: nat)
    requires k < |gs| && m < |gs[k].events|
    ensures StandsAt(Prompt(preamble, gs), SectionStart(|preamble|, gs, k), Heading(gs[k].calendar))
    ensures StandsAt(Prompt(preamble, gs), LineStart(|preamble|, gs, k, m), EventLine(gs[k].events[m]))
    ensures LineStart(|preamble|, gs, k, m) + |EventLine(gs[k].events[m])|
         <= SectionStart(|preamble|, gs, k) + |Section(gs[k])|
  {
    var p, at := Prompt(preamble, gs), SectionStart(|preamble|, gs, k);
    var h, lines := Heading(gs[k].calendar), EventLines(gs[k].events);
    var body, off := Join(lines, "\n"), JoinOffset(lines, "\n", m);
    assert StandsAt(p, at, h + body) by {
      SectionInPrompt(preamble, gs, k);
    }
    assert StandsAt(body, off, EventLine(gs[k].events[m])) by {
      JoinAt(lines, "\n", m);
      assert lines[m] == EventLine(gs[k].events[m]);
    }
    InBlock(p, at, h, body, off, EventLine(gs[k].events[m]));
  }

  /** Lines appear in the order of the groups, and within a group in the
      order of its events: an earlier event's line ends before a later
      event's line begins. */
  lemma EventsInOrder(n: nat, gs: seq<Group>, k: nat, m: nat, k': nat, m': nat)
    requires k < |gs| && m < |gs[k].events|
    requires k' < |gs| && m' < |gs[k'].events|
    requires k < k' || (k == k' && m < m')
    ensures LineStart(n, gs, k, m) + |EventLine(gs[k].events[m])| < LineStart(n, gs, k', m')
  {
    if k == k' {
      JoinOffsetMonotone(EventLines(gs[k].events), "\n", m, m');
    } else {
      var lines := EventLines(gs[k].events);
      JoinAt(lines, "\n", m);
      assert lines[m] == EventLine(gs[k].events[m]);
      JoinOffsetMonotone(Sections(gs), ",", k, k');
    }
  }

  /** With a single calendar there is no comma: the prompt is the preamble
      and that calendar's section. */
  lemma SingleGroupPrompt(g: Group)
    ensures SystemPrompt([g]) == Preamble + Heading(g.calendar) + Join(EventLines(g.events), "\n")
  {
  }
}
