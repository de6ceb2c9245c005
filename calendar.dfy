/** The values the brief handler reads from the Google Calendar API
    (version 3), reduced to the fields it uses. Absent fields (`null` or
    `undefined`) are `None`. */
module Calendar {
  import opened Values

  /** An entry of the user's calendar list. */
  datatype CalendarListEntry = CalendarListEntry(id: Option<string>, summary: Option<string>)

  /** When an event starts: a date and time, or a date for all-day events. */
  datatype EventStart = EventStart(dateTime: Option<string>, date: Option<string>)

  /** An event as the events list returns it. */
  datatype CalendarEvent = CalendarEvent(summary: Option<string>, start: Option<EventStart>)

  /** The events of one calendar, under the label the prompt shows for its calendar
      (an entry of `allEvents`). */
  datatype Group = Group(calendar: string, events: seq<CalendarEvent>)
}
