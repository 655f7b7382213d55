/** The `calendar` tool: list, create, update and delete events on a
    Google calendar and list the calendars. The Calendar API is an input
    (`CalendarApi`); the arguments the tool checks, the event it builds or
    merges and the listings it writes are modelled. */
module Calendar {
  import opened Common
  import opened ToolArgs

  // =====================================================================
  // Events
  // =====================================================================

  /** An event boundary: a timed `dateTime` or, for an all-day event, a `date`. */
  datatype When = When(dateTime: string, date: string)

  datatype EventData = EventData(
    id: string, summary: string, description: string, location: string,
    start: When, end: When, attendees: seq<string>, htmlLink: string)

  datatype CalendarEntry = CalendarEntry(id: string, summary: string, primary: bool)

  const DefaultCalendar: string := "primary"
  const DefaultMaxResults: int := 10

  /** `calendarID`. */
  function CalendarID(args: Args): string {
    match NonEmptyArg(args, "calendar_id")
    case Some(id) => id
    case None => DefaultCalendar
  }

  /** The calendar is the one named, and "primary" when none is named. */
  lemma CalendarIDChoice(args: Args)
    ensures StringOr(args, "calendar_id") != "" ==> CalendarID(args) == StringOr(args, "calendar_id")
    ensures StringOr(args, "calendar_id") == "" ==> CalendarID(args) == DefaultCalendar
    ensures CalendarID(args) != ""
  {
  }

  // =====================================================================
  // Attendees: split on commas, trim, drop the empty items
  // =====================================================================

  /** A usable attendee address: non-empty and without surrounding space. */
  predicate Clean(e: string) {
    e != "" && !IsSpace(e[0]) && !IsSpace(e[|e| - 1])
  }

  /** The trimmed, non-empty pieces, in order. */
  function Cleaned(pieces: seq<string>): (r: seq<string>)
    ensures |r| <= |pieces|
    ensures forall k :: 0 <= k < |r| ==> Clean(r[k])
  {
    if pieces == [] then []
    else
      var e := TrimSpace(pieces[0]);
      (if e != "" then [e] else []) + Cleaned(pieces[1..])
  }

  /** The attendee list an `attendees` argument stands for. */
  function Attendees(s: string): seq<string> {
    Cleaned(Split(s, ','))
  }

  lemma {:induction false} CleanedAppend(a: seq<string>, b: seq<string>)
    ensures Cleaned(a + b) == Cleaned(a) + Cleaned(b)
    decreases |a|
  {
    if a == [] {
      assert a + b == b;
    } else {
      assert (a + b)[0] == a[0] && (a + b)[1..] == a[1..] + b;
      CleanedAppend(a[1..], b);
    }
  }

  /** Pieces that are already clean pass through unchanged. */
  lemma {:induction false} CleanedOfClean(pieces: seq<string>)
    requires forall k :: 0 <= k < |pieces| ==> Clean(pieces[k])
    ensures Cleaned(pieces) == pieces
  {
    if pieces != [] {
      TrimSpaceOfNonSpace(pieces[0]);
      CleanedOfClean(pieces[1..]);
    }
  }

  /** A list written as clean addresses separated by bare commas is read
      back exactly, and joining it again gives the argument. */
  lemma AttendeesRoundTrip(s: string)
    requires forall k :: 0 <= k < |Split(s, ',')| ==> Clean(Split(s, ',')[k])
    ensures Attendees(s) == Split(s, ',')
    ensures Join(Attendees(s), [',']) == s
  {
    CleanedOfClean(Split(s, ','));
    JoinSplit(s, ',');
  }

  /** The list is empty exactly when every item trims to nothing, as in
      " , ,". */
  lemma {:induction false} CleanedEmpty(pieces: seq<string>)
    ensures Cleaned(pieces) == [] <==> forall k :: 0 <= k < |pieces| ==> TrimSpace(pieces[k]) == ""
  {
    if pieces != [] {
      CleanedEmpty(pieces[1..]);
      assert forall k :: 1 <= k < |pieces| ==> pieces[k] == pieces[1..][k - 1];
    }
  }

  /** The split-trim-append loop of `createEvent` and `updateEvent`. */
  method ParseAttendees(s: string) returns (emails: seq<string>)
    ensures emails == Attendees(s)
  {
    var pieces := Split(s, ',');
    emails := [];
    for i := 0 to |pieces|
      invariant emails == Cleaned(pieces[..i])
    {
      assert pieces[..i + 1] == pieces[..i] + [pieces[i]];
      CleanedAppend(pieces[..i], [pieces[i]]);
      assert [pieces[i]][1..] == [];
      var email := TrimSpace(pieces[i]);
      if email != "" {
        emails := emails + [email];
      }
    }
    assert pieces[..|pieces|] == pieces;
  }

  // =====================================================================
  // update_event: the merge
  // =====================================================================

  /** A text field after an update: the argument when it is a non-empty
      string, the fetched value otherwise. */
  function Override(current: string, args: Args, key: string): string {
    match NonEmptyArg(args, key)
    case Some(v) => v
    case None => current
  }

  /** A boundary after an update: a new timed boundary replaces the whole
      fetched one, all-day date included. */
  function OverrideWhen(current: When, args: Args, key: string): When {
    match NonEmptyArg(args, key)
    case Some(v) => When(v, "")
    case None => current
  }

  /** The event `updateEvent` submits for the fetched event `e`. */
  function Merged(e: EventData, args: Args): EventData {
    e.(summary := Override(e.summary, args, "summary"),
       description := Override(e.description, args, "description"),
       location := Override(e.location, args, "location"),
       start := OverrideWhen(e.start, args, "start"),
       end := OverrideWhen(e.end, args, "end"),
       attendees := match NonEmptyArg(args, "attendees")
                    case Some(a) => Attendees(a)
                    case None => e.attendees)
  }

  const UpdateKeys: seq<string> := ["summary", "description", "location", "start", "end", "attendees"]

  /** Arguments that set nothing leave the fetched event as it was. */
  lemma MergeWithoutUpdates(e: EventData, args: Args)
    requires forall k :: 0 <= k < |UpdateKeys| ==> StringOr(args, UpdateKeys[k]) == ""
    ensures Merged(e, args) == e
  {
    assert StringOr(args, UpdateKeys[0]) == "" && StringOr(args, UpdateKeys[1]) == "";
    assert StringOr(args, UpdateKeys[2]) == "" && StringOr(args, UpdateKeys[3]) == "";
    assert StringOr(args, UpdateKeys[4]) == "" && StringOr(args, UpdateKeys[5]) == "";
  }

  /** Applying the same update twice is the same as applying it once. */
  lemma MergeIdempotent(e: EventData, args: Args)
    ensures Merged(Merged(e, args), args) == Merged(e, args)
  {
  }

  /** A later update overrides an earlier one field by field: a field the
      later one sets takes its value, the others keep the earlier result. */
  lemma MergeLaterWins(e: EventData, a: Args, b: Args)
    ensures var m := Merged(Merged(e, a), b);
      && m.id == e.id && m.htmlLink == e.htmlLink
      && (StringOr(b, "summary") != "" ==> m.summary == StringOr(b, "summary"))
      && (StringOr(b, "summary") == "" ==> m.summary == Merged(e, a).summary)
      && (StringOr(b, "attendees") != "" ==> m.attendees == Attendees(StringOr(b, "attendees")))
      && (StringOr(b, "attendees") == "" ==> m.attendees == Merged(e, a).attendees)
  {
  }

  /** The fetched event, updated in place. */
  class Event {
    var id: string
    var summary: string
    var description: string
    var location: string
    var start: When
    var end: When
    var attendees: seq<string>
    var htmlLink: string

    function Data(): EventData
      reads this
    {
      EventData(id, summary, description, location, start, end, attendees, htmlLink)
    }

    constructor (d: EventData)
      ensures Data() == d
    {
      id, summary, description, location := d.id, d.summary, d.description, d.location;
      start, end, attendees, htmlLink := d.start, d.end, d.attendees, d.htmlLink;
    }

    /** The "Apply updates" block of `updateEvent`. */
    method Apply(args: Args)
      modifies this
      ensures Data() == Merged(old(Data()), args)
    {
      ghost var before := Data();
      ApplyText(args);
      ApplyTimes(args);
      ApplyAttendees(args);
      assert id == before.id && htmlLink == before.htmlLink;
      assert summary == Merged(before, args).summary && attendees == Merged(before, args).attendees;
    }

    method ApplyText(args: Args)
      modifies this`summary, this`description, this`location
      ensures summary == Override(old(summary), args, "summary")
      ensures description == Override(old(description), args, "description")
      ensures location == Override(old(location), args, "location")
    {
      var v := StringOr(args, "summary");
      if v != "" { summary := v; }
      v := StringOr(args, "description");
      if v != "" { description := v; }
      v := StringOr(args, "location");
      if v != "" { location := v; }
    }

    method ApplyTimes(args: Args)
      modifies this`start, this`end
      ensures start == OverrideWhen(old(start), args, "start")
      ensures end == OverrideWhen(old(end), args, "end")
    {
      var v := StringOr(args, "start");
      if v != "" { start := When(v, ""); }
      v := StringOr(args, "end");
      if v != "" { end := When(v, ""); }
    }

    /** A non-empty `attendees` argument replaces the whole list. */
    method ApplyAttendees(args: Args)
      modifies this`attendees
      ensures attendees == match NonEmptyArg(args, "attendees")
                           case Some(a) => Attendees(a)
                           case None => old(attendees)
    {
      var v := StringOr(args, "attendees");
      if v != "" {
        attendees := ParseAttendees(v);
      }
    }
  }

  // =====================================================================
  // create_event
  // =====================================================================

  const CreateRequired: string := "summary, start, and end are required for create_event"

  /** The event `createEvent` submits, or nothing when a required argument
      is missing. */
  function Requested(args: Args): Option<EventData> {
    var summary := StringOr(args, "summary");
    var start := StringOr(args, "start");
    var end := StringOr(args, "end");
    if summary == "" || start == "" || end == "" then None
    else
      var attendees := StringOr(args, "attendees");
      Some(EventData("", summary, StringOr(args, "description"), StringOr(args, "location"),
                     When(start, ""), When(end, ""),
                     if attendees != "" then Attendees(attendees) else [], ""))
  }

  /** Updating a freshly requested event with the arguments it was created
      from changes nothing: create and update read the arguments alike. */
  lemma CreateAgreesWithUpdate(args: Args)
    requires Requested(args).Some?
    ensures Merged(Requested(args).value, args) == Requested(args).value
  {
  }

  /** A created event has the requested title and timed boundaries and an
      attendee list without blank entries. */
  lemma CreatedShape(args: Args)
    requires Requested(args).Some?
    ensures var e := Requested(args).value;
      && e.summary == StringOr(args, "summary") != ""
      && e.start == When(StringOr(args, "start"), "") && e.end == When(StringOr(args, "end"), "")
      && forall k :: 0 <= k < |e.attendees| ==> Clean(e.attendees[k])
  {
  }

  /** Building the event of `createEvent`. */
  method BuildEvent(args: Args) returns (r: Option<EventData>)
    ensures r == Requested(args)
  {
    var summary := StringOr(args, "summary");
    var start := StringOr(args, "start");
    var end := StringOr(args, "end");
    if summary == "" || start == "" || end == "" {
      return None;
    }
    var ev := EventData("", summary, "", "", When(start, ""), When(end, ""), [], "");
    var desc := StringOr(args, "description");
    if desc != "" {
      ev := ev.(description := desc);
    }
    var loc := StringOr(args, "location");
    if loc != "" {
      ev := ev.(location := loc);
    }
    var attendees := StringOr(args, "attendees");
    if attendees != "" {
      var emails := ParseAttendees(attendees);
      ev := ev.(attendees := emails);
    }
    r := Some(ev);
  }

  // =====================================================================
  // list_events and list_calendars: the listings
  // =====================================================================

  /** The boundary shown: the timed one, else the all-day date. */
  function Shown(w: When): string {
    if w.dateTime == "" then w.date else w.dateTime
  }

  const DescriptionLimit: nat := 200

  function ClipDescription(d: string): string {
    if |d| > DescriptionLimit then d[..DescriptionLimit] + "..." else d
  }

  /** A long description keeps its first 200 characters followed by "...";
      a short one is shown whole. */
  lemma ClipDescriptionBounds(d: string)
    ensures |ClipDescription(d)| <= DescriptionLimit + 3
    ensures |d| <= DescriptionLimit ==> ClipDescription(d) == d
    ensures |d| > DescriptionLimit ==>
      (|ClipDescription(d)| == DescriptionLimit + 3
       && HasPrefix(d, ClipDescription(d)[..DescriptionLimit])
       && HasSuffix(ClipDescription(d), "..."))
  {
    var r := ClipDescription(d);
    if |d| > DescriptionLimit {
      assert r[..DescriptionLimit] == d[..DescriptionLimit];
      assert r[|r| - 3..] == "...";
    }
  }

  function OptionalLine(name: string, value: string): string {
    if value != "" then "   " + name + ": " + value + "\n" else ""
  }

  /** The first lines of an entry: number, title, id and boundaries. */
  function EntryHead(n: int, summary: string, id: string, start: string, end: string): string {
    Itoa(n) + ". " + summary + "\n   ID: " + id + "\n   Start: " + start + "\n   End: " + end + "\n"
  }

  /** The entry for the `n`-th event. */
  function EventEntry(n: int, ev: EventData): string {
    EntryHead(n, ev.summary, ev.id, Shown(ev.start), Shown(ev.end))
      + OptionalLine("Location", ev.location)
      + OptionalLine("Description", ClipDescription(ev.description))
      + "\n"
  }

  function EventEntries(evs: seq<EventData>, n: int): string {
    Numbered(EventEntry, evs, n)
  }

  /** Entries follow the order of the listing and are numbered by position. */
  lemma EventEntriesAppend(a: seq<EventData>, b: seq<EventData>, n: int)
    ensures EventEntries(a + b, n) == EventEntries(a, n) + EventEntries(b, n + |a|)
  {
    NumberedAppend(EventEntry, a, b, n);
  }

  lemma EventEntriesSnoc(evs: seq<EventData>, i: nat)
    requires i < |evs|
    ensures EventEntries(evs[..i + 1], 1) == EventEntries(evs[..i], 1) + EventEntry(i + 1, evs[i])
  {
    NumberedSnoc(EventEntry, evs, i, 1);
  }

  function EventsText(evs: seq<EventData>): string {
    "Events (" + Itoa(|evs|) + "):\n\n" + EventEntries(evs, 1)
  }

  /** The entry for one event, with its optional lines. */
  method FormatEvent(n: int, ev: EventData) returns (e: string)
    ensures e == EventEntry(n, ev)
  {
    var start := ev.start.dateTime;
    if start == "" {
      start := ev.start.date;
    }
    var end := ev.end.dateTime;
    if end == "" {
      end := ev.end.date;
    }
    e := EntryHead(n, ev.summary, ev.id, start, end);
    var location := OptionalLine("Location", ev.location);
    if ev.location != "" {
      e := e + location;
    } else {
      assert e + location == e;
    }
    var description := OptionalLine("Description", ClipDescription(ev.description));
    if ev.description != "" {
      var desc := ev.description;
      if |desc| > DescriptionLimit {
        desc := desc[..DescriptionLimit] + "...";
      }
      e := e + OptionalLine("Description", desc);
    } else {
      assert e + description == e;
    }
    e := e + "\n";
  }

  /** The loop of `listEvents`. */
  method FormatEvents(evs: seq<EventData>) returns (s: string)
    ensures s == EventsText(evs)
  {
    var lead := "Events (" + Itoa(|evs|) + "):\n\n";
    s := lead;
    for i := 0 to |evs|
      invariant s == lead + EventEntries(evs[..i], 1)
    {
      EventEntriesSnoc(evs, i);
      var e := FormatEvent(i + 1, evs[i]);
      AppendAssoc(lead, EventEntries(evs[..i], 1), e);
      s := s + e;
    }
    assert evs[..|evs|] == evs;
  }

  function CalendarLine(c: CalendarEntry): string {
    "- " + c.summary + (if c.primary then " (primary)" else "") + " (ID: " + c.id + ")\n"
  }

  function CalendarLines(cs: seq<CalendarEntry>): string {
    if cs == [] then "" else CalendarLine(cs[0]) + CalendarLines(cs[1..])
  }

  /** One line per calendar, in the order listed. */
  lemma {:induction false} CalendarLinesAppend(a: seq<CalendarEntry>, b: seq<CalendarEntry>)
    ensures CalendarLines(a + b) == CalendarLines(a) + CalendarLines(b)
    decreases |a|
  {
    if a == [] {
      assert a + b == b;
    } else {
      assert (a + b)[0] == a[0] && (a + b)[1..] == a[1..] + b;
      CalendarLinesAppend(a[1..], b);
      AppendAssoc(CalendarLine(a[0]), CalendarLines(a[1..]), CalendarLines(b));
    }
  }

  /** The loop of `listCalendars`. */
  method FormatCalendars(cs: seq<CalendarEntry>) returns (s: string)
    ensures s == "Calendars:\n" + CalendarLines(cs)
  {
    s := "Calendars:\n";
    for i := 0 to |cs|
      invariant s == "Calendars:\n" + CalendarLines(cs[..i])
    {
      assert cs[..i + 1] == cs[..i] + [cs[i]];
      CalendarLinesAppend(cs[..i], [cs[i]]);
      assert [cs[i]][1..] == [];
      AppendAssoc("Calendars:\n", CalendarLines(cs[..i]), CalendarLine(cs[i]));
      s := s + CalendarLine(cs[i]);
    }
    assert cs[..|cs|] == cs;
  }

  // =====================================================================
  // Execute
  // =====================================================================

  /** The Calendar API as the tool sees it. `service` is the error of
      `calendar.NewService`, if any; `now` and `weekLater` are the current
      time and the time seven days on, in RFC 3339 form; `delete` answers
      with its error, if any. */
  datatype CalendarApi = CalendarApi(
    service: Option<string>,
    now: string,
    weekLater: string,
    list: (string, string, string, int) -> Result<seq<EventData>>,
    get: (string, string) -> Result<EventData>,
    insert: (string, EventData) -> Result<EventData>,
    update: (string, string, EventData) -> Result<EventData>,
    delete: (string, string) -> Option<string>,
    calendars: Result<seq<CalendarEntry>>)

  /** A tool result and the event handed to `Insert` or `Update`, if any. */
  datatype Effect = Effect(result: ToolResult, submitted: Option<EventData>)

  const Actions: seq<string> := ["list_events", "create_event", "update_event", "delete_event", "list_calendars"]

  /** The time window of `listEvents`: the given bounds, by default from
      now to a week from now. */
  function Window(args: Args, api: CalendarApi): (string, string) {
    (Override(api.now, args, "time_min"), Override(api.weekLater, args, "time_max"))
  }

  function ListOutcome(args: Args, api: CalendarApi): ToolResult {
    var w := Window(args, api);
    match api.list(CalendarID(args), w.0, w.1, PositiveOr(args, "max_results", DefaultMaxResults))
    case Err(e) => ErrorResult("failed to list events: " + e)
    case Ok(evs) =>
      if evs == [] then SilentResult("No events found in that range.")
      else SilentResult(EventsText(evs))
  }

  function CreateOutcome(args: Args, api: CalendarApi): Effect {
    match Requested(args)
    case None => Effect(ErrorResult(CreateRequired), None)
    case Some(ev) =>
      match api.insert(CalendarID(args), ev)
      case Err(e) => Effect(ErrorResult("failed to create event: " + e), Some(ev))
      case Ok(c) => Effect(SilentResult("Event created: " + c.summary + "\nID: " + c.id + "\nLink: " + c.htmlLink), Some(ev))
  }

  function UpdateOutcome(args: Args, api: CalendarApi): Effect {
    var eventID := StringOr(args, "event_id");
    if eventID == "" then Effect(ErrorResult("event_id is required for update_event"), None)
    else
      match api.get(CalendarID(args), eventID)
      case Err(e) => Effect(ErrorResult("failed to get event: " + e), None)
      case Ok(fetched) =>
        var ev := Merged(fetched, args);
        match api.update(CalendarID(args), eventID, ev)
        case Err(e) => Effect(ErrorResult("failed to update event: " + e), Some(ev))
        case Ok(u) => Effect(SilentResult("Event updated: " + u.summary + " (ID: " + u.id + ")"), Some(ev))
  }

  function DeleteOutcome(args: Args, api: CalendarApi): ToolResult {
    var eventID := StringOr(args, "event_id");
    if eventID == "" then ErrorResult("event_id is required for delete_event")
    else
      match api.delete(CalendarID(args), eventID)
      case Some(e) => ErrorResult("failed to delete event: " + e)
      case None => SilentResult("Event deleted (ID: " + eventID + ")")
  }

  function CalendarsOutcome(api: CalendarApi): ToolResult {
    match api.calendars
    case Err(e) => ErrorResult("failed to list calendars: " + e)
    case Ok(cs) => SilentResult("Calendars:\n" + CalendarLines(cs))
  }

  /** What `Execute` returns and submits for the given arguments. */
  function Outcome(args: Args, api: CalendarApi): Effect {
    var action := StringOr(args, "action");
    if api.service.Some? then Effect(ErrorResult("calendar service error: " + api.service.value), None)
    else if action == "list_events" then Effect(ListOutcome(args, api), None)
    else if action == "create_event" then CreateOutcome(args, api)
    else if action == "update_event" then UpdateOutcome(args, api)
    else if action == "delete_event" then Effect(DeleteOutcome(args, api), None)
    else if action == "list_calendars" then Effect(CalendarsOutcome(api), None)
    else Effect(ErrorResult("unknown calendar action: " + action), None)
  }

  /** `delete_event` needs an event id, reports a failed deletion with the
      service's error, and otherwise confirms the id; it submits nothing. */
  lemma DeleteRules(args: Args, api: CalendarApi)
    requires api.service.None? && StringOr(args, "action") == "delete_event"
    ensures Outcome(args, api).submitted.None?
    ensures StringOr(args, "event_id") == "" ==>
      Outcome(args, api).result == ErrorResult("event_id is required for delete_event")
    ensures StringOr(args, "event_id") != "" ==>
      var e := api.delete(CalendarID(args), StringOr(args, "event_id"));
      Outcome(args, api).result ==
        if e.Some? then ErrorResult("failed to delete event: " + e.value)
        else SilentResult("Event deleted (ID: " + StringOr(args, "event_id") + ")")
  {
  }

  /** Any other action is an error and submits nothing. */
  lemma UnknownAction(args: Args, api: CalendarApi)
    requires api.service.None? && StringOr(args, "action") !in Actions
    ensures Outcome(args, api) == Effect(ErrorResult("unknown calendar action: " + StringOr(args, "action")), None)
  {
  }

  /** An event is submitted only by create and update: a created one is the
      requested event, an updated one is the fetched event merged with the
      arguments. */
  lemma SubmittedEvents(args: Args, api: CalendarApi)
    requires Outcome(args, api).submitted.Some?
    ensures var action := StringOr(args, "action");
      var ev := Outcome(args, api).submitted.value;
      && api.service.None?
      && (action == "create_event" || action == "update_event")
      && (action == "create_event" ==> Requested(args) == Some(ev))
      && (action == "update_event" ==>
            (StringOr(args, "event_id") != ""
             && api.get(CalendarID(args), StringOr(args, "event_id")).Ok?
             && ev == Merged(api.get(CalendarID(args), StringOr(args, "event_id")).value, args)))
  {
  }

  /** `listEvents` asks for at most `max_results` events, 10 by default, in
      the window the arguments give. */
  lemma ListQuery(args: Args, api: CalendarApi)
    ensures var w := Window(args, api);
      && (StringOr(args, "time_min") == "" ==> w.0 == api.now)
      && (StringOr(args, "time_max") == "" ==> w.1 == api.weekLater)
      && (StringOr(args, "time_min") != "" ==> w.0 == StringOr(args, "time_min"))
      && PositiveOr(args, "max_results", DefaultMaxResults) > 0
  {
  }

  method ListEvents(args: Args, api: CalendarApi) returns (r: ToolResult)
    ensures r == ListOutcome(args, api)
  {
    var calID := CalendarID(args);
    var timeMin := api.now;
    var timeMax := api.weekLater;
    var v := StringOr(args, "time_min");
    if v != "" { timeMin := v; }
    v := StringOr(args, "time_max");
    if v != "" { timeMax := v; }
    var maxResults := DefaultMaxResults;
    var n := NumberArg(args, "max_results");
    if n.Some? && n.value > 0 {
      maxResults := n.value;
    }
    var events := api.list(calID, timeMin, timeMax, maxResults);
    if events.Err? {
      return ErrorResult("failed to list events: " + events.msg);
    }
    if events.value == [] {
      return SilentResult("No events found in that range.");
    }
    var text := FormatEvents(events.value);
    r := SilentResult(text);
  }

  method CreateEvent(args: Args, api: CalendarApi) returns (r: ToolResult, submitted: Option<EventData>)
    ensures Effect(r, submitted) == CreateOutcome(args, api)
  {
    var ev := BuildEvent(args);
    if ev.None? {
      return ErrorResult(CreateRequired), None;
    }
    submitted := ev;
    var created := api.insert(CalendarID(args), ev.value);
    if created.Err? {
      r := ErrorResult("failed to create event: " + created.msg);
    } else {
      var c := created.value;
      r := SilentResult("Event created: " + c.summary + "\nID: " + c.id + "\nLink: " + c.htmlLink);
    }
  }

  method UpdateEvent(args: Args, api: CalendarApi) returns (r: ToolResult, submitted: Option<EventData>)
    ensures Effect(r, submitted) == UpdateOutcome(args, api)
  {
    var calID := CalendarID(args);
    var eventID := StringOr(args, "event_id");
    if eventID == "" {
      return ErrorResult("event_id is required for update_event"), None;
    }
    var got := api.get(calID, eventID);
    if got.Err? {
      return ErrorResult("failed to get event: " + got.msg), None;
    }
    var ev := new Event(got.value);
    ev.Apply(args);
    var data := ev.Data();
    submitted := Some(data);
    var updated := api.update(calID, eventID, data);
    if updated.Err? {
      r := ErrorResult("failed to update event: " + updated.msg);
    } else {
      r := SilentResult("Event updated: " + updated.value.summary + " (ID: " + updated.value.id + ")");
    }
  }

  method ListCalendars(api: CalendarApi) returns (r: ToolResult)
    ensures r == CalendarsOutcome(api)
  {
    if api.calendars.Err? {
      return ErrorResult("failed to list calendars: " + api.calendars.msg);
    }
    var text := FormatCalendars(api.calendars.value);
    r := SilentResult(text);
  }

  /** `Execute`: create the service, then dispatch on the action. */
  method Execute(args: Args, api: CalendarApi) returns (r: ToolResult, submitted: Option<EventData>)
    ensures Effect(r, submitted) == Outcome(args, api)
  {
    var action := StringOr(args, "action");
    submitted := None;
    if api.service.Some? {
      return ErrorResult("calendar service error: " + api.service.value), None;
    }
    if action == "list_events" {
      r := ListEvents(args, api);
    } else if action == "create_event" {
      r, submitted := CreateEvent(args, api);
    } else if action == "update_event" {
      r, submitted := UpdateEvent(args, api);
    } else if action == "delete_event" {
      r := DeleteOutcome(args, api);
    } else if action == "list_calendars" {
      r := ListCalendars(api);
    } else {
      r := ErrorResult("unknown calendar action: " + action);
    }
  }
}
