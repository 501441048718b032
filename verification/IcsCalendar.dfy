// Calendar export, a strict reader for what RFC 5545 calls an iCalendar
// stream, and the import rules, with the round trip through all three.

module IcsCalendar {
  import opened Wrappers
  import opened Strings
  import opened IcsText
  import opened CivilTime

  // A calendar_events row. Times are naive instants in microseconds.
  datatype Event = Event(
    uid: string, calendar: string, summary: string, description: string, location: string,
    start: nat, end: nat, allDay: bool, isUtc: bool, rrule: string, status: string)

  // ---------------------------------------------------------------- export

  // Both dates have a year of four digits.
  predicate Printable(ev: Event) {
    FourDigitYear(ev.start) && FourDigitYear(ev.end)
  }

  // The rows an export reads.
  function Exported(rows: seq<Event>, calendar: string): (out: seq<Event>)
    ensures forall ev :: ev in out ==> ev in rows && Exports(ev, calendar)
  {
    if rows == [] then []
    else
      var r := rows[0];
      (if Exports(r, calendar) then [r] else []) + Exported(rows[1..], calendar)
  }

  predicate Exports(ev: Event, calendar: string) {
    ev.calendar == calendar && ev.status != "cancelled"
  }

  lemma {:induction false} ExportedConcat(rows: seq<Event>, more: seq<Event>, calendar: string)
    ensures Exported(rows + more, calendar) == Exported(rows, calendar) + Exported(more, calendar)
  {
    ExportedFirst(rows, calendar);
    ExportedFirst(rows + more, calendar);
    hide Exported, Exports;
    if rows == [] {
      assert rows + more == more;
    } else {
      ExportedConcat(rows[1..], more, calendar);
      assert (rows + more)[1..] == rows[1..] + more;
    }
  }

  lemma ExportedFirst(rows: seq<Event>, calendar: string)
    ensures Exported(rows, calendar)
         == if rows == [] then []
            else (if Exports(rows[0], calendar) then [rows[0]] else []) + Exported(rows[1..], calendar)
  {}

  // Every row of the calendar that is not cancelled, as often as it is there;
  // in the order of the rows, as ExportedConcat says.
  lemma {:induction false} ExportedRight(rows: seq<Event>, calendar: string, ev: Event)
    ensures multiset(Exported(rows, calendar))[ev] == if Exports(ev, calendar) then multiset(rows)[ev] else 0
  {
    hide Exports;
    if rows != [] {
      ExportedRight(rows[1..], calendar, ev);
      assert rows == [rows[0]] + rows[1..];
    }
  }

  // f"{name}:{value}"
  function Line(name: string, value: string): string {
    name + ":" + value
  }

  function Opening(ev: Event): seq<string> {
    [Line("BEGIN", "VEVENT"), Line("UID", ev.uid), Line("SUMMARY", Escape(ev.summary))]
  }

  function Zone(ev: Event): string {
    if ev.isUtc then "Z" else ""
  }

  function StampLines(ev: Event): seq<string> {
    if ev.allDay then
      [Line("DTSTART;VALUE=DATE", BasicDate(ev.start)), Line("DTEND;VALUE=DATE", BasicDate(ev.end))]
    else
      [Line("DTSTART", BasicDateTime(ev.start) + Zone(ev)), Line("DTEND", BasicDateTime(ev.end) + Zone(ev))]
  }

  function OptionalLine(name: string, value: string, printed: string): seq<string> {
    if value == "" then [] else [Line(name, printed)]
  }

  function OptionalLines(ev: Event): seq<string> {
    OptionalLine("DESCRIPTION", ev.description, Escape(ev.description))
    + OptionalLine("LOCATION", ev.location, Escape(ev.location))
    + OptionalLine("RRULE", ev.rrule, ev.rrule)
  }

  function EventLines(ev: Event): seq<string> {
    Opening(ev) + StampLines(ev) + OptionalLines(ev) + [Line("END", "VEVENT")]
  }

  function AllEventLines(evs: seq<Event>): seq<string> {
    if evs == [] then [] else AllEventLines(evs[..|evs| - 1]) + EventLines(evs[|evs| - 1])
  }

  function Preamble(calendarName: string): seq<string> {
    [Line("BEGIN", "VCALENDAR"), Line("VERSION", "2.0"), Line("PRODID", "-//Odysseus//Calendar//EN"),
     Line("X-WR-CALNAME", Escape(calendarName))]
  }

  function CalendarLines(calendarName: string, evs: seq<Event>): seq<string> {
    Preamble(calendarName) + AllEventLines(evs) + [Line("END", "VCALENDAR")]
  }

  // `export_ics`: one list of lines grown event by event, joined at the end.
  method Export(calendarName: string, evs: seq<Event>) returns (text: string)
    ensures text == Join(CalendarLines(calendarName, evs), "\r\n")
  {
    hide Line, Escape, Join, EventLines;
    var lines := [Line("BEGIN", "VCALENDAR"), Line("VERSION", "2.0"), Line("PRODID", "-//Odysseus//Calendar//EN"),
                  Line("X-WR-CALNAME", Escape(calendarName))];
    for i := 0 to |evs|
      invariant lines == Preamble(calendarName) + AllEventLines(evs[..i])
    {
      assert evs[..i + 1][..i] == evs[..i];
      lines := AppendEvent(lines, evs[i]);
    }
    assert evs[..|evs|] == evs;
    lines := lines + [Line("END", "VCALENDAR")];
    text := Join(lines, "\r\n");
  }

  // The body of that loop.
  method AppendEvent(lines0: seq<string>, ev: Event) returns (lines: seq<string>)
    ensures lines == lines0 + EventLines(ev)
  {
    hide Line, Escape, BasicDate, BasicDateTime, StampLines, OptionalLine;
    lines := lines0 + [Line("BEGIN", "VEVENT")];
    lines := lines + [Line("UID", ev.uid)];
    lines := lines + [Line("SUMMARY", Escape(ev.summary))];
    assert lines == lines0 + Opening(ev);
    hide Opening;
    lines := AppendStamps(lines, ev);
    lines := AppendOptional(lines, "DESCRIPTION", ev.description, Escape(ev.description));
    lines := AppendOptional(lines, "LOCATION", ev.location, Escape(ev.location));
    lines := AppendOptional(lines, "RRULE", ev.rrule, ev.rrule);
    assert lines == lines0 + Opening(ev) + StampLines(ev) + OptionalLines(ev);
    lines := lines + [Line("END", "VEVENT")];
  }

  method AppendStamps(lines0: seq<string>, ev: Event) returns (lines: seq<string>)
    ensures lines == lines0 + StampLines(ev)
  {
    hide Line, BasicDate, BasicDateTime;
    if ev.allDay {
      lines := lines0 + [Line("DTSTART;VALUE=DATE", BasicDate(ev.start))];
      lines := lines + [Line("DTEND;VALUE=DATE", BasicDate(ev.end))];
    } else {
      var suffix := if ev.isUtc then "Z" else "";
      lines := lines0 + [Line("DTSTART", BasicDateTime(ev.start) + suffix)];
      lines := lines + [Line("DTEND", BasicDateTime(ev.end) + suffix)];
    }
  }

  // `if value: lines.append(...)`
  method AppendOptional(lines0: seq<string>, name: string, value: string, printed: string) returns (lines: seq<string>)
    ensures lines == lines0 + OptionalLine(name, value, printed)
  {
    lines := lines0;
    if value != "" { lines := lines + [Line(name, printed)]; }
  }

  // ---------------------------------------------------------------- reader

  // A DATE, or a DATE-TIME in one of the three forms of section 3.3.5. A zoned
  // value carries its offset from UTC; the conversion to UTC has to stay in range.
  datatype RawStamp = DateValue(day: nat) | Floating(t: nat) | Utc(t: nat) | Zoned(wall: nat, offset: int)
  type Stamp = s: RawStamp | s.Zoned? ==> s.wall >= s.offset witness Floating(0)

  datatype Component = Component(
    uid: Option<string>, summary: Option<string>, description: Option<string>, location: Option<string>,
    dtstart: Option<Stamp>, dtend: Option<Stamp>, rrule: Option<string>)

  const NoProperties := Component(None, None, None, None, None, None, None)

  // Section 3.1: content lines end with CRLF, and a line starting with a space
  // or a tab continues the one before it.
  function SplitLines(s: string): (lines: seq<string>)
    ensures lines != []
    decreases |s|
  {
    if s == "" then [""]
    else if "\r\n" <= s then [""] + SplitLines(s[2..])
    else
      var rest := SplitLines(s[1..]);
      [[s[0]] + rest[0]] + rest[1..]
  }

  predicate Continues(line: string) {
    line != "" && line[0] in {' ', '\t'}
  }

  function Unfold(lines: seq<string>): seq<string> {
    if |lines| < 2 then lines
    else
      var last := lines[|lines| - 1];
      var init := Unfold(lines[..|lines| - 1]);
      if Continues(last) && init != [] then init[..|init| - 1] + [init[|init| - 1] + last[1..]]
      else init + [last]
  }

  datatype Name =
    Begin | End | Uid | Summary | Description | Location | Dtstart | Dtend | Rrule | Other

  function NameOf(s: string): Name {
    if s == "BEGIN" then Begin
    else if s == "END" then End
    else if s == "UID" then Uid
    else if s == "SUMMARY" then Summary
    else if s == "DESCRIPTION" then Description
    else if s == "LOCATION" then Location
    else if s == "DTSTART" then Dtstart
    else if s == "DTEND" then Dtend
    else if s == "RRULE" then Rrule
    else Other
  }

  // name *(";" param) ":" value, the colon being the first one outside quotes.
  // CR and LF are not among the characters a content line may hold.
  datatype Property = Property(name: Name, params: seq<string>, value: string)

  function HeadLength(s: string, quoted: bool): (n: nat)
    ensures n <= |s|
  {
    if s == "" then 0
    else if s[0] == ':' && !quoted then 0
    else 1 + HeadLength(s[1..], if s[0] == '"' then !quoted else quoted)
  }

  predicate OneLine(s: string) {
    '\r' !in s && '\n' !in s
  }

  function ParseLine(line: string): Option<Property> {
    var n := HeadLength(line, false);
    if n == |line| || !OneLine(line) then None
    else
      var head := Split(line[..n], ';');
      Some(Property(NameOf(head[0]), head[1..], line[n + 1..]))
  }

  function ReadStamp(params: seq<string>, value: string): Option<Stamp> {
    if params == ["VALUE=DATE"] then
      match ReadDate(value)
      case Some(t) => Some(DateValue(t / DAY))
      case None => None
    else if params != [] then None
    else if |value| == 16 && value[15] == 'Z' then
      match ReadDateTime(value[..15])
      case Some(t) => Some(Utc(t))
      case None => None
    else
      match ReadDateTime(value)
      case Some(t) => Some(Floating(t))
      case None => None
  }

  datatype Reader =
    | Before
    | InCalendar(done: seq<Component>)
    | InEvent(done: seq<Component>, cur: Component)
    | After(done: seq<Component>)
    | Malformed

  // None for a property that occurs twice or whose value cannot be read.
  function SetProperty(c: Component, p: Property): Option<Component> {
    match p.name
    case Uid => if c.uid.None? then Some(c.(uid := Some(p.value))) else None
    case Summary => if c.summary.None? && Unescape(p.value).Some? then Some(c.(summary := Unescape(p.value))) else None
    case Description =>
      if c.description.None? && Unescape(p.value).Some? then Some(c.(description := Unescape(p.value))) else None
    case Location =>
      if c.location.None? && Unescape(p.value).Some? then Some(c.(location := Unescape(p.value))) else None
    case Dtstart =>
      var s := ReadStamp(p.params, p.value);
      if c.dtstart.None? && s.Some? then Some(c.(dtstart := s)) else None
    case Dtend =>
      var s := ReadStamp(p.params, p.value);
      if c.dtend.None? && s.Some? then Some(c.(dtend := s)) else None
    case Rrule => if c.rrule.None? then Some(c.(rrule := Some(p.value))) else None
    case Other => Some(c)
    case Begin => None
    case End => None
  }

  function Accept(r: Reader, p: Property): Reader {
    match r
    case Before => if p.name.Begin? && p.value == "VCALENDAR" then InCalendar([]) else Malformed
    case InCalendar(done) =>
      if p.name.Begin? then (if p.value == "VEVENT" then InEvent(done, NoProperties) else Malformed)
      else if p.name.End? then (if p.value == "VCALENDAR" then After(done) else Malformed)
      else r
    case InEvent(done, cur) =>
      if p.name.End? && p.value == "VEVENT" then InCalendar(done + [cur])
      else
        (match SetProperty(cur, p)
         case None => Malformed
         case Some(c) => InEvent(done, c))
    case After(_) => Malformed
    case Malformed => Malformed
  }

  function Step(r: Reader, line: string): Reader {
    match ParseLine(line)
    case None => Malformed
    case Some(p) => Accept(r, p)
  }

  function Run(r: Reader, lines: seq<string>): Reader
    decreases |lines|
  {
    if lines == [] then r else Run(Step(r, lines[0]), lines[1..])
  }

  // The VEVENTs of a stream, or None if it breaks the grammar.
  function ReadCalendar(text: string): Option<seq<Component>> {
    match Run(Before, Unfold(SplitLines(text)))
    case After(done) => Some(done)
    case _ => None
  }

  // ------------------------------------------------- export, then the reader

  lemma {:induction false} HeadEnds(head: string, value: string)
    requires ':' !in head && '"' !in head
    ensures HeadLength(Line(head, value), false) == |head|
  {
    if head == "" {
      assert Line(head, value) == ":" + value;
    } else {
      assert Line(head, value)[1..] == Line(head[1..], value);
      HeadEnds(head[1..], value);
    }
  }

  // A printed line, whatever its name and its one parameter, parses to them.
  predicate Token(s: string) {
    ':' !in s && '"' !in s && ';' !in s && OneLine(s)
  }

  lemma ParsePlain(name: string, value: string)
    requires Token(name) && OneLine(value)
    ensures ParseLine(Line(name, value)) == Some(Property(NameOf(name), [], value))
  {
    HeadEnds(name, value);
    SplitWord(name, "", ';');
    var line := Line(name, value);
    assert line[..|name|] == name && line[|name| + 1..] == value;
  }

  lemma ParseWithParam(name: string, param: string, value: string)
    requires Token(name) && Token(param) && OneLine(value)
    ensures ParseLine(Line(name + ";" + param, value)) == Some(Property(NameOf(name), [param], value))
  {
    var head := name + ";" + param;
    HeadEnds(head, value);
    SplitWord(name, param, ';');
    SplitWord(param, "", ';');
    var line := Line(head, value);
    assert line[..|head|] == head && line[|head| + 1..] == value;
  }

  function AcceptAll(r: Reader, ps: seq<Property>): Reader
    decreases |ps|
  {
    if ps == [] then r else AcceptAll(Accept(r, ps[0]), ps[1..])
  }

  lemma {:induction false} RunParsed(r: Reader, lines: seq<string>, ps: seq<Property>)
    requires ReadAs(lines, ps)
    ensures Run(r, lines) == AcceptAll(r, ps)
    decreases |lines|
  {
    if lines != [] {
      RunParsed(Step(r, lines[0]), lines[1..], ps[1..]);
    }
  }

  lemma AcceptCons(r: Reader, p: Property, ps: seq<Property>)
    ensures AcceptAll(r, [p] + ps) == AcceptAll(Accept(r, p), ps)
  {
    assert ([p] + ps)[1..] == ps;
  }

  lemma {:induction false} AcceptConcat(r: Reader, a: seq<Property>, b: seq<Property>)
    ensures AcceptAll(r, a + b) == AcceptAll(AcceptAll(r, a), b)
    decreases |a|
  {
    if a == [] {
      assert a + b == b;
    } else {
      assert (a + b)[1..] == a[1..] + b;
      AcceptConcat(Accept(r, a[0]), a[1..], b);
    }
  }

  // What a printed time stamp reads as.
  function StampOf(ev: Event, t: nat): Stamp {
    if ev.allDay then DateValue(t / DAY)
    else if ev.isUtc then Utc(WholeSecond(t))
    else Floating(WholeSecond(t))
  }

  function NonEmpty(s: string): Option<string> {
    if s == "" then None else Some(s)
  }

  function ReadBack(ev: Event): Component {
    Component(Some(ev.uid), Some(Normalize(ev.summary)),
              if ev.description == "" then None else Some(Normalize(ev.description)),
              if ev.location == "" then None else Some(Normalize(ev.location)),
              Some(StampOf(ev, ev.start)), Some(StampOf(ev, ev.end)), NonEmpty(ev.rrule))
  }

  function PrintedStamp(ev: Event, t: nat): string {
    if ev.allDay then BasicDate(t) else BasicDateTime(t) + Zone(ev)
  }

  function StampParams(ev: Event): seq<string> {
    if ev.allDay then ["VALUE=DATE"] else []
  }

  lemma DateReads(s: string, t: nat)
    requires ReadDate(s) == Some(t)
    ensures ReadStamp(["VALUE=DATE"], s) == Some(DateValue(t / DAY))
  {
    hide ReadDate, ReadDateTime;
  }

  lemma DateTimeReads(s: string, t: nat)
    requires |s| == 15 && ReadDateTime(s) == Some(t)
    ensures ReadStamp([], s) == Some(Floating(t)) && ReadStamp([], s + "Z") == Some(Utc(t))
  {
    hide ReadDate, ReadDateTime;
    assert (s + "Z")[..15] == s && (s + "Z")[15] == 'Z';
  }

  lemma StampReads(ev: Event, t: nat)
    requires FourDigitYear(t)
    ensures ReadStamp(StampParams(ev), PrintedStamp(ev, t)) == Some(StampOf(ev, t))
  {
    hide ReadStamp, ReadDate, ReadDateTime, BasicDate, BasicDateTime, Midnight, WholeSecond;
    ReadDateOfBasic(t);
    ReadDateTimeOfBasic(t);
    if ev.allDay {
      MidnightDay(t);
      DateReads(BasicDate(t), Midnight(t));
    } else {
      DateTimeReads(BasicDateTime(t), WholeSecond(t));
      assert BasicDateTime(t) + "" == BasicDateTime(t);
    }
  }

  // A date whose year has not four digits is not read at all.
  lemma StampUnread(ev: Event, t: nat)
    requires !FourDigitYear(t)
    ensures ReadStamp(StampParams(ev), PrintedStamp(ev, t)) == None
  {
    hide ReadDate, BasicDate, FourDigitYear;
    ReadDateIff(t);
    if !ev.allDay {
      var s := BasicDateTime(t);
      var v := s + Zone(ev);
      NoTime(BasicDate(t), BasicTime(t), Zone(ev));
      ShortDate(t);
    }
  }

  lemma ShortDate(t: nat)
    ensures |BasicDate(t)| != 8 <==> !FourDigitYear(t)
  {}

  // Only after eight digits is there a time.
  lemma NoTime(date: string, time: string, zone: string)
    requires |date| != 8 && |time| == 6 && AllDigits(time) && zone in {"", "Z"}
    ensures ReadStamp([], date + "T" + time + zone) == None
  {
    hide ReadDate, ReadTime;
    var v := date + "T" + time + zone;
    assert |v| == |date| + 7 + |zone|;
    assert forall i :: 0 <= i < 6 ==> v[|date| + 1 + i] == time[i] && time[i] in time && IsDigit(time[i]);
  }

  lemma MidnightDay(t: nat)
    ensures Midnight(t) / DAY == t / DAY
  {}

  // The parsed lines of one event.
  function OpeningProps(ev: Event): seq<Property> {
    [Property(Begin, [], "VEVENT"), Property(Uid, [], ev.uid), Property(Summary, [], Escape(ev.summary))]
  }

  function StampProps(ev: Event): seq<Property> {
    [Property(Dtstart, StampParams(ev), PrintedStamp(ev, ev.start)),
     Property(Dtend, StampParams(ev), PrintedStamp(ev, ev.end))]
  }

  function OptionalProp(name: Name, value: string, printed: string): seq<Property> {
    if value == "" then [] else [Property(name, [], printed)]
  }

  function OptionalProps(ev: Event): seq<Property> {
    OptionalProp(Description, ev.description, Escape(ev.description))
    + OptionalProp(Location, ev.location, Escape(ev.location))
    + OptionalProp(Rrule, ev.rrule, ev.rrule)
  }

  function EventProps(ev: Event): seq<Property> {
    OpeningProps(ev) + StampProps(ev) + OptionalProps(ev) + [Property(End, [], "VEVENT")]
  }

  predicate PlainLine(l: string) {
    OneLine(l) && !Continues(l)
  }

  // A name a printed line can start with.
  predicate Header(name: string) {
    Token(name) && name != "" && name[0] !in {' ', '\t'}
  }

  lemma ReadLine(name: string, value: string)
    requires Header(name) && OneLine(value)
    ensures ParseLine(Line(name, value)) == Some(Property(NameOf(name), [], value)) && PlainLine(Line(name, value))
  {
    ParsePlain(name, value);
  }

  lemma ReadDateLine(name: string, value: string)
    requires Header(name) && OneLine(value)
    ensures ParseLine(Line(name + ";VALUE=DATE", value)) == Some(Property(NameOf(name), ["VALUE=DATE"], value))
    ensures PlainLine(Line(name + ";VALUE=DATE", value))
  {
    DateParamToken();
    assert name + ";" + "VALUE=DATE" == name + ";VALUE=DATE";
    hide ParseLine, NameOf;
    ParseWithParam(name, "VALUE=DATE", value);
  }

  lemma DateParamToken()
    ensures Token("VALUE=DATE")
  {}

  // The names the exporter prints.
  lemma EventHeaders()
    ensures Header("BEGIN") && Header("END") && Header("UID") && Header("SUMMARY")
    ensures NameOf("BEGIN") == Begin && NameOf("END") == End && NameOf("UID") == Uid && NameOf("SUMMARY") == Summary
  {}

  lemma StampHeaders()
    ensures Header("DTSTART") && NameOf("DTSTART") == Dtstart && "DTSTART" + ";VALUE=DATE" == "DTSTART;VALUE=DATE"
    ensures Header("DTEND") && NameOf("DTEND") == Dtend && "DTEND" + ";VALUE=DATE" == "DTEND;VALUE=DATE"
  {}

  lemma OptionalHeaders()
    ensures Header("DESCRIPTION") && Header("LOCATION") && Header("RRULE")
    ensures NameOf("DESCRIPTION") == Description && NameOf("LOCATION") == Location && NameOf("RRULE") == Rrule
  {
    assert Header("DESCRIPTION") && Header("LOCATION") && Header("RRULE") by { hide NameOf; }
    hide Header, Token;
  }

  lemma CalendarHeaders()
    ensures Header("VERSION") && Header("PRODID") && Header("X-WR-CALNAME")
    ensures NameOf("VERSION") == NameOf("PRODID") == NameOf("X-WR-CALNAME") == Other
  {
    OtherNames();
    hide NameOf;
  }

  lemma OtherNames()
    ensures NameOf("VERSION") == NameOf("PRODID") == NameOf("X-WR-CALNAME") == Other
  {}

  // Lines that parse to given properties and are not folded.
  predicate ReadAs(lines: seq<string>, ps: seq<Property>) {
    |lines| == |ps| && forall i :: 0 <= i < |lines| ==> ParseLine(lines[i]) == Some(ps[i]) && PlainLine(lines[i])
  }

  lemma ReadAsConcat(a: seq<string>, p: seq<Property>, b: seq<string>, q: seq<Property>)
    requires ReadAs(a, p) && ReadAs(b, q)
    ensures ReadAs(a + b, p + q)
  {
    hide ParseLine, PlainLine;
  }

  lemma ParseOpening(ev: Event)
    requires OneLine(ev.uid)
    ensures ReadAs(Opening(ev), OpeningProps(ev))
  {
    hide ParseLine, PlainLine, Line, Header, NameOf;
    EscapeOneLine(ev.summary);
    EventHeaders();
    ReadLine("BEGIN", "VEVENT");
    ReadLine("UID", ev.uid);
    ReadLine("SUMMARY", Escape(ev.summary));
  }

  lemma ParseStamps(ev: Event)
    ensures ReadAs(StampLines(ev), StampProps(ev))
  {
    hide ParseLine, PlainLine, Line, Header, NameOf, BasicDate, BasicDateTime;
    StampOneLine(ev, ev.start);
    StampOneLine(ev, ev.end);
    StampHeaders();
    if ev.allDay {
      ReadDateLine("DTSTART", BasicDate(ev.start));
      ReadDateLine("DTEND", BasicDate(ev.end));
    } else {
      ReadLine("DTSTART", BasicDateTime(ev.start) + Zone(ev));
      ReadLine("DTEND", BasicDateTime(ev.end) + Zone(ev));
    }
  }

  lemma TwoOneLine(n: int)
    requires 0 <= n < 100
    ensures OneLine(Two(n))
  {}

  lemma {:induction false} DecimalOneLine(n: nat)
    ensures OneLine(Decimal(n))
  {
    if n >= 10 { DecimalOneLine(n / 10); }
  }

  lemma StampOneLine(ev: Event, t: nat)
    ensures OneLine(PrintedStamp(ev, t))
  {
    var d := DateOf(t);
    DecimalOneLine(d.year);
    TwoOneLine(d.month);
    TwoOneLine(d.day);
    TwoOneLine(Hour(t));
    TwoOneLine(Minute(t));
    TwoOneLine(Second(t));
  }

  lemma ParseOptional(key: string, name: Name, value: string, printed: string)
    requires value != ""
         ==> (ParseLine(Line(key, printed)) == Some(Property(name, [], printed)) && PlainLine(Line(key, printed)))
    ensures ReadAs(OptionalLine(key, value, printed), OptionalProp(name, value, printed))
  {
    hide ParseLine, PlainLine, Line;
  }

  lemma ParseOptionals(ev: Event)
    requires OneLine(ev.rrule)
    ensures ReadAs(OptionalLines(ev), OptionalProps(ev))
  {
    hide ParseLine, PlainLine, Line, ReadAs, OptionalLine, OptionalProp, Header, NameOf;
    EscapeOneLine(ev.description);
    EscapeOneLine(ev.location);
    OptionalHeaders();
    ReadLine("DESCRIPTION", Escape(ev.description));
    ReadLine("LOCATION", Escape(ev.location));
    ReadLine("RRULE", ev.rrule);
    ParseOptional("DESCRIPTION", Description, ev.description, Escape(ev.description));
    ParseOptional("LOCATION", Location, ev.location, Escape(ev.location));
    ParseOptional("RRULE", Rrule, ev.rrule, ev.rrule);
    ReadAsConcat(OptionalLine("DESCRIPTION", ev.description, Escape(ev.description)),
                 OptionalProp(Description, ev.description, Escape(ev.description)),
                 OptionalLine("LOCATION", ev.location, Escape(ev.location)),
                 OptionalProp(Location, ev.location, Escape(ev.location)));
    ReadAsConcat(OptionalLine("DESCRIPTION", ev.description, Escape(ev.description))
                 + OptionalLine("LOCATION", ev.location, Escape(ev.location)),
                 OptionalProp(Description, ev.description, Escape(ev.description))
                 + OptionalProp(Location, ev.location, Escape(ev.location)),
                 OptionalLine("RRULE", ev.rrule, ev.rrule), OptionalProp(Rrule, ev.rrule, ev.rrule));
  }

  lemma ParseEnd(value: string)
    requires OneLine(value)
    ensures ReadAs([Line("END", value)], [Property(End, [], value)])
  {
    hide ParseLine, PlainLine, Line, Header, NameOf;
    EventHeaders();
    ReadLine("END", value);
  }

  lemma ParseEvent(ev: Event)
    requires CleanLines(ev)
    ensures ReadAs(EventLines(ev), EventProps(ev))
  {
    hide ParseLine, PlainLine, Line, ReadAs, Opening, StampLines, OptionalLines,
         OpeningProps, StampProps, OptionalProps;
    ParseOpening(ev);
    ParseStamps(ev);
    ParseOptionals(ev);
    ParseEnd("VEVENT");
    ReadAsConcat(Opening(ev), OpeningProps(ev), StampLines(ev), StampProps(ev));
    ReadAsConcat(Opening(ev) + StampLines(ev), OpeningProps(ev) + StampProps(ev), OptionalLines(ev), OptionalProps(ev));
    ReadAsConcat(Opening(ev) + StampLines(ev) + OptionalLines(ev),
                 OpeningProps(ev) + StampProps(ev) + OptionalProps(ev),
                 [Line("END", "VEVENT")], [Property(End, [], "VEVENT")]);
  }

  // Reading the parsed lines of one event.
  lemma AcceptOpening(done: seq<Component>, ev: Event)
    ensures AcceptAll(InCalendar(done), OpeningProps(ev))
         == InEvent(done, NoProperties.(uid := Some(ev.uid), summary := Some(Normalize(ev.summary))))
  {
    EscapeRoundTrip(ev.summary);
    var r, ps := InCalendar(done), OpeningProps(ev);
    AcceptThree(r, ps[0], ps[1], ps[2]);
  }

  lemma AcceptThree(r: Reader, p: Property, q: Property, t: Property)
    ensures AcceptAll(r, [p, q, t]) == Accept(Accept(Accept(r, p), q), t)
  {
    AcceptCons(r, p, [q, t]);
    AcceptCons(Accept(r, p), q, [t]);
    AcceptCons(Accept(Accept(r, p), q), t, []);
    assert [p, q, t] == [p] + [q, t] && [q, t] == [q] + [t] && [t] == [t] + [];
  }

  lemma AcceptStamps(r: Reader, ev: Event)
    requires Printable(ev) && r.InEvent? && r.cur.dtstart.None? && r.cur.dtend.None?
    ensures AcceptAll(r, StampProps(ev))
         == InEvent(r.done, r.cur.(dtstart := Some(StampOf(ev, ev.start)), dtend := Some(StampOf(ev, ev.end))))
  {
    hide ReadStamp, PrintedStamp, StampParams;
    StampReads(ev, ev.start);
    StampReads(ev, ev.end);
    var ps := StampProps(ev);
    AcceptCons(r, ps[0], [ps[1]]);
    AcceptCons(Accept(r, ps[0]), ps[1], []);
    assert ps == [ps[0]] + [ps[1]] && [ps[1]] == [ps[1]] + [];
  }

  lemma {:induction false} MalformedStays(ps: seq<Property>)
    ensures AcceptAll(Malformed, ps) == Malformed
    decreases |ps|
  {
    if ps != [] { MalformedStays(ps[1..]); }
  }

  lemma RefuseStamps(r: Reader, ev: Event)
    requires !Printable(ev) && r.InEvent? && r.cur.dtstart.None? && r.cur.dtend.None?
    ensures AcceptAll(r, StampProps(ev)) == Malformed
  {
    hide ReadStamp, PrintedStamp, StampParams, FourDigitYear;
    if FourDigitYear(ev.start) { StampReads(ev, ev.start); } else { StampUnread(ev, ev.start); }
    if FourDigitYear(ev.end) { StampReads(ev, ev.end); } else { StampUnread(ev, ev.end); }
    var ps := StampProps(ev);
    AcceptCons(r, ps[0], [ps[1]]);
    AcceptCons(Accept(r, ps[0]), ps[1], []);
    assert ps == [ps[0]] + [ps[1]] && [ps[1]] == [ps[1]] + [];
  }

  lemma RefuseEvent(done: seq<Component>, ev: Event)
    requires !Printable(ev)
    ensures AcceptAll(InCalendar(done), EventProps(ev)) == Malformed
  {
    hide Printable, StampProps, OpeningProps, OptionalProps;
    var r0, o, s, t := InCalendar(done), OpeningProps(ev), StampProps(ev), OptionalProps(ev);
    var e := [Property(End, [], "VEVENT")];
    AcceptOpening(done, ev);
    AcceptConcat(r0, o, s);
    RefuseStamps(AcceptAll(r0, o), ev);
    AcceptConcat(r0, o + s, t);
    MalformedStays(t);
    AcceptConcat(r0, o + s + t, e);
    MalformedStays(e);
  }

  lemma AcceptOptional(r: Reader, name: Name, value: string, printed: string, c: Component)
    requires r.InEvent? && !name.End?
    requires value != "" ==> SetProperty(r.cur, Property(name, [], printed)) == Some(c)
    requires value == "" ==> c == r.cur
    ensures AcceptAll(r, OptionalProp(name, value, printed)) == InEvent(r.done, c)
  {
    assert [Property(name, [], printed)][1..] == [];
  }

  lemma AcceptOptionals(r: Reader, ev: Event)
    requires r.InEvent? && r.cur.description.None? && r.cur.location.None? && r.cur.rrule.None?
    ensures AcceptAll(r, OptionalProps(ev))
         == InEvent(r.done, r.cur.(description := ReadBack(ev).description, location := ReadBack(ev).location,
                                   rrule := ReadBack(ev).rrule))
  {
    var b := ReadBack(ev);
    EscapeRoundTrip(ev.description);
    EscapeRoundTrip(ev.location);
    var p := OptionalProp(Description, ev.description, Escape(ev.description));
    var q := OptionalProp(Location, ev.location, Escape(ev.location));
    var c1 := r.cur.(description := b.description);
    AcceptOptional(r, Description, ev.description, Escape(ev.description), c1);
    var c2 := c1.(location := b.location);
    AcceptOptional(InEvent(r.done, c1), Location, ev.location, Escape(ev.location), c2);
    AcceptOptional(InEvent(r.done, c2), Rrule, ev.rrule, ev.rrule, c2.(rrule := b.rrule));
    AcceptConcat(r, p, q);
    AcceptConcat(r, p + q, OptionalProp(Rrule, ev.rrule, ev.rrule));
  }

  lemma AcceptEvent(done: seq<Component>, ev: Event)
    requires Printable(ev)
    ensures AcceptAll(InCalendar(done), EventProps(ev)) == InCalendar(done + [ReadBack(ev)])
  {
    var r0, o, s, t := InCalendar(done), OpeningProps(ev), StampProps(ev), OptionalProps(ev);
    AcceptOpening(done, ev);
    AcceptConcat(r0, o, s);
    AcceptStamps(AcceptAll(r0, o), ev);
    AcceptConcat(r0, o + s, t);
    AcceptOptionals(AcceptAll(r0, o + s), ev);
    AcceptConcat(r0, o + s + t, [Property(End, [], "VEVENT")]);
    assert [Property(End, [], "VEVENT")][1..] == [];
  }

  predicate CleanLines(ev: Event) {
    OneLine(ev.uid) && OneLine(ev.rrule)
  }

  function ReadBacks(evs: seq<Event>): (cs: seq<Component>)
    ensures |cs| == |evs|
    ensures forall i :: 0 <= i < |evs| ==> cs[i] == ReadBack(evs[i])
  {
    if evs == [] then [] else ReadBacks(evs[..|evs| - 1]) + [ReadBack(evs[|evs| - 1])]
  }

  function AllEventProps(evs: seq<Event>): seq<Property> {
    if evs == [] then [] else AllEventProps(evs[..|evs| - 1]) + EventProps(evs[|evs| - 1])
  }

  predicate AllPrintable(evs: seq<Event>) {
    forall ev :: ev in evs ==> Printable(ev)
  }

  lemma {:induction false} EventsReadAs(evs: seq<Event>)
    requires forall ev :: ev in evs ==> CleanLines(ev)
    ensures ReadAs(AllEventLines(evs), AllEventProps(evs))
  {
    hide CleanLines, EventLines, EventProps;
    if evs != [] {
      var init, last := evs[..|evs| - 1], evs[|evs| - 1];
      EventsReadAs(init);
      ParseEvent(last);
      hide ReadAs;
      ReadAsConcat(AllEventLines(init), AllEventProps(init), EventLines(last), EventProps(last));
    }
  }

  lemma {:induction false} AcceptEvents(evs: seq<Event>)
    ensures AcceptAll(InCalendar([]), AllEventProps(evs))
          == if AllPrintable(evs) then InCalendar(ReadBacks(evs)) else Malformed
  {
    hide Printable, EventProps, ReadBack;
    if evs != [] {
      var init, last := evs[..|evs| - 1], evs[|evs| - 1];
      assert evs == init + [last];
      AcceptEvents(init);
      AcceptConcat(InCalendar([]), AllEventProps(init), EventProps(last));
      hide AcceptAll;
      if !AllPrintable(init) {
        MalformedStays(EventProps(last));
      } else if Printable(last) {
        AcceptEvent(ReadBacks(init), last);
      } else {
        RefuseEvent(ReadBacks(init), last);
      }
    }
  }

  function PreambleProps(name: string): seq<Property> {
    [Property(Begin, [], "VCALENDAR"), Property(Other, [], "2.0"), Property(Other, [], "-//Odysseus//Calendar//EN"),
     Property(Other, [], Escape(name))]
  }

  lemma FixedValuesOneLine()
    ensures OneLine("VCALENDAR") && OneLine("2.0") && OneLine("-//Odysseus//Calendar//EN")
  {}

  lemma ParsePreamble(name: string)
    ensures ReadAs(Preamble(name), PreambleProps(name))
  {
    hide ParseLine, PlainLine, Line, OneLine, Escape, Header, NameOf;
    FixedValuesOneLine();
    EscapeOneLine(name);
    EventHeaders();
    CalendarHeaders();
    ReadLine("BEGIN", "VCALENDAR");
    ReadLine("VERSION", "2.0");
    ReadLine("PRODID", "-//Odysseus//Calendar//EN");
    ReadLine("X-WR-CALNAME", Escape(name));
  }

  lemma AcceptPreamble(name: string)
    ensures AcceptAll(Before, PreambleProps(name)) == InCalendar([])
  {
    var ps := PreambleProps(name);
    AcceptCons(Before, ps[0], ps[1..]);
    AcceptThree(InCalendar([]), ps[1], ps[2], ps[3]);
    assert ps == [ps[0]] + ps[1..] && ps[1..] == [ps[1], ps[2], ps[3]];
  }

  lemma CalendarReadAs(name: string, evs: seq<Event>)
    requires forall ev :: ev in evs ==> CleanLines(ev)
    ensures ReadAs(CalendarLines(name, evs),
                   PreambleProps(name) + AllEventProps(evs) + [Property(End, [], "VCALENDAR")])
  {
    hide ReadAs, Preamble, PreambleProps, AllEventLines, AllEventProps, Line;
    ParsePreamble(name);
    EventsReadAs(evs);
    ParseEnd("VCALENDAR");
    ReadAsConcat(Preamble(name), PreambleProps(name), AllEventLines(evs), AllEventProps(evs));
    ReadAsConcat(Preamble(name) + AllEventLines(evs), PreambleProps(name) + AllEventProps(evs),
                 [Line("END", "VCALENDAR")], [Property(End, [], "VCALENDAR")]);
  }

  lemma RunCalendar(name: string, evs: seq<Event>)
    requires forall ev :: ev in evs ==> CleanLines(ev)
    ensures Run(Before, CalendarLines(name, evs)) == if AllPrintable(evs) then After(ReadBacks(evs)) else Malformed
    ensures forall l :: l in CalendarLines(name, evs) ==> PlainLine(l)
  {
    var p, q, e := PreambleProps(name), AllEventProps(evs), [Property(End, [], "VCALENDAR")];
    CalendarReadAs(name, evs);
    RunParsed(Before, CalendarLines(name, evs), p + q + e);
    hide Run, ParseLine, PlainLine, CalendarLines, PreambleProps, AllEventProps, AllPrintable, CleanLines;
    AcceptEvents(evs);
    AcceptPreamble(name);
    AcceptConcat(Before, p, q);
    AcceptConcat(Before, p + q, e);
    MalformedStays(e);
    EndAccepted(ReadBacks(evs));
  }

  lemma EndAccepted(done: seq<Component>)
    ensures AcceptAll(InCalendar(done), [Property(End, [], "VCALENDAR")]) == After(done)
  {
    assert [Property(End, [], "VCALENDAR")][1..] == [];
  }

  // Physical lines: joining and splitting at CRLF, then unfolding.
  lemma {:induction false} SplitFirstLine(line: string, rest: string)
    requires OneLine(line)
    ensures SplitLines(line + "\r\n" + rest) == [line] + SplitLines(rest)
    ensures SplitLines(line) == [line]
  {
    if line == "" {
      assert line + "\r\n" + rest == "\r\n" + rest;
      assert ("\r\n" + rest)[2..] == rest;
    } else {
      assert (line + "\r\n" + rest)[1..] == line[1..] + "\r\n" + rest;
      SplitFirstLine(line[1..], rest);
      assert line == [line[0]] + line[1..];
      NoMatchAt(line, "\r\n");
      NoMatchAt(line + "\r\n" + rest, "\r\n");
    }
  }

  lemma {:induction false} SplitJoinLines(lines: seq<string>)
    requires lines != [] && forall l :: l in lines ==> OneLine(l)
    ensures SplitLines(Join(lines, "\r\n")) == lines
  {
    SplitFirstLine(lines[0], Join(lines[1..], "\r\n"));
    if |lines| > 1 { SplitJoinLines(lines[1..]); }
  }

  lemma {:induction false} NothingToUnfold(lines: seq<string>)
    requires forall l :: l in lines ==> !Continues(l)
    ensures Unfold(lines) == lines
  {
    if |lines| >= 2 { NothingToUnfold(lines[..|lines| - 1]); }
  }

  // Where no uid and no rule holds a line break, the export is read, event by
  // event, unless a year has not four digits: then it is not read at all.
  lemma ReadExport(name: string, evs: seq<Event>)
    requires forall ev :: ev in evs ==> CleanLines(ev)
    ensures ReadCalendar(Join(CalendarLines(name, evs), "\r\n"))
          == if AllPrintable(evs) then Some(ReadBacks(evs)) else None
  {
    RunCalendar(name, evs);
    SplitJoinLines(CalendarLines(name, evs));
    NothingToUnfold(CalendarLines(name, evs));
  }

  lemma PlainLines(lines: seq<string>)
    requires lines != [] && forall l :: l in lines ==> PlainLine(l)
    ensures SplitLines(Join(lines, "\r\n")) == lines
  {
    SplitJoinLines(lines);
  }

  // The text opens with the version, the product and the calendar's name, which
  // reads back but for its newlines.
  lemma ReadCalendarName(name: string, evs: seq<Event>) returns (value: string)
    requires forall ev :: ev in evs ==> CleanLines(ev)
    ensures Unescape(value) == Some(Normalize(name))
    ensures var lines := SplitLines(Join(CalendarLines(name, evs), "\r\n"));
      |lines| > 4 && lines[0] == Line("BEGIN", "VCALENDAR") && lines[1] == Line("VERSION", "2.0")
      && lines[2] == Line("PRODID", "-//Odysseus//Calendar//EN") && lines[3] == Line("X-WR-CALNAME", value)
      && lines[|lines| - 1] == Line("END", "VCALENDAR")
  {
    value := Escape(name);
    EscapeRoundTrip(name);
    RunCalendar(name, evs);
    OpeningLines(name, evs);
    hide Escape, Unescape, SplitLines, Join, CalendarLines, Line, ReadBacks, AllPrintable, OneLine, Run;
    PlainLines(CalendarLines(name, evs));
  }

  lemma OpeningLines(name: string, evs: seq<Event>)
    ensures var lines := CalendarLines(name, evs);
      |lines| > 4 && lines[0] == Line("BEGIN", "VCALENDAR") && lines[1] == Line("VERSION", "2.0")
      && lines[2] == Line("PRODID", "-//Odysseus//Calendar//EN") && lines[3] == Line("X-WR-CALNAME", Escape(name))
      && lines[|lines| - 1] == Line("END", "VCALENDAR")
  {
    hide Escape, Line, AllEventLines;
  }

  // The reader never hands out a uid or a rule holding a line break, whatever
  // stream it is given.
  predicate CleanComponent(c: Component) {
    (c.uid.Some? ==> OneLine(c.uid.value)) && (c.rrule.Some? ==> OneLine(c.rrule.value))
  }

  predicate CleanReader(r: Reader) {
    match r
    case InCalendar(done) => forall c :: c in done ==> CleanComponent(c)
    case InEvent(done, cur) => CleanComponent(cur) && forall c :: c in done ==> CleanComponent(c)
    case After(done) => forall c :: c in done ==> CleanComponent(c)
    case _ => true
  }

  lemma {:induction false} RunClean(r: Reader, lines: seq<string>)
    requires CleanReader(r)
    ensures CleanReader(Run(r, lines))
    decreases |lines|
  {
    if lines != [] {
      StepClean(r, lines[0]);
      RunClean(Step(r, lines[0]), lines[1..]);
    }
  }

  lemma StepClean(r: Reader, line: string)
    requires CleanReader(r)
    ensures CleanReader(Step(r, line))
  {
    if ParseLine(line).Some? {
      var n := HeadLength(line, false);
      assert forall c :: c in line[n + 1..] ==> c in line;
    }
  }

  lemma ReadBackClean(text: string, evs: seq<Event>)
    requires ReadCalendar(text) == Some(ReadBacks(evs))
    ensures forall ev :: ev in evs ==> CleanLines(ev)
  {
    RunClean(Before, Unfold(SplitLines(text)));
    hide Run;
    forall ev | ev in evs
      ensures CleanLines(ev)
    {
      var i :| 0 <= i < |evs| && evs[i] == ev;
      assert ReadBacks(evs)[i] in ReadBacks(evs);
      assert CleanComponent(ReadBack(ev));
    }
  }

  // The export reads back exactly when no exported uid or rule, both of which
  // are printed as they stand, holds a line break and every year has four digits.
  lemma ReadExportIff(name: string, evs: seq<Event>)
    ensures ReadCalendar(Join(CalendarLines(name, evs), "\r\n")) == Some(ReadBacks(evs))
       <==> forall ev :: ev in evs ==> CleanLines(ev) && Printable(ev)
  {
    hide CleanLines, Printable, ReadCalendar, CalendarLines;
    var text := Join(CalendarLines(name, evs), "\r\n");
    if ReadCalendar(text) == Some(ReadBacks(evs)) { ReadBackClean(text, evs); }
    if forall ev :: ev in evs ==> CleanLines(ev) { ReadExport(name, evs); }
  }

  // ---------------------------------------------------------------- import

  // `_ics_naive_dtstart`: the key used to look for a duplicate.
  function NaiveStart(s: Stamp): nat {
    match s
    case DateValue(day) => day * DAY
    case Floating(t) => t
    case Utc(t) => t
    case Zoned(wall, offset) => wall - offset
  }

  function Wall(s: Stamp): nat {
    match s
    case DateValue(day) => day * DAY
    case Floating(t) => t
    case Utc(t) => t
    case Zoned(wall, _) => wall
  }

  function Text(t: Option<string>): string {
    if t.Some? then t.value else ""
  }

  predicate HasUid(c: Component) {
    Text(c.uid) != ""
  }

  // The row `import_ics` stores for a component with a DTSTART.
  function RowFor(c: Component, calendar: string, uid: string): Event
    requires c.dtstart.Some?
  {
    var s := c.dtstart.value;
    var start: nat := if s.DateValue? then s.day * DAY else if s.Zoned? then s.wall - s.offset else s.t;
    var end: nat :=
      if s.DateValue? then (if c.dtend.Some? then Midnight(Wall(c.dtend.value)) else start + DAY)
      else if c.dtend.Some? then NaiveStart(c.dtend.value)
      else start + HOUR;
    Event(uid, calendar, Text(c.summary), Text(c.description), Text(c.location), start, end,
          s.DateValue?, s.Utc? || s.Zoned?, Text(c.rrule), "confirmed")
  }

  predicate Duplicate(committed: seq<Event>, calendar: string, c: Component)
    requires c.dtstart.Some?
  {
    exists row :: row in committed && row.calendar == calendar
               && row.start == NaiveStart(c.dtstart.value) && row.summary == Text(c.summary)
  }

  predicate Adds(committed: seq<Event>, calendar: string, c: Component) {
    c.dtstart.Some? && !(HasUid(c) && Duplicate(committed, calendar, c))
  }

  function NewRows(committed: seq<Event>, calendar: string, cs: seq<Component>, uids: seq<string>): seq<Event>
    requires |uids| >= |cs|
  {
    if cs == [] then []
    else
      var n := |cs| - 1;
      NewRows(committed, calendar, cs[..n], uids)
      + if Adds(committed, calendar, cs[n]) then [RowFor(cs[n], calendar, uids[n])] else []
  }

  // `import_ics`: the duplicate query sees committed rows only, since the
  // session does not flush before the final commit.
  method Import(rows: seq<Event>, calendar: string, cs: seq<Component>, uids: seq<string>)
    returns (rows': seq<Event>, imported: nat, skipped: nat)
    requires |uids| >= |cs|
    ensures rows' == rows + NewRows(rows, calendar, cs, uids)
    ensures imported == |NewRows(rows, calendar, cs, uids)| && imported + skipped == |cs|
  {
    var pending: seq<Event> := [];
    imported, skipped := 0, 0;
    for i := 0 to |cs|
      invariant pending == NewRows(rows, calendar, cs[..i], uids)
      invariant imported == |pending| && imported + skipped == i
    {
      var c := cs[i];
      assert cs[..i + 1][..i] == cs[..i];
      if c.dtstart.None? {
        skipped := skipped + 1;
        continue;
      }
      if HasUid(c) {
        var existing := false;
        for j := 0 to |rows|
          invariant existing <==> Duplicate(rows[..j], calendar, c)
        {
          assert rows[..j + 1] == rows[..j] + [rows[j]];
          if rows[j].calendar == calendar && rows[j].start == NaiveStart(c.dtstart.value)
             && rows[j].summary == Text(c.summary) {
            existing := true;
          }
        }
        assert rows[..|rows|] == rows;
        if existing {
          skipped := skipped + 1;
          continue;
        }
      }
      pending := pending + [RowFor(c, calendar, uids[i])];
      imported := imported + 1;
    }
    assert cs[..|cs|] == cs;
    rows' := rows + pending;
  }

  // What an import makes of a component, whichever of the four kinds its stamps
  // are of: the row has the instants they stand for, zoned ones converted to UTC
  // and marked so, dates at midnight; an event without an end lasts an hour, or a
  // day.
  lemma {:induction false} StoredRow(rows: seq<Event>, calendar: string, cs: seq<Component>, uids: seq<string>,
                                     row: Event)
    returns (i: nat)
    requires |uids| >= |cs| && row in NewRows(rows, calendar, cs, uids)
    ensures i < |cs| && Adds(rows, calendar, cs[i])
    ensures row.uid == uids[i] && row.calendar == calendar && row.status == "confirmed"
    ensures row.summary == Text(cs[i].summary) && row.description == Text(cs[i].description)
    ensures row.location == Text(cs[i].location) && row.rrule == Text(cs[i].rrule)
    ensures row.allDay <==> cs[i].dtstart.value.DateValue?
    ensures row.isUtc <==> cs[i].dtstart.value.Utc? || cs[i].dtstart.value.Zoned?
    ensures match cs[i].dtstart.value
            case DateValue(day) => row.start == day * DAY
            case Floating(t) => row.start == t
            case Utc(t) => row.start == t
            case Zoned(wall, offset) => row.start + offset == wall
    ensures cs[i].dtend.None? ==> row.end == row.start + if row.allDay then DAY else HOUR
    ensures cs[i].dtend.Some? && row.allDay ==>
      row.end % DAY == 0 && row.end <= Wall(cs[i].dtend.value) < row.end + DAY
    ensures cs[i].dtend.Some? && !row.allDay ==>
      match cs[i].dtend.value
      case DateValue(day) => row.end == day * DAY
      case Floating(t) => row.end == t
      case Utc(t) => row.end == t
      case Zoned(wall, offset) => row.end + offset == wall
  {
    var n := |cs| - 1;
    if row in NewRows(rows, calendar, cs[..n], uids) {
      i := StoredRow(rows, calendar, cs[..n], uids, row);
    } else {
      i := n;
    }
  }

  // --------------------------------------------------------- the round trip

  predicate Fresh(rows: seq<Event>, calendar: string) {
    forall row :: row in rows ==> row.calendar != calendar
  }

  // The row an exported event comes back as: newlines normalised, seconds
  // whole, all-day events at midnight and without a zone.
  function Canonical(ev: Event, calendar: string, uid: string): Event {
    Event(uid, calendar, Normalize(ev.summary), Normalize(ev.description), Normalize(ev.location),
          if ev.allDay then Midnight(ev.start) else WholeSecond(ev.start),
          if ev.allDay then Midnight(ev.end) else WholeSecond(ev.end),
          ev.allDay, ev.isUtc && !ev.allDay, ev.rrule, "confirmed")
  }

  lemma RowForReadBack(ev: Event, calendar: string, uid: string)
    ensures RowFor(ReadBack(ev), calendar, uid) == Canonical(ev, calendar, uid)
  {
    MidnightTwice(ev.end);
  }

  lemma MidnightTwice(t: nat)
    ensures Midnight(t / DAY * DAY) == Midnight(t)
  {}

  function Canonicals(evs: seq<Event>, calendar: string, uids: seq<string>): seq<Event>
    requires |uids| >= |evs|
  {
    seq(|evs|, i requires 0 <= i < |evs| => Canonical(evs[i], calendar, uids[i]))
  }

  lemma FreshAdds(rows: seq<Event>, calendar: string, ev: Event)
    requires Fresh(rows, calendar)
    ensures ReadBack(ev).dtstart.Some? && Adds(rows, calendar, ReadBack(ev))
  {}

  lemma {:induction false} FreshImport(rows: seq<Event>, calendar: string, evs: seq<Event>, uids: seq<string>)
    requires Fresh(rows, calendar) && |uids| >= |evs|
    ensures NewRows(rows, calendar, ReadBacks(evs), uids) == Canonicals(evs, calendar, uids)
  {
    hide ReadBack, RowFor, Canonical, Adds, Fresh;
    if evs != [] {
      var n := |evs| - 1;
      FreshAdds(rows, calendar, evs[n]);
      FreshImport(rows, calendar, evs[..n], uids);
      assert ReadBacks(evs)[..n] == ReadBacks(evs[..n]);
      RowForReadBack(evs[n], calendar, uids[n]);
    }
  }

  // Exporting a calendar and importing the text into a fresh one stores exactly
  // the canonical form of every event, in order.
  lemma ExportImportRoundTrip(name: string, evs: seq<Event>, rows: seq<Event>, calendar: string, uids: seq<string>)
    requires forall ev :: ev in evs ==> Printable(ev) && CleanLines(ev)
    requires Fresh(rows, calendar) && |uids| >= |evs|
    ensures var read := ReadCalendar(Join(CalendarLines(name, evs), "\r\n"));
            read.Some? && |read.value| == |evs|
            && NewRows(rows, calendar, read.value, uids) == Canonicals(evs, calendar, uids)
  {
    ReadExport(name, evs);
    FreshImport(rows, calendar, evs, uids);
  }

  predicate SameContent(a: Event, b: Event) {
    a.summary == b.summary && a.description == b.description && a.location == b.location
    && a.start == b.start && a.end == b.end && a.allDay == b.allDay && a.isUtc == b.isUtc && a.rrule == b.rrule
  }

  // Nothing is lost for exactly these events.
  predicate Lossless(ev: Event) {
    '\r' !in ev.summary && '\r' !in ev.description && '\r' !in ev.location
    && (if ev.allDay then ev.start % DAY == 0 && ev.end % DAY == 0 && !ev.isUtc
        else ev.start % SECOND == 0 && ev.end % SECOND == 0)
  }

  lemma CanonicalIff(ev: Event, calendar: string, uid: string)
    ensures SameContent(ev, Canonical(ev, calendar, uid)) <==> Lossless(ev)
  {
    NormalizeFixes(ev.summary);
    NormalizeFixes(ev.description);
    NormalizeFixes(ev.location);
    WholeIff(ev.start);
    WholeIff(ev.end);
  }

  lemma WholeIff(t: nat)
    ensures Midnight(t) == t <==> t % DAY == 0
    ensures WholeSecond(t) == t <==> t % SECOND == 0
  {}

  // ------------------------------------------------------------- re-import

  lemma {:induction false} NewRowsHold(committed: seq<Event>, calendar: string, cs: seq<Component>,
                                       uids: seq<string>, i: nat)
    requires |uids| >= |cs| && i < |cs| && Adds(committed, calendar, cs[i])
    ensures RowFor(cs[i], calendar, uids[i]) in NewRows(committed, calendar, cs, uids)
  {
    var n := |cs| - 1;
    if i < n { NewRowsHold(committed, calendar, cs[..n], uids, i); }
  }

  // After an import, every component with a DTSTART has its duplicate stored:
  // the key computed for the query is the start the row was stored with.
  lemma StoredAfterImport(committed: seq<Event>, calendar: string, cs: seq<Component>, uids: seq<string>, i: nat)
    requires |uids| >= |cs| && i < |cs| && cs[i].dtstart.Some?
    ensures Duplicate(committed + NewRows(committed, calendar, cs, uids), calendar, cs[i])
  {
    var after := committed + NewRows(committed, calendar, cs, uids);
    if Adds(committed, calendar, cs[i]) {
      NewRowsHold(committed, calendar, cs, uids, i);
      var row := RowFor(cs[i], calendar, uids[i]);
      assert row in after && row.start == NaiveStart(cs[i].dtstart.value);
    } else {
      var row :| row in committed && row.calendar == calendar
        && row.start == NaiveStart(cs[i].dtstart.value) && row.summary == Text(cs[i].summary);
      assert row in after;
    }
  }

  // The components with a start but no UID: nothing tells them from a duplicate.
  function Anonymous(cs: seq<Component>): nat {
    if cs == [] then 0
    else Anonymous(cs[..|cs| - 1])
         + if cs[|cs| - 1].dtstart.Some? && !HasUid(cs[|cs| - 1]) then 1 else 0
  }

  lemma {:induction false} AddedTwice(committed: seq<Event>, calendar: string, cs: seq<Component>, uids: seq<string>)
    requires |uids| >= |cs|
    requires forall i :: 0 <= i < |cs| && cs[i].dtstart.Some? ==> Duplicate(committed, calendar, cs[i])
    ensures |NewRows(committed, calendar, cs, uids)| == Anonymous(cs)
  {
    if cs != [] {
      AddedTwice(committed, calendar, cs[..|cs| - 1], uids);
    }
  }

  // Importing a file again adds one row for each component without a UID and
  // nothing else.
  lemma Reimport(rows: seq<Event>, calendar: string, cs: seq<Component>, uids: seq<string>, uids': seq<string>)
    requires |uids| >= |cs| && |uids'| >= |cs|
    ensures |NewRows(rows + NewRows(rows, calendar, cs, uids), calendar, cs, uids')| == Anonymous(cs)
  {
    forall i | 0 <= i < |cs| && cs[i].dtstart.Some?
      ensures Duplicate(rows + NewRows(rows, calendar, cs, uids), calendar, cs[i])
    {
      StoredAfterImport(rows, calendar, cs, uids, i);
    }
    AddedTwice(rows + NewRows(rows, calendar, cs, uids), calendar, cs, uids');
  }

  lemma {:induction false} AnonymousZero(cs: seq<Component>)
    ensures Anonymous(cs) == 0 <==> forall c :: c in cs && c.dtstart.Some? ==> HasUid(c)
  {
    if cs != [] {
      var n := |cs| - 1;
      AnonymousZero(cs[..n]);
      assert cs == cs[..n] + [cs[n]];
    }
  }

  lemma ReimportIdempotent(rows: seq<Event>, calendar: string, cs: seq<Component>,
                           uids: seq<string>, uids': seq<string>)
    requires |uids| >= |cs| && |uids'| >= |cs|
    ensures NewRows(rows + NewRows(rows, calendar, cs, uids), calendar, cs, uids') == []
       <==> forall c :: c in cs && c.dtstart.Some? ==> HasUid(c)
  {
    Reimport(rows, calendar, cs, uids, uids');
    AnonymousZero(cs);
  }

  // Every component is dealt with by itself: the import of a file is the imports
  // of its parts against the rows there were before.
  lemma {:induction false} NewRowsConcat(rows: seq<Event>, calendar: string, cs: seq<Component>, more: seq<Component>,
                                         uids: seq<string>)
    requires |uids| >= |cs| + |more|
    ensures NewRows(rows, calendar, cs + more, uids)
         == NewRows(rows, calendar, cs, uids) + NewRows(rows, calendar, more, uids[|cs|..])
  {
    hide Adds, RowFor;
    if more == [] {
      assert cs + more == cs;
    } else {
      var n := |more| - 1;
      assert (cs + more)[..|cs + more| - 1] == cs + more[..n];
      NewRowsConcat(rows, calendar, cs, more[..n], uids);
    }
  }

  lemma NewRowsAround(rows: seq<Event>, calendar: string, before: seq<Component>, c: Component, after: seq<Component>,
                      uids: seq<string>)
    requires |uids| >= |before| + 1 + |after|
    ensures NewRows(rows, calendar, before + [c] + after, uids)
         == NewRows(rows, calendar, before, uids)
            + (if Adds(rows, calendar, c) then [RowFor(c, calendar, uids[|before|])] else [])
            + NewRows(rows, calendar, after, uids[|before| + 1..])
  {
    hide Adds, RowFor;
    NewRowsConcat(rows, calendar, before + [c], after, uids);
    assert (before + [c])[..|before|] == before;
  }

  lemma Inserted(first: seq<Event>, mid: seq<Event>, last: seq<Event>)
    ensures first + mid + last == first + last <==> mid == []
  {
    assert |first + mid + last| == |first + last| + |mid|;
    if mid == [] { assert first + mid == first; }
  }

  // So a component with a start and a UID, wherever it stands in a file, is
  // skipped exactly if the calendar has a row with its start and summary, and is
  // stored else: a twin in the same file makes no difference,
  lemma SkippedIff(rows: seq<Event>, calendar: string, before: seq<Component>, c: Component, after: seq<Component>,
                   uids: seq<string>)
    requires c.dtstart.Some? && HasUid(c) && |uids| >= |before| + 1 + |after|
    ensures var stored := NewRows(rows, calendar, before + [c] + after, uids);
      var first := NewRows(rows, calendar, before, uids);
      var last := NewRows(rows, calendar, after, uids[|before| + 1..]);
      && (stored == first + last <==> Duplicate(rows, calendar, c))
      && (!Duplicate(rows, calendar, c) ==> stored == first + [RowFor(c, calendar, uids[|before|])] + last)
  {
    hide NewRows, Duplicate, RowFor;
    NewRowsAround(rows, calendar, before, c, after, uids);
    assert Adds(rows, calendar, c) == !Duplicate(rows, calendar, c);
    Inserted(NewRows(rows, calendar, before, uids),
             if Adds(rows, calendar, c) then [RowFor(c, calendar, uids[|before|])] else [],
             NewRows(rows, calendar, after, uids[|before| + 1..]));
  }

  // which is not what the comment on the query speaks of: giving the components
  // of a file any other UIDs changes nothing in what an import stores.
  lemma {:induction false} DedupIgnoresUid(rows: seq<Event>, calendar: string, cs: seq<Component>, cs': seq<Component>,
                                           uids: seq<string>)
    requires |cs| == |cs'| <= |uids|
    requires forall i :: 0 <= i < |cs| ==> cs'[i] == cs[i].(uid := cs'[i].uid) && HasUid(cs'[i]) == HasUid(cs[i])
    ensures NewRows(rows, calendar, cs, uids) == NewRows(rows, calendar, cs', uids)
  {
    if cs != [] {
      var n := |cs| - 1;
      DedupIgnoresUid(rows, calendar, cs[..n], cs'[..n], uids);
    }
  }

  // A row of the calendar has the start and summary the event is exported with.
  predicate Known(rows: seq<Event>, calendar: string, ev: Event) {
    exists row :: row in rows && row.calendar == calendar
               && row.start == (if ev.allDay then Midnight(ev.start) else WholeSecond(ev.start))
               && row.summary == Normalize(ev.summary)
  }

  // A calendar imported back into itself gains nothing exactly if every exported
  // event has a UID and is known in the form it was exported in.
  lemma SelfImportIff(name: string, rows: seq<Event>, calendar: string, uids: seq<string>)
    requires |uids| >= |Exported(rows, calendar)|
    requires forall ev :: ev in Exported(rows, calendar) ==> Printable(ev) && CleanLines(ev)
    ensures var read := ReadCalendar(Join(CalendarLines(name, Exported(rows, calendar)), "\r\n"));
      && read.Some? && |read.value| <= |uids|
      && (NewRows(rows, calendar, read.value, uids) == []
          <==> forall ev :: ev in Exported(rows, calendar) ==> ev.uid != "" && Known(rows, calendar, ev))
  {
    ReadExport(name, Exported(rows, calendar));
    NothingNewIff(rows, calendar, Exported(rows, calendar), uids);
  }

  lemma AddsReadBack(rows: seq<Event>, calendar: string, ev: Event)
    ensures Adds(rows, calendar, ReadBack(ev)) <==> !(ev.uid != "" && Known(rows, calendar, ev))
  {
    RowForReadBack(ev, calendar, "");
  }

  lemma {:induction false} NothingNewIff(rows: seq<Event>, calendar: string, evs: seq<Event>, uids: seq<string>)
    requires |uids| >= |evs|
    ensures NewRows(rows, calendar, ReadBacks(evs), uids) == []
       <==> forall ev :: ev in evs ==> ev.uid != "" && Known(rows, calendar, ev)
  {
    hide Known, Adds, ReadBack, RowFor;
    if evs != [] {
      var n := |evs| - 1;
      NothingNewIff(rows, calendar, evs[..n], uids);
      assert ReadBacks(evs)[..n] == ReadBacks(evs[..n]);
      assert evs == evs[..n] + [evs[n]];
      AddsReadBack(rows, calendar, evs[n]);
    }
  }

  // Events without a CR in the summary that start on a whole second, or day,
  // know themselves.
  lemma KnowsItself(rows: seq<Event>, calendar: string, ev: Event)
    requires ev in Exported(rows, calendar) && '\r' !in ev.summary
    requires if ev.allDay then ev.start % DAY == 0 else ev.start % SECOND == 0
    ensures Known(rows, calendar, ev)
  {
    NormalizeFixes(ev.summary);
    WholeIff(ev.start);
  }
}
