// Recurring events: expanding a series into the occurrences of a query window,
// the row filter in front of it, and the compound uids of occurrences.

module Recurrence {
  import opened Wrappers
  import opened Strings
  import opened CivilTime
  import opened IcsCalendar

  // The instants a parsed rule yields, in order; possibly without end.
  datatype Series = Finite(instants: seq<nat>) | Infinite(at: nat -> nat)

  predicate Has(s: Series, k: nat) {
    s.Finite? ==> k < |s.instants|
  }

  function At(s: Series, k: nat): nat
    requires Has(s, k)
  {
    if s.Finite? then s.instants[k] else s.at(k)
  }

  ghost predicate Ascending(s: Series) {
    forall j: nat, k: nat :: Has(s, j) && Has(s, k) && j < k ==> At(s, j) < At(s, k)
  }

  ghost predicate Occurs(s: Series, x: int) {
    exists k: nat :: Has(s, k) && At(s, k) == x
  }

  // A strictly ascending series climbs at least one step at a time, so a search
  // below any bound ends.
  lemma {:induction false} Climbs(s: Series, k: nat)
    requires Ascending(s) && Has(s, k)
    ensures At(s, k) >= k
  {
    if k > 0 {
      assert Has(s, k - 1);
      Climbs(s, k - 1);
    }
  }

  // `rule.between(after, before, inc=True)`: walk the series until it passes `before`.
  method Between(s: Series, after: int, before: int) returns (found: seq<nat>)
    requires Ascending(s)
    ensures forall i, j :: 0 <= i < j < |found| ==> found[i] < found[j]
    ensures forall x: int :: x in found <==> Occurs(s, x) && after <= x <= before
  {
    found := [];
    var started := false;
    var k: nat := 0;
    ghost var first: nat := 0;
    while Has(s, k) && At(s, k) <= before
      invariant forall j: nat :: j < k ==> Has(s, j) && At(s, j) <= before
      invariant first <= k && |found| == k - first && (started ==> first < k) && (!started ==> first == k)
      invariant forall i :: 0 <= i < |found| ==> found[i] == At(s, first + i)
      invariant forall j: nat :: j < first ==> At(s, j) < after
      invariant started ==> At(s, first) >= after
      decreases before - k
    {
      Climbs(s, k);
      var x := At(s, k);
      if started || x >= after {
        started := true;
        found := found + [x];
      } else {
        first := k + 1;
      }
      k := k + 1;
    }
    RunIsWindow(s, after, before, first, k, found);
  }

  // A run of the series cut where the bounds fall holds what lies between them.
  lemma RunIsWindow(s: Series, after: int, before: int, first: nat, k: nat, found: seq<nat>)
    requires Ascending(s) && first <= k && |found| == k - first
    requires forall j: nat :: j < k ==> Has(s, j) && At(s, j) <= before
    requires Has(s, k) ==> At(s, k) > before
    requires forall i :: 0 <= i < |found| ==> found[i] == At(s, first + i)
    requires forall j: nat :: j < first ==> At(s, j) < after
    requires first < k ==> At(s, first) >= after
    ensures forall i, j :: 0 <= i < j < |found| ==> found[i] < found[j]
    ensures forall x: int :: x in found <==> Occurs(s, x) && after <= x <= before
  {
    forall x: int
      ensures x in found <==> Occurs(s, x) && after <= x <= before
    {
      if x in found {
        var i :| 0 <= i < |found| && found[i] == x;
        assert Has(s, first + i) && At(s, first) <= At(s, first + i);
      }
      if Occurs(s, x) && after <= x <= before {
        var j: nat :| Has(s, j) && At(s, j) == x;
        assert first <= j;
        assert j < k;
        assert found[j - first] == x;
      }
    }
  }

  // ------------------------------------------------------------- expansion

  // `printed` is the start as the client gets it, and what the list is sorted by.
  datatype Occurrence = Occurrence(uid: string, series: string, recurring: bool, start: int, end: int, printed: string)

  // The rule parser: a rule applied to a start yields ascending instants, if it
  // is a rule at all.
  type RuleParser = (string, nat) -> Option<Series>

  ghost predicate Orderly(parse: RuleParser) {
    forall rule: string, start: nat :: parse(rule, start).Some? ==> Ascending(parse(rule, start).value)
  }

  // dateutil drops the fraction of a second of the start before it begins: the
  // instants are whole seconds, and none is before the second of the start.
  ghost predicate Sound(parse: RuleParser) {
    && Orderly(parse)
    && forall rule: string, start: nat :: parse(rule, start).Some? ==>
         forall k: nat :: Has(parse(rule, start).value, k) ==>
           var x := At(parse(rule, start).value, k);
           x >= WholeSecond(start) && x % SECOND == 0
  }

  function Duration(ev: Event): int { ev.end - ev.start }

  // [x, x + duration) meets [start, end), ends excluded.
  predicate Overlaps(x: int, duration: int, start: int, end: int) {
    x < end && x + duration > start
  }

  function PrintedStart(ev: Event, t: nat): string {
    if ev.allDay then ExtendedDate(t) else IsoDateTime(t) + Zone(ev)
  }

  function OccurrenceUid(ev: Event, t: nat): string {
    ev.uid + "::" + if ev.allDay then ExtendedDate(t) else ExtendedMinute(t)
  }

  function Base(ev: Event): Occurrence {
    Occurrence(ev.uid, ev.uid, false, ev.start, ev.end, PrintedStart(ev, ev.start))
  }

  function OccurrenceOf(ev: Event, x: nat): Occurrence {
    Occurrence(OccurrenceUid(ev, x), ev.uid, true, x, x + Duration(ev), PrintedStart(ev, x))
  }

  ghost predicate AscendingStarts(rs: seq<Occurrence>) {
    forall i, j :: 0 <= i < j < |rs| ==> rs[i].start < rs[j].start
  }

  ghost predicate StartsAt(rs: seq<Occurrence>, x: int) {
    exists i :: 0 <= i < |rs| && rs[i].start == x
  }

  ghost predicate OccurrencesOf(ev: Event, rs: seq<Occurrence>) {
    forall i :: 0 <= i < |rs| ==> rs[i].start >= 0 && rs[i] == OccurrenceOf(ev, rs[i].start)
  }

  // The one right answer for a series: each visible occurrence once, in order.
  ghost predicate Expansion(ev: Event, s: Series, start: int, end: int, rs: seq<Occurrence>) {
    AscendingStarts(rs)
    && OccurrencesOf(ev, rs)
    && forall x: int :: StartsAt(rs, x) <==> Occurs(s, x) && Overlaps(x, Duration(ev), start, end)
  }

  predicate Blank(rule: string) { Strip(rule) == "" }

  ghost predicate Expands(ev: Event, parse: RuleParser, start: int, end: int, rs: seq<Occurrence>) {
    if Blank(ev.rrule) then rs == [Base(ev)]
    else
      match parse(ev.rrule, ev.start)
      case None => rs == if Overlaps(ev.start, Duration(ev), start, end) then [Base(ev)] else []
      case Some(s) => Expansion(ev, s, start, end, rs)
  }

  // ------------------------------------------------------- what clients read

  // A printed start, read: a date, or a time with or without the mark of UTC.
  function ReadShown(s: string): Option<Stamp> {
    if |s| == 10 then
      match ReadDashed(s)
      case Some(t) => Some(DateValue(t / DAY))
      case None => None
    else if s != "" && s[|s| - 1] == 'Z' then
      match ReadIso(s[..|s| - 1])
      case Some(t) => Some(Utc(t))
      case None => None
    else
      match ReadIso(s)
      case Some(t) => Some(Floating(t))
      case None => None
  }

  // The day or minute a compound uid ends in, read.
  function ReadSuffix(s: string): Option<nat> {
    if |s| == 10 then ReadDashed(s) else ReadIso(s + ":00")
  }

  function Moment(ev: Event, t: nat): Stamp {
    if ev.allDay then DateValue(t / DAY) else if ev.isUtc then Utc(t) else Floating(t)
  }

  // `strftime` prints the years before 1000 without padding, `isoformat` with.
  predicate Presentable(ev: Event, t: nat) {
    if ev.allDay then FourDigitYear(t) else InRange(t)
  }

  lemma ShownReadsBack(ev: Event, t: nat)
    requires Presentable(ev, t)
    ensures ReadShown(PrintedStart(ev, t)) == Some(Moment(ev, t))
  {
    if ev.allDay {
      ReadDashedOfExtended(t);
      assert Midnight(t) / DAY == t / DAY;
    } else {
      IsoLength(t);
      ReadIsoOfIso(t);
      hide IsoDateTime, ReadIso, ReadDashed;
      var s := PrintedStart(ev, t);
      if ev.isUtc { assert s[..|s| - 1] == IsoDateTime(t); } else { assert s == IsoDateTime(t); }
    }
  }

  lemma IsoLength(t: nat)
    requires InRange(t)
    ensures |IsoDateTime(t)| >= 19 && IsoDateTime(t)[|IsoDateTime(t)| - 1] != 'Z'
  {
    ReadDashedOfIso(t);
    ClockEnds(t);
    FractionEnds(t);
    hide IsoDate, Clock, Fraction, ReadDashed;
  }

  lemma ClockEnds(t: nat)
    ensures Clock(t)[7] != 'Z'
  {
    hide Hour, Minute, Second;
  }

  lemma FractionEnds(t: nat)
    ensures Fraction(t) != "" ==> Fraction(t)[|Fraction(t)| - 1] != 'Z'
  {
    if t % SECOND != 0 {
      NumberSix(t % SECOND);
      assert Six(t % SECOND)[5] in Six(t % SECOND);
    }
  }

  lemma SuffixReadsBack(ev: Event, t: nat)
    requires FourDigitYear(t)
    ensures var n := |ev.uid| + 2;
      |OccurrenceUid(ev, t)| >= n && OccurrenceUid(ev, t)[..n] == ev.uid + "::"
      && ReadSuffix(OccurrenceUid(ev, t)[n..]) == Some(if ev.allDay then Midnight(t) else WholeMinute(t))
  {
    ReadDashedOfExtended(t);
    ReadIsoOfMinute(t);
    hide ReadDashed, ReadIso, ExtendedDate, Hour, Minute;
    var p, suffix := ev.uid + "::", if ev.allDay then ExtendedDate(t) else ExtendedMinute(t);
    assert (p + suffix)[..|p|] == p && (p + suffix)[|p|..] == suffix;
  }

  // `_expand_rrule`: widen the window by the duration, list what the rule has
  // there, and drop what does not overlap the window proper.
  method Expand(ev: Event, parse: RuleParser, start: int, end: int) returns (results: seq<Occurrence>)
    requires Orderly(parse)
    ensures Expands(ev, parse, start, end, results)
  {
    hide OccurrenceUid, PrintedStart, Strip, Occurs;
    var duration := ev.end - ev.start;
    if Strip(ev.rrule) == "" {
      return [Base(ev)];
    }
    var rule := parse(ev.rrule, ev.start);
    if rule.None? {
      if ev.start < end && ev.end > start {
        return [Base(ev)];
      }
      return [];
    }
    var occurrences := Between(rule.value, start - duration, end);
    results := [];
    for i := 0 to |occurrences|
      invariant AscendingStarts(results)
      invariant OccurrencesOf(ev, results)
      invariant forall j :: 0 <= j < |results| ==> i < |occurrences| ==> results[j].start < occurrences[i]
      invariant forall x: int :: StartsAt(results, x) <==> x in occurrences[..i] && Overlaps(x, duration, start, end)
    {
      var x := occurrences[i];
      assert occurrences[..i + 1] == occurrences[..i] + [x];
      if x >= end || x + duration <= start {
        continue;
      }
      ghost var before := results;
      assert x in occurrences;
      assert OccurrenceOf(ev, x).start == x;
      results := results + [OccurrenceOf(ev, x)];
      AppendedStart(before, OccurrenceOf(ev, x));
    }
    assert occurrences[..|occurrences|] == occurrences;
  }

  lemma AppendedStart(rs: seq<Occurrence>, r: Occurrence)
    ensures forall x: int :: StartsAt(rs + [r], x) <==> StartsAt(rs, x) || x == r.start
  {
    forall x: int
      ensures StartsAt(rs + [r], x) <==> StartsAt(rs, x) || x == r.start
    {
      if StartsAt(rs, x) {
        var i :| 0 <= i < |rs| && rs[i].start == x;
        assert (rs + [r])[i].start == x;
      }
      if x == r.start { assert (rs + [r])[|rs|].start == x; }
    }
  }

  // Two answers that are both right are the same list.
  lemma ExpansionUnique(ev: Event, s: Series, start: int, end: int, a: seq<Occurrence>, b: seq<Occurrence>)
    requires Expansion(ev, s, start, end, a) && Expansion(ev, s, start, end, b)
    ensures a == b
  {
    AscendingUnique(a, b);
    SameOccurrences(ev, a, b);
  }

  lemma SameOccurrences(ev: Event, a: seq<Occurrence>, b: seq<Occurrence>)
    requires OccurrencesOf(ev, a) && OccurrencesOf(ev, b)
    requires |a| == |b| && forall i :: 0 <= i < |a| ==> a[i].start == b[i].start
    ensures a == b
  {
    hide OccurrenceOf;
    forall i | 0 <= i < |a|
      ensures a[i] == b[i]
    {
      assert a[i].start == b[i].start;
    }
  }

  lemma {:induction false} AscendingUnique(a: seq<Occurrence>, b: seq<Occurrence>)
    requires AscendingStarts(a) && AscendingStarts(b)
    requires forall x: int :: StartsAt(a, x) <==> StartsAt(b, x)
    ensures |a| == |b| && forall i :: 0 <= i < |a| ==> a[i].start == b[i].start
  {
    if a == [] || b == [] {
      if a != [] { assert StartsAt(a, a[0].start); }
      if b != [] { assert StartsAt(b, b[0].start); }
    } else {
      var n, m := |a| - 1, |b| - 1;
      assert StartsAt(a, a[n].start) && StartsAt(b, b[m].start);
      assert a[n].start == b[m].start;
      forall x: int
        ensures StartsAt(a[..n], x) <==> StartsAt(b[..m], x)
      {
        WithoutLast(a, x);
        WithoutLast(b, x);
      }
      AscendingUnique(a[..n], b[..m]);
    }
  }

  lemma WithoutLast(a: seq<Occurrence>, x: int)
    requires AscendingStarts(a) && a != []
    ensures StartsAt(a[..|a| - 1], x) <==> StartsAt(a, x) && x != a[|a| - 1].start
  {
    if StartsAt(a[..|a| - 1], x) {
      var i :| 0 <= i < |a| - 1 && a[..|a| - 1][i].start == x;
      assert a[i].start == x;
    }
    if StartsAt(a, x) && x != a[|a| - 1].start {
      var i :| 0 <= i < |a| && a[i].start == x;
      assert a[..|a| - 1][i].start == x;
    }
  }

  // ----------------------------------------------------- splitting a window

  // An occurrence no longer than nothing that sits on the cut shows up in
  // neither half.
  predicate LostAt(x: int, duration: int, a: int, b: int, c: int) {
    b <= x < c && a < x + duration <= b
  }

  lemma SplitPoint(x: int, d: int, a: int, b: int, c: int)
    requires a <= b <= c
    ensures Overlaps(x, d, a, c) <==> Overlaps(x, d, a, b) || Overlaps(x, d, b, c) || LostAt(x, d, a, b, c)
    ensures Overlaps(x, d, a, b) && Overlaps(x, d, b, c) <==> x < b < x + d
  {}

  predicate Straddles(r: Occurrence, d: int, b: int) {
    r.start < b < r.start + d
  }

  // Expanding [a, c) is expanding [a, b) and then [b, c), with the n occurrences
  // straddling b, which end the one list and start the other, listed once, and
  // with those in between that sit on the cut and are in neither list: there are
  // none if occurrences last.
  lemma WindowAdditive(ev: Event, s: Series, a: int, b: int, c: int,
                       whole: seq<Occurrence>, left: seq<Occurrence>, right: seq<Occurrence>)
    returns (n: nat, lost: seq<Occurrence>)
    requires a <= b <= c
    requires Expansion(ev, s, a, c, whole) && Expansion(ev, s, a, b, left) && Expansion(ev, s, b, c, right)
    ensures n <= |left| && n <= |right|
    ensures forall i :: 0 <= i < |right| ==> (i < n <==> Straddles(right[i], Duration(ev), b))
    ensures left[|left| - n..] == right[..n] && whole == left + lost + right[n..]
    ensures forall i :: 0 <= i < |lost| ==> LostAt(lost[i].start, Duration(ev), a, b, c)
    ensures Duration(ev) > 0 ==> lost == []
    ensures Duration(ev) <= 0 ==> n == 0
  {
    hide Expansion, LostAt;
    n := FirstFrom(right, b);
    StraddlersFirst(ev, s, a, b, c, right);
    if Duration(ev) > 0 {
      lost := [];
      JoinedExpansion(ev, s, a, b, c, left, right);
      ExpansionUnique(ev, s, a, c, whole, left + right[n..]);
      SharedEdge(ev, s, a, b, c, left, right, n);
      assert left + [] == left;
    } else {
      lost := CutOut(ev, s, a, b, c, whole, left, right);
      NoStraddlers(right, Duration(ev), b, n);
    }
  }

  lemma NoStraddlers(right: seq<Occurrence>, d: int, b: int, n: nat)
    requires d <= 0 && n <= |right| && forall i :: 0 <= i < |right| ==> (i < n <==> Straddles(right[i], d, b))
    ensures n == 0
  {
    if |right| > 0 { assert !Straddles(right[0], d, b); }
  }

  // Without a duration the two lists frame what the cut has lost.
  lemma CutOut(ev: Event, s: Series, a: int, b: int, c: int,
               whole: seq<Occurrence>, left: seq<Occurrence>, right: seq<Occurrence>) returns (lost: seq<Occurrence>)
    requires a <= b <= c && Duration(ev) <= 0
    requires Expansion(ev, s, a, c, whole) && Expansion(ev, s, a, b, left) && Expansion(ev, s, b, c, right)
    ensures whole == left + lost + right
    ensures forall i :: 0 <= i < |lost| ==> LostAt(lost[i].start, Duration(ev), a, b, c)
  {
    hide OccurrenceOf, FirstFrom, Occurs;
    var p, q := FirstFrom(whole, b), FirstFrom(whole, b - Duration(ev) + 1);
    HeadIs(ev, s, a, b, c, whole, left);
    TailIs(ev, s, a, b, c, whole, right);
    StartsInWindow(ev, s, a, c, whole);
    CutsInOrder(whole, b, b - Duration(ev) + 1);
    lost := whole[p..q];
    assert whole == whole[..p] + whole[p..q] + whole[q..];
  }

  lemma CutsInOrder(rs: seq<Occurrence>, b: int, e: int)
    requires AscendingStarts(rs) && b <= e
    ensures FirstFrom(rs, b) <= FirstFrom(rs, e)
    ensures forall i :: FirstFrom(rs, b) <= i < FirstFrom(rs, e) ==> b <= rs[i].start < e
  {
    var p, q := FirstFrom(rs, b), FirstFrom(rs, e);
    assert q < |rs| ==> rs[q].start >= b;
    assert forall i :: p < i < |rs| ==> rs[p].start < rs[i].start;
  }

  lemma HeadIs(ev: Event, s: Series, a: int, b: int, c: int, whole: seq<Occurrence>, left: seq<Occurrence>)
    requires a <= b <= c && Duration(ev) <= 0 && Expansion(ev, s, a, c, whole) && Expansion(ev, s, a, b, left)
    ensures whole[..FirstFrom(whole, b)] == left
  {
    hide OccurrenceOf, FirstFrom, Occurs;
    var head := whole[..FirstFrom(whole, b)];
    forall x: int
      ensures StartsAt(head, x) <==> StartsAt(left, x)
    {
      TakenStarts(whole, FirstFrom(whole, b), b, x);
    }
    AscendingUnique(head, left);
    SameOccurrences(ev, head, left);
  }

  lemma TailIs(ev: Event, s: Series, a: int, b: int, c: int, whole: seq<Occurrence>, right: seq<Occurrence>)
    requires a <= b <= c && Duration(ev) <= 0 && Expansion(ev, s, a, c, whole) && Expansion(ev, s, b, c, right)
    ensures whole[FirstFrom(whole, b - Duration(ev) + 1)..] == right
  {
    hide OccurrenceOf, FirstFrom, Occurs;
    var e := b - Duration(ev) + 1;
    var q := FirstFrom(whole, e);
    var tail := whole[q..];
    forall x: int
      ensures StartsAt(tail, x) <==> StartsAt(right, x)
    {
      JoinedStarts([], whole, q, e, x);
      assert [] + tail == tail;
    }
    AscendingUnique(tail, right);
    SameOccurrences(ev, tail, right);
  }

  lemma StartsInWindow(ev: Event, s: Series, a: int, b: int, rs: seq<Occurrence>)
    requires Expansion(ev, s, a, b, rs)
    ensures forall i :: 0 <= i < |rs| ==> Overlaps(rs[i].start, Duration(ev), a, b)
  {
    hide OccurrenceOf, FirstFrom, Occurs;
    forall i | 0 <= i < |rs|
      ensures Overlaps(rs[i].start, Duration(ev), a, b)
    {
      assert StartsAt(rs, rs[i].start);
    }
  }

  lemma StraddlersFirst(ev: Event, s: Series, a: int, b: int, c: int, right: seq<Occurrence>)
    requires Expansion(ev, s, b, c, right)
    ensures forall i :: 0 <= i < |right| ==> (i < FirstFrom(right, b) <==> Straddles(right[i], Duration(ev), b))
  {
    hide OccurrenceOf, FirstFrom, Occurs;
    StartsInWindow(ev, s, b, c, right);
    var n := FirstFrom(right, b);
    assert forall i :: n < i < |right| ==> right[n].start < right[i].start;
  }

  lemma JoinedAscending(left: seq<Occurrence>, right: seq<Occurrence>, b: int)
    requires AscendingStarts(left) && AscendingStarts(right)
    requires forall i :: 0 <= i < |left| ==> left[i].start < b
    ensures AscendingStarts(left + right[FirstFrom(right, b)..])
  {
    hide OccurrenceOf, FirstFrom, Occurs;
    var n := FirstFrom(right, b);
    assert forall i :: n < i < |right| ==> right[n].start < right[i].start;
  }

  lemma JoinedExpansion(ev: Event, s: Series, a: int, b: int, c: int, left: seq<Occurrence>, right: seq<Occurrence>)
    requires a <= b <= c && Duration(ev) > 0
    requires Expansion(ev, s, a, b, left) && Expansion(ev, s, b, c, right)
    ensures Expansion(ev, s, a, c, left + right[FirstFrom(right, b)..])
  {
    hide OccurrenceOf, FirstFrom, Occurs;
    var d, n := Duration(ev), FirstFrom(right, b);
    var joined := left + right[n..];
    StartsInWindow(ev, s, a, b, left);
    JoinedAscending(left, right, b);
    forall x: int
      ensures StartsAt(joined, x) <==> Occurs(s, x) && Overlaps(x, d, a, c)
    {
      SplitPoint(x, d, a, b, c);
      JoinedStarts(left, right, n, b, x);
    }
  }

  function FirstFrom(rs: seq<Occurrence>, b: int): (n: nat)
    ensures n <= |rs|
    ensures forall i :: 0 <= i < n ==> rs[i].start < b
    ensures n < |rs| ==> rs[n].start >= b
  {
    if rs == [] || rs[0].start >= b then 0 else 1 + FirstFrom(rs[1..], b)
  }

  lemma JoinedStarts(left: seq<Occurrence>, right: seq<Occurrence>, n: nat, b: int, x: int)
    requires AscendingStarts(right) && n == FirstFrom(right, b)
    ensures StartsAt(left + right[n..], x) <==> StartsAt(left, x) || (StartsAt(right, x) && x >= b)
  {
    var joined := left + right[n..];
    if StartsAt(left, x) {
      var i :| 0 <= i < |left| && left[i].start == x;
      assert joined[i].start == x;
    }
    if StartsAt(right, x) && x >= b {
      var i :| 0 <= i < |right| && right[i].start == x;
      assert joined[|left| + i - n].start == x;
    }
    if StartsAt(joined, x) {
      var i :| 0 <= i < |joined| && joined[i].start == x;
      if i >= |left| {
        assert right[i - |left| + n].start == x;
        assert right[n].start >= b;
      } else {
        assert left[i].start == x;
      }
    }
  }

  lemma SharedEdge(ev: Event, s: Series, a: int, b: int, c: int, left: seq<Occurrence>, right: seq<Occurrence>, n: nat)
    requires a <= b <= c && Duration(ev) > 0 && n == FirstFrom(right, b)
    requires Expansion(ev, s, a, b, left) && Expansion(ev, s, b, c, right)
    ensures n <= |left| && left[|left| - n..] == right[..n]
  {
    hide OccurrenceOf, FirstFrom, Occurs;
    var d := Duration(ev);
    var m := FirstFrom(left, b - d + 1);
    var l, r := left[m..], right[..n];
    forall x: int
      ensures StartsAt(l, x) <==> StartsAt(r, x)
    {
      EdgeStarts(ev, s, a, b, c, left, right, x);
    }
    AscendingUnique(l, r);
    SameOccurrences(ev, l, r);
    assert |left| - n == m;
  }

  lemma EdgeStarts(ev: Event, s: Series, a: int, b: int, c: int, left: seq<Occurrence>, right: seq<Occurrence>, x: int)
    requires a <= b <= c && Duration(ev) > 0
    requires Expansion(ev, s, a, b, left) && Expansion(ev, s, b, c, right)
    ensures StartsAt(left[FirstFrom(left, b - Duration(ev) + 1)..], x) <==> StartsAt(right[..FirstFrom(right, b)], x)
  {
    hide OccurrenceOf, FirstFrom, Occurs;
    var d := Duration(ev);
    var m := FirstFrom(left, b - d + 1);
    JoinedStarts([], left, m, b - d + 1, x);
    assert [] + left[m..] == left[m..];
    TakenStarts(right, FirstFrom(right, b), b, x);
    SplitPoint(x, d, a, b, c);
  }

  lemma TakenStarts(rs: seq<Occurrence>, n: nat, b: int, x: int)
    requires AscendingStarts(rs) && n == FirstFrom(rs, b)
    ensures StartsAt(rs[..n], x) <==> StartsAt(rs, x) && x < b
  {
    if StartsAt(rs[..n], x) {
      var i :| 0 <= i < n && rs[..n][i].start == x;
      assert rs[i].start == x;
    }
    if StartsAt(rs, x) && x < b {
      var i :| 0 <= i < |rs| && rs[i].start == x;
      assert i < n;
      assert rs[..n][i].start == x;
    }
  }

  ghost predicate NothingLost(s: Series, d: int, a: int, b: int, c: int) {
    forall x: int :: Occurs(s, x) && Overlaps(x, d, a, c) ==> Overlaps(x, d, a, b) || Overlaps(x, d, b, c)
  }

  // Cutting windows is safe exactly for events that last: one without duration
  // is lost when the cut falls on it.
  lemma CutsLoseNothingIff(s: Series, d: int)
    requires Has(s, 0)
    ensures (forall a: int, b: int, c: int :: a <= b <= c ==> NothingLost(s, d, a, b, c)) <==> d > 0
  {
    if d > 0 {
      forall a: int, b: int, c: int | a <= b <= c
        ensures NothingLost(s, d, a, b, c)
      {
        forall x: int | Occurs(s, x)
          ensures Overlaps(x, d, a, c) ==> Overlaps(x, d, a, b) || Overlaps(x, d, b, c)
        {
          SplitPoint(x, d, a, b, c);
        }
      }
    } else {
      var x := At(s, 0);
      var a, b, c := x + d - 1, x, x + 1;
      assert Occurs(s, x) && Overlaps(x, d, a, c) && !Overlaps(x, d, a, b) && !Overlaps(x, d, b, c);
      assert !NothingLost(s, d, a, b, c);
    }
  }

  // ------------------------------------------------------------ list_events

  // The row filter of the query: overlap for rows without a rule, and only a
  // start before the end of the window for rows with one.
  predicate Fetched(ev: Event, start: int, end: int) {
    ev.status != "cancelled"
    && (if ev.rrule == "" then ev.start < end && ev.end > start else ev.start < end)
  }

  ghost predicate Contributes(ev: Event, parse: RuleParser, start: int, end: int, rs: seq<Occurrence>) {
    if Fetched(ev, start, end) then Expands(ev, parse, start, end, rs) else rs == []
  }

  function Flatten(parts: seq<seq<Occurrence>>): seq<Occurrence> {
    if parts == [] then [] else Flatten(parts[..|parts| - 1]) + parts[|parts| - 1]
  }

  // `expanded.sort(key=lambda d: d["dtstart"])`
  function InsertPrinted(x: Occurrence, l: seq<Occurrence>): seq<Occurrence> {
    if l == [] || !Less(l[0].printed, x.printed) then [x] + l else [l[0]] + InsertPrinted(x, l[1..])
  }

  function SortPrinted(l: seq<Occurrence>): seq<Occurrence> {
    if l == [] then [] else InsertPrinted(l[0], SortPrinted(l[1..]))
  }

  // What each row has in the window, row by row.
  ghost predicate Contributions(rows: seq<Event>, parse: RuleParser, start: int, end: int,
                                parts: seq<seq<Occurrence>>) {
    |parts| == |rows| && forall i :: 0 <= i < |rows| ==> Contributes(rows[i], parse, start, end, parts[i])
  }

  // `list_events`
  method ListEvents(rows: seq<Event>, parse: RuleParser, start: int, end: int) returns (listed: seq<Occurrence>)
    requires Orderly(parse)
    ensures exists parts: seq<seq<Occurrence>> ::
      Contributions(rows, parse, start, end, parts) && listed == SortPrinted(Flatten(parts))
  {
    hide Expands, Fetched, SortPrinted;
    var expanded: seq<Occurrence> := [];
    ghost var parts: seq<seq<Occurrence>> := [];
    for i := 0 to |rows|
      invariant expanded == Flatten(parts) && |parts| == i
      invariant forall j :: 0 <= j < i ==> Contributes(rows[j], parse, start, end, parts[j])
    {
      var found: seq<Occurrence> := [];
      if Fetched(rows[i], start, end) {
        found := Expand(rows[i], parse, start, end);
      }
      assert (parts + [found])[..|parts|] == parts;
      expanded, parts := expanded + found, parts + [found];
    }
    listed := SortPrinted(expanded);
    assert Contributions(rows, parse, start, end, parts);
  }

  predicate PrintedInOrder(l: seq<Occurrence>) {
    forall i, j :: 0 <= i < j < |l| ==> !Less(l[j].printed, l[i].printed)
  }

  // The occurrences printed alike, in order.
  function PrintedAs(l: seq<Occurrence>, p: string): seq<Occurrence> {
    if l == [] then [] else (if l[0].printed == p then [l[0]] else []) + PrintedAs(l[1..], p)
  }

  lemma {:induction false} InsertPrintedFacts(x: Occurrence, l: seq<Occurrence>, p: string)
    ensures forall o :: o in InsertPrinted(x, l) <==> o == x || o in l
    ensures PrintedAs(InsertPrinted(x, l), p) == PrintedAs([x] + l, p)
  {
    assert ([x] + l)[1..] == l;
    if l != [] && Less(l[0].printed, x.printed) {
      InsertPrintedFacts(x, l[1..], p);
      assert l == [l[0]] + l[1..];
      var rest := InsertPrinted(x, l[1..]);
      assert ([l[0]] + rest)[1..] == rest && ([x] + l[1..])[1..] == l[1..];
      LessAsymmetric(x.printed, x.printed);
    }
  }

  lemma {:induction false} InsertPrintedOrdered(x: Occurrence, l: seq<Occurrence>)
    requires PrintedInOrder(l)
    ensures PrintedInOrder(InsertPrinted(x, l))
  {
    if l == [] {
    } else if Less(l[0].printed, x.printed) {
      InsertPrintedOrdered(x, l[1..]);
      InsertPrintedFacts(x, l[1..], "");
      LessAsymmetric(l[0].printed, x.printed);
      FirstInOrder(l[0], InsertPrinted(x, l[1..]));
    } else {
      forall o | o in l
        ensures !Less(o.printed, x.printed)
      {
        var j :| 0 <= j < |l| && l[j] == o;
        LessAsymmetric(o.printed, o.printed);
        LessTransitive(x.printed, l[0].printed, o.printed);
      }
      FirstInOrder(x, l);
    }
  }

  lemma FirstInOrder(x: Occurrence, l: seq<Occurrence>)
    requires PrintedInOrder(l) && forall o :: o in l ==> !Less(o.printed, x.printed)
    ensures PrintedInOrder([x] + l)
  {
    hide Less;
  }

  // The list is in the order of the printed starts, and stable.
  lemma {:induction false} SortPrintedRight(l: seq<Occurrence>)
    ensures PrintedInOrder(SortPrinted(l))
    ensures forall o :: o in SortPrinted(l) <==> o in l
    ensures forall p :: PrintedAs(SortPrinted(l), p) == PrintedAs(l, p)
  {
    if l != [] {
      SortPrintedRight(l[1..]);
      var rest := SortPrinted(l[1..]);
      InsertPrintedOrdered(l[0], rest);
      assert l == [l[0]] + l[1..];
      forall p
        ensures PrintedAs(SortPrinted(l), p) == PrintedAs(l, p)
      {
        InsertPrintedFacts(l[0], rest, p);
        assert ([l[0]] + rest)[1..] == rest;
      }
      InsertPrintedFacts(l[0], rest, "");
    }
  }

  // An instant as an event of this kind has them: all-day ones at midnight.
  predicate Proper(ev: Event, t: nat) {
    FourDigitYear(t) && (ev.allDay ==> t % DAY == 0)
  }

  // Of two starts the earlier is listed first, except that a whole second in UTC
  // comes after a fraction of that second.
  lemma PrintedOrderIff(ev: Event, t: nat, ev': Event, u: nat)
    requires Proper(ev, t) && Proper(ev', u) && t < u
    ensures Less(PrintedStart(ev, t), PrintedStart(ev', u))
       <==> !(!ev.allDay && ev.isUtc && t % SECOND == 0 && t / SECOND == u / SECOND)
  {
    IsoIsExtended(t);
    IsoIsExtended(u);
    if !ev.allDay && !ev'.allDay {
      IsoOrderIff(t, u, Zone(ev), Zone(ev'));
    } else {
      DayApart(t, u);
      hide Less, IsoDate, Clock, Fraction, ExtendedDate, FourDigitYear;
      var s, r := AfterDate(ev, t), AfterDate(ev', u);
      PrintedParts(ev, t);
      PrintedParts(ev', u);
      if t / DAY < u / DAY {
        IsoDateLess(t, u, s, r);
      } else {
        LessAfter(IsoDate(t), s, r);
        SameDay(t, u);
        EmptyLess(r);
      }
    }
  }

  function AfterDate(ev: Event, t: nat): string {
    if ev.allDay then "" else "T" + (Clock(t) + (Fraction(t) + Zone(ev)))
  }

  lemma PrintedParts(ev: Event, t: nat)
    requires FourDigitYear(t)
    ensures PrintedStart(ev, t) == IsoDate(t) + AfterDate(ev, t)
  {
    IsoIsExtended(t);
    IsoParts(t, Zone(ev));
    hide IsoDate, Clock, Fraction;
    assert IsoDate(t) + "" == IsoDate(t);
  }

  lemma DayApart(t: nat, u: nat)
    requires t < u
    ensures u % DAY == 0 ==> t / DAY < u / DAY
    ensures t / DAY <= u / DAY
    ensures u % DAY == 0 ==> t / SECOND != u / SECOND
  {
    if u % DAY == 0 { MidnightWhole(u); }
  }

  lemma MidnightWhole(u: nat)
    requires u % DAY == 0
    ensures u % SECOND == 0
  {
    var k := u / DAY;
    assert u == (k * 86400) * SECOND;
  }

  lemma SameDay(t: nat, u: nat)
    requires t / DAY == u / DAY
    ensures IsoDate(t) == IsoDate(u)
  {}

  lemma EmptyLess(r: string)
    ensures Less("", r) <==> r != ""
  {}

  // Whatever an event has in a window is handed out under its series and with
  // its duration. An occurrence of a rule is marked as one and names its day, or
  // minute, in its uid; the event itself keeps its uid and start.
  lemma HandedOutRight(ev: Event, parse: RuleParser, start: int, end: int, rs: seq<Occurrence>, r: Occurrence)
    requires Contributes(ev, parse, start, end, rs) && r in rs
    ensures r.start >= 0 && r.series == ev.uid && r.end - r.start == ev.end - ev.start
    ensures r.recurring <==> !Blank(ev.rrule) && parse(ev.rrule, ev.start).Some?
    ensures !r.recurring ==> r.uid == ev.uid && r.start == ev.start
    ensures r.recurring && FourDigitYear(r.start) ==>
      var n := |ev.uid| + 2;
      |r.uid| >= n && r.uid[..n] == ev.uid + "::"
      && ReadSuffix(r.uid[n..]) == Some(if ev.allDay then Midnight(r.start) else WholeMinute(r.start))
    ensures Presentable(ev, r.start) ==> ReadShown(r.printed) == Some(Moment(ev, r.start))
  {
    hide PrintedStart, OccurrenceUid, Strip, ReadShown, ReadSuffix, Moment, Presentable, FourDigitYear;
    HandedOut(ev, parse, start, end, rs, r);
    if Presentable(ev, r.start) { ShownReadsBack(ev, r.start); }
    if FourDigitYear(r.start) { SuffixReadsBack(ev, r.start); }
  }

  lemma HandedOut(ev: Event, parse: RuleParser, start: int, end: int, rs: seq<Occurrence>, r: Occurrence)
    requires Contributes(ev, parse, start, end, rs) && r in rs
    ensures r.start >= 0 && r == if r.recurring then OccurrenceOf(ev, r.start) else Base(ev)
    ensures r.recurring <==> !Blank(ev.rrule) && parse(ev.rrule, ev.start).Some?
  {
    hide PrintedStart, OccurrenceUid, Strip;
    var i :| 0 <= i < |rs| && rs[i] == r;
  }

  function Absolute(s: Stamp): Stamp {
    if s.Zoned? then Utc(s.wall - s.offset) else s
  }

  lemma StoredMoment(row: Event, s: Stamp)
    requires (row.allDay <==> s.DateValue?) && (row.isUtc <==> s.Utc? || s.Zoned?)
    requires match s
             case DateValue(day) => row.start == day * DAY
             case Floating(t) => row.start == t
             case Utc(t) => row.start == t
             case Zoned(wall, offset) => row.start + offset == wall
    ensures Moment(row, row.start) == Absolute(s)
  {}

  // What a client reads of an imported event is what the file said: zoned times
  // as the instant they stand for, all others as they are.
  lemma ImportedShown(rows: seq<Event>, calendar: string, cs: seq<Component>, uids: seq<string>, row: Event)
    returns (i: nat)
    requires |uids| >= |cs| && row in NewRows(rows, calendar, cs, uids) && Presentable(row, row.start)
    ensures i < |cs| && cs[i].dtstart.Some? && row.uid == uids[i]
    ensures ReadShown(PrintedStart(row, row.start)) == Some(Absolute(cs[i].dtstart.value))
  {
    hide ReadShown, PrintedStart, Presentable, Absolute, Moment, NewRows;
    i := StoredRow(rows, calendar, cs, uids, row);
    StoredMoment(row, cs[i].dtstart.value);
    ShownReadsBack(row, row.start);
  }

  // A start the sort keeps in the order of time.
  predicate InStep(ev: Event, x: int) {
    x >= 0 && x % SECOND == 0 && Proper(ev, x)
  }

  lemma {:induction false} FlattenMember(parts: seq<seq<Occurrence>>, r: Occurrence) returns (i: nat)
    requires r in Flatten(parts)
    ensures i < |parts| && r in parts[i]
  {
    var n := |parts| - 1;
    if r in parts[n] { i := n; } else { i := FlattenMember(parts[..n], r); }
  }

  // So what is listed of events on whole seconds, all-day ones at midnight, is in
  // the order of time.
  lemma ListedInTime(rows: seq<Event>, parse: RuleParser, start: int, end: int, parts: seq<seq<Occurrence>>,
                     listed: seq<Occurrence>)
    requires Contributions(rows, parse, start, end, parts) && listed == SortPrinted(Flatten(parts))
    requires forall i, r :: 0 <= i < |parts| && r in parts[i] ==> InStep(rows[i], r.start)
    ensures forall i, j :: 0 <= i < j < |listed| ==> listed[i].start <= listed[j].start
  {
    SortPrintedRight(Flatten(parts));
    hide PrintedStart, Proper, Less, Contributes, SortPrinted, Flatten;
    forall i, j | 0 <= i < j < |listed|
      ensures listed[i].start <= listed[j].start
    {
      var a, b := listed[i], listed[j];
      assert a in listed && b in listed;
      var m := FlattenMember(parts, a);
      var n := FlattenMember(parts, b);
      HandedOut(rows[m], parse, start, end, parts[m], a);
      HandedOut(rows[n], parse, start, end, parts[n], b);
      if b.start < a.start {
        PrintedOrderIff(rows[n], b.start, rows[m], a.start);
        WholeApart(b.start, a.start);
      }
    }
  }

  lemma WholeApart(t: nat, u: nat)
    requires t < u && t % SECOND == 0 && u % SECOND == 0
    ensures t / SECOND != u / SECOND
  {}

  // The instants an event takes place at.
  ghost predicate TakesPlace(ev: Event, parse: RuleParser, x: int) {
    if Blank(ev.rrule) || parse(ev.rrule, ev.start).None? then x == ev.start
    else Occurs(parse(ev.rrule, ev.start).value, x)
  }

  // What a window should show of an event, filter and all.
  ghost predicate Exact(ev: Event, parse: RuleParser, start: int, end: int, rs: seq<Occurrence>) {
    AscendingStarts(rs)
    && (forall i :: 0 <= i < |rs| ==> rs[i].series == ev.uid && rs[i].end == rs[i].start + Duration(ev))
    && forall x: int :: StartsAt(rs, x) <==>
         ev.status != "cancelled" && TakesPlace(ev, parse, x) && Overlaps(x, Duration(ev), start, end)
  }

  // A rule of nothing but blanks passes the filter as a rule and the expansion
  // as none, so its event is listed wherever it starts before the window ends.
  predicate BlankRuleLeak(ev: Event, start: int, end: int) {
    ev.status != "cancelled" && ev.rrule != "" && Blank(ev.rrule) && ev.start < end && ev.end <= start
  }

  // A series begins up to a second before the start of its event, which the
  // filter goes by: of a window that ends in between it can show its first
  // occurrence, which the filter drops.
  ghost predicate FractionDrop(ev: Event, parse: RuleParser, start: int, end: int) {
    && ev.status != "cancelled" && !Blank(ev.rrule) && parse(ev.rrule, ev.start).Some?
    && WholeSecond(ev.start) < end <= ev.start && WholeSecond(ev.start) + Duration(ev) > start
    && Has(parse(ev.rrule, ev.start).value, 0) && At(parse(ev.rrule, ev.start).value, 0) == WholeSecond(ev.start)
  }

  // An event shows precisely its visible occurrences in a window, filter and all,
  // save exactly in those two cases.
  lemma ListingExactIff(ev: Event, parse: RuleParser, start: int, end: int, rs: seq<Occurrence>)
    requires Sound(parse) && Contributes(ev, parse, start, end, rs)
    ensures Exact(ev, parse, start, end, rs) <==> !BlankRuleLeak(ev, start, end) && !FractionDrop(ev, parse, start, end)
  {
    hide PrintedStart, OccurrenceUid, Strip, Less, Orderly, Sound;
    OneStart(Base(ev));
    BlankEmpty(ev.rrule);
    if Blank(ev.rrule) {
      if BlankRuleLeak(ev, start, end) {
        assert StartsAt(rs, ev.start) && !Overlaps(ev.start, Duration(ev), start, end);
      }
    } else if parse(ev.rrule, ev.start).Some? && ev.status != "cancelled" {
      PrefilterCompleteIff(ev, parse, start, end);
      SeriesExactIff(ev, parse, start, end, rs);
    }
  }

  // The filter drops no event with a visible occurrence.
  ghost predicate FilterComplete(ev: Event, parse: RuleParser, start: int, end: int)
    requires parse(ev.rrule, ev.start).Some?
  {
    forall x: int :: Occurs(parse(ev.rrule, ev.start).value, x) && Overlaps(x, Duration(ev), start, end)
      ==> Fetched(ev, start, end)
  }

  lemma SeriesExactIff(ev: Event, parse: RuleParser, start: int, end: int, rs: seq<Occurrence>)
    requires Contributes(ev, parse, start, end, rs)
    requires ev.status != "cancelled" && !Blank(ev.rrule) && parse(ev.rrule, ev.start).Some?
    ensures Exact(ev, parse, start, end, rs) <==> FilterComplete(ev, parse, start, end)
  {
    hide PrintedStart, OccurrenceUid, Strip, Less, Occurs;
    if !Fetched(ev, start, end) {
      assert forall x: int :: !StartsAt(rs, x);
    }
  }

  lemma BlankEmpty(rule: string)
    ensures rule == "" ==> Blank(rule)
  {}

  lemma OneStart(r: Occurrence)
    ensures forall x: int :: StartsAt([r], x) <==> x == r.start
  {
    assert [r][0] == r;
  }

  // The row filter loses no event with a visible occurrence, except in that case.
  lemma PrefilterCompleteIff(ev: Event, parse: RuleParser, start: int, end: int)
    requires Sound(parse) && ev.status != "cancelled" && !Blank(ev.rrule) && parse(ev.rrule, ev.start).Some?
    ensures FilterComplete(ev, parse, start, end) <==> !FractionDrop(ev, parse, start, end)
  {
    hide Strip;
    var s := parse(ev.rrule, ev.start).value;
    BlankEmpty(ev.rrule);
    hide Blank;
    if FractionDrop(ev, parse, start, end) {
      assert Occurs(s, WholeSecond(ev.start)) && Overlaps(WholeSecond(ev.start), Duration(ev), start, end);
    }
    forall x: int | Occurs(s, x) && Overlaps(x, Duration(ev), start, end)
      ensures Fetched(ev, start, end) || FractionDrop(ev, parse, start, end)
    {
      var k: nat :| Has(s, k) && At(s, k) == x;
      if end <= ev.start {
        NoSecondBetween(x, ev.start);
        FirstIsLeast(s, k);
      }
    }
  }

  lemma FirstIsLeast(s: Series, k: nat)
    requires Ascending(s) && Has(s, k)
    ensures Has(s, 0) && At(s, 0) <= At(s, k)
  {}

  lemma NoSecondBetween(x: nat, t: nat)
    requires x % SECOND == 0 && WholeSecond(t) <= x <= t
    ensures x == WholeSecond(t)
  {}

  // ---------------------------------------------------------- compound uids

  function Find(s: string, pat: string): (r: Option<nat>)
    ensures r.Some? ==> r.value <= |s|
  {
    if pat <= s then Some(0)
    else if s == "" then None
    else
      match Find(s[1..], pat)
      case None => None
      case Some(i) => Some(i + 1)
  }

  datatype UidError = EmptyUid | MissingBase

  // `_resolve_base_uid`
  function ResolveBaseUid(uid: string): Result<string, UidError> {
    if uid == "" then Failure(EmptyUid)
    else
      match Find(uid, "::")
      case None => Success(uid)
      case Some(i) => if i == 0 then Failure(MissingBase) else Success(uid[..i])
  }

  predicate NoneBefore(s: string, pat: string, n: nat)
    requires n <= |s|
  {
    forall k :: 0 <= k < n ==> !(pat <= s[k..])
  }

  lemma {:induction false} FindFirst(s: string, pat: string)
    requires pat != ""
    ensures Find(s, pat).None? ==> NoneBefore(s, pat, |s|)
    ensures Find(s, pat).Some? ==> pat <= s[Find(s, pat).value..] && NoneBefore(s, pat, Find(s, pat).value)
  {
    assert s[0..] == s;
    if !(pat <= s) && s != "" {
      FindFirst(s[1..], pat);
      assert forall k :: 1 <= k <= |s| ==> s[k..] == s[1..][k - 1..];
    }
  }

  // The base is what stands in front of the first "::", or the whole of a uid
  // without one; it is an error if that is nothing.
  lemma ResolveBaseUidRight(uid: string)
    ensures match ResolveBaseUid(uid)
            case Success(base) =>
              base != "" && base <= uid && NoneBefore(uid, "::", |base|) && (base == uid || "::" <= uid[|base|..])
            case Failure(EmptyUid) => uid == ""
            case Failure(MissingBase) => "::" <= uid
  {
    FindFirst(uid, "::");
    assert uid[0..] == uid;
  }

  predicate EndsInColon(s: string) {
    s != "" && s[|s| - 1] == ':'
  }

  lemma {:induction false} FindInCompound(base: string, suffix: string)
    ensures Find(base + "::" + suffix, "::").Some?
    ensures Find(base + "::" + suffix, "::").value <= |base|
    ensures Find(base + "::" + suffix, "::") == Some(|base|) <==> Find(base, "::").None? && !EndsInColon(base)
  {
    var s := base + "::" + suffix;
    if base == "" {
      assert s == "::" + suffix;
    } else {
      assert s[1..] == base[1..] + "::" + suffix;
      FindInCompound(base[1..], suffix);
      assert s[0] == base[0];
      if |base| == 1 {
        assert s[1] == ':';
      } else {
        assert s[1] == base[1];
      }
    }
  }

  // A compound uid leads back to its series exactly when the base uid is not
  // empty, holds no "::" and does not end in a colon.
  lemma ResolveCompoundIff(base: string, suffix: string)
    ensures ResolveBaseUid(base + "::" + suffix) == Success(base)
       <==> base != "" && Find(base, "::").None? && !EndsInColon(base)
  {
    FindInCompound(base, suffix);
    var s := base + "::" + suffix;
    assert s[..|base|] == base;
  }

  // Occurrences share a uid exactly within one day, or one minute if timed.
  lemma OccurrenceUidIff(ev: Event, t: nat, u: nat)
    ensures OccurrenceUid(ev, t) == OccurrenceUid(ev, u)
       <==> if ev.allDay then t / DAY == u / DAY else t / MINUTE == u / MINUTE
  {
    ExtendedDateInjective(t, u);
    ExtendedMinuteInjective(t, u);
    var p := ev.uid + "::";
    var a := if ev.allDay then ExtendedDate(t) else ExtendedMinute(t);
    var b := if ev.allDay then ExtendedDate(u) else ExtendedMinute(u);
    assert (p + a)[|p|..] == a && (p + b)[|p|..] == b;
  }

  // Every occurrence of an expansion can be traced back to its series.
  lemma ExpansionResolves(ev: Event, s: Series, start: int, end: int, rs: seq<Occurrence>, i: nat)
    requires Expansion(ev, s, start, end, rs) && i < |rs|
    ensures ResolveBaseUid(rs[i].uid) == Success(ev.uid)
       <==> ev.uid != "" && Find(ev.uid, "::").None? && !EndsInColon(ev.uid)
  {
    var t := rs[i].start;
    ResolveCompoundIff(ev.uid, if ev.allDay then ExtendedDate(t) else ExtendedMinute(t));
  }
}
