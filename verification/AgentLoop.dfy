// The agent loop as a producer of events: what any consumer may rely on about
// the stream, whatever the model says and whichever call fails.

module AgentLoop {
  import opened Wrappers

  const MAX_ROUNDS := 10
  const ALLOWED_TOOLS := {"bash", "python", "read_file", "write_file", "web_search", "web_fetch"}

  predicate AllowedTool(tool: string) { tool in ALLOWED_TOOLS }

  datatype Event =
    | Delta(text: string)
    | AssistantText(text: string)
    | ToolStart(tool: string, input: string)
    | ToolOutput(tool: string, output: string, exitCode: Option<int>, ok: bool)
    | AgentStep(round: nat)
    | Finished(maxRounds: bool)
    | Failed
    | DONE

  datatype Turn = System | User(text: string) | Assistant(text: string)
  datatype Block = Block(tool: string, content: string)

  // A tool's result as the loop looks at it: its description, the text shown of
  // it, whether it carries an error, and its exit code if it has one.
  datatype Report = Report(desc: string, output: string, error: bool, exitCode: Option<int>)

  // What running a tool comes to; a result can fail to be a dictionary.
  datatype Outcome = Returns(report: Report) | Throws(message: string) | NotADict

  // A turn of the model: the segments it streams before it ends or raises.
  datatype Generation = Generation(segments: seq<string>, raises: bool)

  // Everything the loop calls. None stands for an exception.
  datatype World = World(
    imports: bool,
    generate: seq<Turn> -> Generation,
    strip: string -> Option<string>,
    parse: string -> Option<seq<Block>>,
    execute: (seq<Turn>, Block) -> Outcome,
    format: Report -> Option<string>)

  function Permitted(blocks: seq<Block>): (r: seq<Block>)
    ensures forall b :: b in r ==> AllowedTool(b.tool)
  {
    if blocks == [] then []
    else (if AllowedTool(blocks[0].tool) then [blocks[0]] else []) + Permitted(blocks[1..])
  }

  // The permitted blocks, each as often as it was written; the order is kept, as
  // PermittedConcat says.
  lemma {:induction false} PermittedRight(blocks: seq<Block>, b: Block)
    ensures multiset(Permitted(blocks))[b] == if AllowedTool(b.tool) then multiset(blocks)[b] else 0
  {
    hide AllowedTool;
    if blocks != [] {
      PermittedRight(blocks[1..], b);
      assert blocks == [blocks[0]] + blocks[1..];
    }
  }

  lemma {:induction false} PermittedConcat(blocks: seq<Block>, more: seq<Block>)
    ensures Permitted(blocks + more) == Permitted(blocks) + Permitted(more)
  {
    PermittedFirst(blocks);
    PermittedFirst(blocks + more);
    hide Permitted, AllowedTool;
    if blocks == [] {
      assert blocks + more == more;
    } else {
      PermittedConcat(blocks[1..], more);
      assert (blocks + more)[1..] == blocks[1..] + more;
    }
  }

  lemma PermittedFirst(blocks: seq<Block>)
    ensures Permitted(blocks)
         == if blocks == [] then []
            else (if AllowedTool(blocks[0].tool) then [blocks[0]] else []) + Permitted(blocks[1..])
  {}

  function Concat(segments: seq<string>): string {
    if segments == [] then "" else Concat(segments[..|segments| - 1]) + segments[|segments| - 1]
  }

  // `b.content.split("\n", 1)[0][:200]`
  function FirstLine(s: string): string {
    if s == "" || s[0] == '\n' then "" else [s[0]] + FirstLine(s[1..])
  }

  function Clipped(s: string, n: nat): string {
    if n <= |s| then s[..n] else s
  }

  // ------------------------------------------------------------ the grammar

  datatype Phase =
    | Idle(steps: nat) | Streaming(steps: nat) | Texted(steps: nat)
    | Started(steps: nat, tool: string) | Ran(steps: nat)
    | Ended | Closed | Broken

  // A consumer's view: the phase after one more event. With `dicts`, every tool
  // that starts has to report.
  function Advance(dicts: bool, q: Phase, e: Event): Phase {
    match (q, e)
    case (Idle(n), Delta(_)) => if n < MAX_ROUNDS then Streaming(n) else Broken
    case (Idle(n), AssistantText(_)) => if n < MAX_ROUNDS then Texted(n) else Broken
    case (Idle(n), Finished(max)) => if max && n == MAX_ROUNDS then Ended else Broken
    case (Idle(n), Failed) => Ended
    case (Streaming(n), Delta(_)) => Streaming(n)
    case (Streaming(n), AssistantText(_)) => Texted(n)
    case (Streaming(n), Failed) => Ended
    case (Texted(n), ToolStart(tool, _)) => if AllowedTool(tool) then Started(n, tool) else Broken
    case (Texted(n), Finished(max)) => if !max then Ended else Broken
    case (Texted(n), Failed) => Ended
    case (Started(n, tool), ToolOutput(t, _, _, _)) => if t == tool then Ran(n) else Broken
    case (Started(n, tool), Failed) => if dicts then Broken else Ended
    case (Ran(n), ToolStart(tool, _)) => if AllowedTool(tool) then Started(n, tool) else Broken
    case (Ran(n), AgentStep(k)) => if k == n + 1 then Idle(n + 1) else Broken
    case (Ran(n), Failed) => Ended
    case (Ended, DONE) => Closed
    case _ => Broken
  }

  function PhaseOf(dicts: bool, trace: seq<Event>): Phase {
    if trace == [] then Idle(0)
    else Advance(dicts, PhaseOf(dicts, trace[..|trace| - 1]), trace[|trace| - 1])
  }

  predicate Accepted(dicts: bool, trace: seq<Event>) {
    PhaseOf(dicts, trace) == Closed
  }

  lemma PhaseAppend(dicts: bool, trace: seq<Event>, e: Event)
    ensures PhaseOf(dicts, trace + [e]) == Advance(dicts, PhaseOf(dicts, trace), e)
  {
    assert (trace + [e])[..|trace|] == trace;
  }

  // ------------------------------------------- what an accepted trace means

  lemma {:induction false} PrefixSound(dicts: bool, trace: seq<Event>, i: nat)
    requires i <= |trace| && PhaseOf(dicts, trace) != Broken
    ensures PhaseOf(dicts, trace[..i]) != Broken
    ensures i < |trace| ==> PhaseOf(dicts, trace[..i]) != Closed
    ensures i < |trace| ==> PhaseOf(dicts, trace[..i + 1]) == Advance(dicts, PhaseOf(dicts, trace[..i]), trace[i])
    decreases |trace| - i
  {
    if i < |trace| {
      PrefixSound(dicts, trace, i + 1);
      assert trace[..i + 1][..i] == trace[..i];
    } else {
      assert trace[..i] == trace;
    }
  }

  lemma AdvanceFacts(dicts: bool, q: Phase, e: Event)
    ensures Advance(dicts, q, e) == Closed ==> q == Ended && e == DONE
    ensures Advance(dicts, q, e) == Ended ==> e.Finished? || e.Failed?
    ensures e == DONE ==> Advance(dicts, q, e) == Closed || Advance(dicts, q, e) == Broken
    ensures e.ToolStart? && Advance(dicts, q, e) != Broken
          ==> AllowedTool(e.tool) && Advance(dicts, q, e) == Started(Steps(q), e.tool)
    ensures q.Started? && Advance(dicts, q, e) != Broken
          ==> (e.ToolOutput? && e.tool == q.tool) || (!dicts && e.Failed?)
  {}

  // Exactly one [DONE], at the very end, right after the event that ends the run.
  lemma OneDoneLast(dicts: bool, trace: seq<Event>)
    requires Accepted(dicts, trace)
    ensures |trace| >= 2 && trace[|trace| - 1] == DONE
    ensures trace[|trace| - 2].Finished? || trace[|trace| - 2].Failed?
    ensures forall i :: 0 <= i < |trace| - 1 ==> trace[i] != DONE
  {
    hide Advance;
    var n := |trace|;
    AdvanceFacts(dicts, PhaseOf(dicts, trace[..n - 1]), trace[n - 1]);
    var init := trace[..n - 1];
    AdvanceFacts(dicts, PhaseOf(dicts, init[..n - 2]), init[n - 2]);
    forall i | 0 <= i < n - 1
      ensures trace[i] != DONE
    {
      PrefixSound(dicts, trace, i);
      PrefixSound(dicts, trace, i + 1);
      AdvanceFacts(dicts, PhaseOf(dicts, trace[..i]), trace[i]);
    }
  }

  // A tool that starts is one of the six, and the next event is its own output;
  // only where results need not be dictionaries may it be the failure instead.
  lemma StartsAreAnswered(dicts: bool, trace: seq<Event>, i: nat)
    requires Accepted(dicts, trace) && i < |trace| && trace[i].ToolStart?
    ensures trace[i].tool in ALLOWED_TOOLS && i + 1 < |trace|
    ensures (trace[i + 1].ToolOutput? && trace[i + 1].tool == trace[i].tool) || (!dicts && trace[i + 1].Failed?)
  {
    hide Advance, PhaseOf;
    PrefixSound(dicts, trace, i);
    PrefixSound(dicts, trace, i + 1);
    AdvanceFacts(dicts, PhaseOf(dicts, trace[..i]), trace[i]);
    assert trace[..|trace|] == trace;
    PrefixSound(dicts, trace, i + 2);
    AdvanceFacts(dicts, PhaseOf(dicts, trace[..i + 1]), trace[i + 1]);
  }

  // The round numbers announced, in order.
  function Rounds(trace: seq<Event>): seq<nat> {
    if trace == [] then []
    else
      var n := |trace| - 1;
      Rounds(trace[..n]) + if trace[n].AgentStep? then [trace[n].round] else []
  }

  function Steps(q: Phase): nat {
    match q
    case Idle(n) => n
    case Streaming(n) => n
    case Texted(n) => n
    case Started(n, _) => n
    case Ran(n) => n
    case _ => 0
  }

  predicate InRound(q: Phase) {
    q.Streaming? || q.Texted? || q.Started? || q.Ran?
  }

  lemma {:induction false} RoundsCount(dicts: bool, trace: seq<Event>)
    requires PhaseOf(dicts, trace) != Broken
    ensures forall i :: 0 <= i < |Rounds(trace)| ==> Rounds(trace)[i] == i + 1
    ensures |Rounds(trace)| <= MAX_ROUNDS
    ensures !PhaseOf(dicts, trace).Ended? && !PhaseOf(dicts, trace).Closed?
          ==> Steps(PhaseOf(dicts, trace)) == |Rounds(trace)|
    ensures InRound(PhaseOf(dicts, trace)) ==> |Rounds(trace)| < MAX_ROUNDS
  {
    if trace != [] {
      var n := |trace| - 1;
      PrefixSound(dicts, trace, n);
      assert trace[..n + 1] == trace;
      RoundsCount(dicts, trace[..n]);
    }
  }

  // The rounds are numbered 1, 2, ... and there are at most ten.
  lemma RoundsNumbered(dicts: bool, trace: seq<Event>)
    requires Accepted(dicts, trace)
    ensures |Rounds(trace)| <= MAX_ROUNDS && forall i :: 0 <= i < |Rounds(trace)| ==> Rounds(trace)[i] == i + 1
  {
    RoundsCount(dicts, trace);
  }

  // ------------------------------------------------------- what is streamed

  // An exception is turned into an error report.
  function ReportOf(w: World, messages: seq<Turn>, b: Block): Option<Report> {
    match w.execute(messages, b)
    case Returns(r) => Some(r)
    case Throws(m) => Some(Report(b.tool + ": error", m, true, Some(1)))
    case NotADict => None
  }

  function StartOf(b: Block): Event {
    ToolStart(b.tool, Clipped(FirstLine(b.content), 200))
  }

  function OutputOf(b: Block, r: Report): Event {
    ToolOutput(b.tool, Clipped(r.output, 8000), r.exitCode, !r.error && r.exitCode in {None, Some(0)})
  }

  // The events and reports of some calls, and whether the loop was left by an
  // exception.
  datatype Calls = Calls(events: seq<Event>, reports: seq<string>, failed: bool)

  function CallOf(w: World, messages: seq<Turn>, b: Block): Calls {
    match ReportOf(w, messages, b)
    case None => Calls([StartOf(b)], [], true)
    case Some(r) =>
      match w.format(r)
      case None => Calls([StartOf(b), OutputOf(b, r)], [], true)
      case Some(text) => Calls([StartOf(b), OutputOf(b, r)], [text], false)
  }

  predicate Prefix(s: string, t: string, n: nat) {
    s <= t && (s == t || |s| == n) && |s| <= n
  }

  // What is shown of one call: the first line of its content, up to 200
  // characters, and then, unless the result is no dictionary, up to 8000 of its
  // output. It went well if it came back without an error and with no exit code
  // but zero; an exception is shown as a failure with exit code one.
  lemma CallShown(w: World, messages: seq<Turn>, b: Block) returns (preview: string, shown: string)
    ensures CallOf(w, messages, b).events ==
      match w.execute(messages, b)
      case Returns(r) =>
        [ToolStart(b.tool, preview), ToolOutput(b.tool, shown, r.exitCode, !r.error && r.exitCode in {None, Some(0)})]
      case Throws(_) => [ToolStart(b.tool, preview), ToolOutput(b.tool, shown, Some(1), false)]
      case NotADict => [ToolStart(b.tool, preview)]
    ensures '\n' !in preview && preview <= b.content
    ensures preview == b.content || |preview| == 200 || (|preview| < 200 && b.content[|preview|] == '\n')
    ensures match w.execute(messages, b)
            case Returns(r) => Prefix(shown, r.output, 8000)
            case Throws(m) => Prefix(shown, m, 8000)
            case NotADict => true
    ensures CallOf(w, messages, b).failed <==>
      ReportOf(w, messages, b).None? || w.format(ReportOf(w, messages, b).value).None?
  {
    preview := Clipped(FirstLine(b.content), 200);
    shown := match w.execute(messages, b)
      case Returns(r) => Clipped(r.output, 8000)
      case Throws(m) => Clipped(m, 8000)
      case NotADict => "";
    FirstLineRight(b.content);
  }

  lemma {:induction false} FirstLineRight(s: string)
    ensures FirstLine(s) <= s && '\n' !in FirstLine(s)
    ensures FirstLine(s) == s || s[|FirstLine(s)|] == '\n'
  {
    if s != "" && s[0] != '\n' {
      FirstLineRight(s[1..]);
      assert s == [s[0]] + s[1..];
    }
  }

  function UserTurns(reports: seq<string>): (r: seq<Turn>)
    ensures |r| == |reports| && forall i :: 0 <= i < |r| ==> r[i] == User(reports[i])
  {
    seq(|reports|, i requires 0 <= i < |reports| => User(reports[i]))
  }

  // Every call sees the reports of those before it.
  function CallsOf(w: World, messages: seq<Turn>, blocks: seq<Block>): Calls {
    if blocks == [] then Calls([], [], false)
    else
      var n := |blocks| - 1;
      var before := CallsOf(w, messages, blocks[..n]);
      if before.failed then before
      else
        var call := CallOf(w, messages + UserTurns(before.reports), blocks[n]);
        Calls(before.events + call.events, before.reports + call.reports, call.failed)
  }

  function Deltas(segments: seq<string>): seq<Event> {
    if segments == [] then [] else Deltas(segments[..|segments| - 1]) + [Delta(segments[|segments| - 1])]
  }

  // What a round leads to: another one, the end, or the exception handler.
  datatype Verdict = Continue | Answered | Raised

  datatype Round = Round(events: seq<Event>, turns: seq<Turn>, verdict: Verdict)

  // A round from the end of the model's turn on.
  function Reaction(w: World, messages: seq<Turn>, n: nat, text: string, clean: string): Round {
    match w.parse(text)
    case None => Round([AssistantText(clean)], [], Raised)
    case Some(all) =>
      var blocks := Permitted(all);
      if blocks == [] then Round([AssistantText(clean)], [], Answered)
      else
        var calls := CallsOf(w, messages + [Assistant(text)], blocks);
        var turns := [Assistant(text)] + UserTurns(calls.reports);
        if calls.failed then Round([AssistantText(clean)] + calls.events, turns, Raised)
        else Round([AssistantText(clean)] + calls.events + [AgentStep(n + 1)], turns, Continue)
  }

  function RoundOf(w: World, messages: seq<Turn>, n: nat): Round {
    var g := w.generate(messages);
    var text := Concat(g.segments);
    if g.raises || w.strip(text).None? then Round(Deltas(g.segments), [], Raised)
    else
      var r := Reaction(w, messages, n, text, w.strip(text).value);
      Round(Deltas(g.segments) + r.events, r.turns, r.verdict)
  }

  // A whole stream, and the messages as they stand at its end.
  datatype Stream = Stream(events: seq<Event>, messages: seq<Turn>)

  function StreamFrom(w: World, messages: seq<Turn>, n: nat): Stream
    requires n <= MAX_ROUNDS
    decreases MAX_ROUNDS - n
  {
    if n == MAX_ROUNDS then Stream([Finished(true), DONE], messages)
    else
      var r := RoundOf(w, messages, n);
      match r.verdict
      case Continue =>
        var rest := StreamFrom(w, messages + r.turns, n + 1);
        Stream(r.events + rest.events, rest.messages)
      case Answered => Stream(r.events + [Finished(false), DONE], messages + r.turns)
      case Raised => Stream(r.events + [Failed, DONE], messages + r.turns)
  }

  function StreamOf(w: World, user: seq<Turn>): Stream {
    if w.imports then StreamFrom(w, [System] + user, 0) else Stream([Failed, DONE], [])
  }

  // ------------------------------------------------------------ the loop

  method RunTool(w: World, b: Block, messages: seq<Turn>) returns (trace: seq<Event>, report: string, failed: bool)
    ensures Calls(trace, if failed then [] else [report], failed) == CallOf(w, messages, b)
  {
    trace, report := [ToolStart(b.tool, Clipped(FirstLine(b.content), 200))], "";
    var outcome := w.execute(messages, b);
    if outcome.NotADict? { return trace, report, true; }
    var result := if outcome.Throws? then Report(b.tool + ": error", outcome.message, true, Some(1))
                  else outcome.report;
    var ok := !result.error && (result.exitCode == None || result.exitCode == Some(0));
    trace := trace + [ToolOutput(b.tool, Clipped(result.output, 8000), result.exitCode, ok)];
    var text := w.format(result);
    if text.None? { return trace, report, true; }
    return trace, text.value, false;
  }

  // Run the permitted calls of one turn, in order.
  method RunTools(w: World, blocks: seq<Block>, messages0: seq<Turn>)
    returns (trace: seq<Event>, messages: seq<Turn>, failed: bool)
    ensures trace == CallsOf(w, messages0, blocks).events && failed == CallsOf(w, messages0, blocks).failed
    ensures messages == messages0 + UserTurns(CallsOf(w, messages0, blocks).reports)
  {
    hide CallOf;
    trace, messages, failed := [], messages0, false;
    for i := 0 to |blocks|
      invariant var c := CallsOf(w, messages0, blocks[..i]);
        trace == c.events && messages == messages0 + UserTurns(c.reports) && !c.failed
      invariant !failed
    {
      assert blocks[..i + 1][..i] == blocks[..i];
      var events, report;
      events, report, failed := RunTool(w, blocks[i], messages);
      trace := trace + events;
      if failed {
        FailureEnds(w, messages0, blocks, i + 1);
        return;
      }
      messages := messages + [User(report)];
    }
    assert blocks[..|blocks|] == blocks;
  }

  lemma {:induction false} FailureEnds(w: World, messages: seq<Turn>, blocks: seq<Block>, i: nat)
    requires i <= |blocks| && CallsOf(w, messages, blocks[..i]).failed
    ensures CallsOf(w, messages, blocks) == CallsOf(w, messages, blocks[..i])
  {
    hide CallOf;
    var n := |blocks| - 1;
    if i == |blocks| {
      assert blocks[..i] == blocks;
    } else {
      assert blocks[..n][..i] == blocks[..i];
      FailureEnds(w, messages, blocks[..n], i);
    }
  }

  // The body of the loop.
  method RunRound(w: World, messages0: seq<Turn>, rnd: nat)
    returns (trace: seq<Event>, messages: seq<Turn>, verdict: Verdict)
    ensures RoundOf(w, messages0, rnd).events == trace && RoundOf(w, messages0, rnd).verdict == verdict
    ensures messages == messages0 + RoundOf(w, messages0, rnd).turns
  {
    hide CallsOf, Permitted;
    var g := w.generate(messages0);
    var text := "";
    trace, messages := [], messages0;
    for i := 0 to |g.segments|
      invariant text == Concat(g.segments[..i]) && trace == Deltas(g.segments[..i])
    {
      assert g.segments[..i + 1][..i] == g.segments[..i];
      text := text + g.segments[i];
      trace := trace + [Delta(g.segments[i])];
    }
    assert g.segments[..|g.segments|] == g.segments;
    if g.raises { return trace, messages, Raised; }
    var clean := w.strip(text);
    if clean.None? { return trace, messages, Raised; }
    var events;
    events, messages, verdict := React(w, messages0, rnd, text, clean.value);
    trace := trace + events;
  }

  // The rest of that body, once the turn is complete.
  method React(w: World, messages0: seq<Turn>, rnd: nat, text: string, clean: string)
    returns (trace: seq<Event>, messages: seq<Turn>, verdict: Verdict)
    ensures var r := Reaction(w, messages0, rnd, text, clean);
      trace == r.events && messages == messages0 + r.turns && verdict == r.verdict
  {
    hide CallsOf;
    trace, messages := [AssistantText(clean)], messages0;
    var parsed := w.parse(text);
    if parsed.None? { return trace, messages, Raised; }
    var blocks := Permitted(parsed.value);
    if blocks == [] { return trace, messages, Answered; }
    messages := messages + [Assistant(text)];
    var events, failed;
    events, messages, failed := RunTools(w, blocks, messages);
    trace := trace + events;
    if failed { return trace, messages, Raised; }
    trace := trace + [AgentStep(rnd + 1)];
    verdict := Continue;
  }

  // The calls one by one: each sees the reports of all before it, and only the
  // one that fails, if any, has none of its own.
  lemma {:induction false} CallsOneByOne(w: World, messages: seq<Turn>, blocks: seq<Block>)
    ensures var c := CallsOf(w, messages, blocks); var k := |c.reports|;
      && k <= |blocks| && (c.failed <==> k < |blocks|) && 2 * k <= |c.events| && (!c.failed ==> |c.events| == 2 * k)
      && (forall i :: 0 <= i < k ==>
            CallOf(w, messages + UserTurns(c.reports[..i]), blocks[i])
            == Calls(c.events[2 * i..2 * i + 2], [c.reports[i]], false))
      && (c.failed ==> CallOf(w, messages + UserTurns(c.reports), blocks[k]) == Calls(c.events[2 * k..], [], true))
  {
    if blocks != [] {
      var n := |blocks| - 1;
      var before := CallsOf(w, messages, blocks[..n]);
      CallsOneByOne(w, messages, blocks[..n]);
      if !before.failed {
        var call := CallOf(w, messages + UserTurns(before.reports), blocks[n]);
        assert |call.events| <= 2 && call.reports == (if call.failed then [] else [call.reports[0]])
            && (!call.failed ==> |call.events| == 2);
        hide CallOf, UserTurns;
        OneMoreCall(w, messages, blocks, before, call);
      }
    }
  }

  lemma OneMoreCall(w: World, messages: seq<Turn>, blocks: seq<Block>, before: Calls, call: Calls)
    requires blocks != [] && |before.reports| == |blocks| - 1 && |before.events| == 2 * (|blocks| - 1)
    requires call == CallOf(w, messages + UserTurns(before.reports), blocks[|blocks| - 1])
    requires if call.failed then call.reports == [] else |call.reports| == 1 && |call.events| == 2
    requires forall i :: 0 <= i < |before.reports| ==>
      CallOf(w, messages + UserTurns(before.reports[..i]), blocks[i])
      == Calls(before.events[2 * i..2 * i + 2], [before.reports[i]], false)
    ensures var c := Calls(before.events + call.events, before.reports + call.reports, call.failed);
      var k := |c.reports|;
      && (forall i :: 0 <= i < k ==>
            CallOf(w, messages + UserTurns(c.reports[..i]), blocks[i])
            == Calls(c.events[2 * i..2 * i + 2], [c.reports[i]], false))
      && (c.failed ==> CallOf(w, messages + UserTurns(c.reports), blocks[k]) == Calls(c.events[2 * k..], [], true))
  {
    hide CallOf, UserTurns;
    var c := Calls(before.events + call.events, before.reports + call.reports, call.failed);
    var n := |blocks| - 1;
    forall i | 0 <= i < n
      ensures c.reports[..i] == before.reports[..i] && c.events[2 * i..2 * i + 2] == before.events[2 * i..2 * i + 2]
    {}
    assert c.reports[..n] == before.reports && c.events[2 * n..] == call.events;
    if call.failed {
      assert c.reports == before.reports;
    } else {
      assert c.events[2 * n..2 * n + 2] == call.events && call.reports == [c.reports[n]];
    }
  }

  // ------------------------------------------------------- how a round ends

  // A round streams what the model says, segment by segment, and then, unless
  // that raises, the whole of it stripped of its tool blocks. It is the last one
  // exactly if nothing raises and no block is permitted.
  lemma RoundShown(w: World, messages: seq<Turn>, n: nat)
    ensures var (r, g) := (RoundOf(w, messages, n), w.generate(messages)); var text := Concat(g.segments);
      && |r.events| >= |g.segments| && (forall i :: 0 <= i < |g.segments| ==> r.events[i] == Delta(g.segments[i]))
      && (!g.raises && w.strip(text).Some? ==>
            |r.events| > |g.segments| && r.events[|g.segments|] == AssistantText(w.strip(text).value))
      && (r.verdict.Answered? <==>
            !g.raises && w.strip(text).Some? && w.parse(text).Some?
            && forall b :: b in w.parse(text).value ==> !AllowedTool(b.tool))
      && (r.verdict.Answered? ==> |r.events| == |g.segments| + 1)
  {
    var segments, text := w.generate(messages).segments, Concat(w.generate(messages).segments);
    DeltasAre(segments);
    if w.parse(text).Some? { NonePermitted(w.parse(text).value); }
    hide Deltas, Permitted, CallsOf, AllowedTool;
  }

  lemma {:induction false} DeltasAre(segments: seq<string>)
    ensures |Deltas(segments)| == |segments|
    ensures forall i :: 0 <= i < |segments| ==> Deltas(segments)[i] == Delta(segments[i])
  {
    if segments != [] { DeltasAre(segments[..|segments| - 1]); }
  }

  lemma {:induction false} NonePermitted(blocks: seq<Block>)
    ensures Permitted(blocks) == [] <==> forall b :: b in blocks ==> !AllowedTool(b.tool)
  {
    hide AllowedTool;
    if blocks != [] {
      NonePermitted(blocks[1..]);
      assert blocks == [blocks[0]] + blocks[1..];
    }
  }

  // Nothing the loop calls raises, and every result is a dictionary.
  ghost predicate Smooth(w: World) {
    && w.imports && (forall messages :: !w.generate(messages).raises)
    && (forall text :: w.strip(text).Some? && w.parse(text).Some?)
    && (forall messages, b :: w.execute(messages, b).Returns?) && forall r :: w.format(r).Some?
  }

  lemma {:induction false} SmoothCalls(w: World, messages: seq<Turn>, blocks: seq<Block>)
    requires Smooth(w)
    ensures !CallsOf(w, messages, blocks).failed && Failed !in CallsOf(w, messages, blocks).events
  {
    if blocks != [] { SmoothCalls(w, messages, blocks[..|blocks| - 1]); }
  }

  lemma SmoothRound(w: World, messages: seq<Turn>, n: nat)
    requires Smooth(w)
    ensures !RoundOf(w, messages, n).verdict.Raised? && Failed !in RoundOf(w, messages, n).events
  {
    var g := w.generate(messages);
    var text := Concat(g.segments);
    DeltasAre(g.segments);
    SmoothCalls(w, messages + [Assistant(text)], Permitted(w.parse(text).value));
    assert w.strip(text).Some?;
    hide Deltas, CallsOf, Permitted;
  }

  lemma StreamLast(w: World, messages: seq<Turn>)
    ensures StreamFrom(w, messages, MAX_ROUNDS).events == [Finished(true), DONE]
  {}

  lemma StreamParts(w: World, messages: seq<Turn>, n: nat)
    requires n < MAX_ROUNDS && !RoundOf(w, messages, n).verdict.Raised?
    ensures var r := RoundOf(w, messages, n);
      StreamFrom(w, messages, n).events
      == r.events + if r.verdict.Continue? then StreamFrom(w, messages + r.turns, n + 1).events
                    else [Finished(false), DONE]
  {
    hide RoundOf;
  }

  lemma {:induction false} SmoothFrom(w: World, messages: seq<Turn>, n: nat)
    requires Smooth(w) && n <= MAX_ROUNDS
    ensures Failed !in StreamFrom(w, messages, n).events
    decreases MAX_ROUNDS - n
  {
    StreamLast(w, messages);
    hide RoundOf, StreamFrom;
    if n < MAX_ROUNDS {
      SmoothRound(w, messages, n);
      StreamParts(w, messages, n);
      var r := RoundOf(w, messages, n);
      if r.verdict.Continue? { SmoothFrom(w, messages + r.turns, n + 1); }
    }
  }

  // An error is streamed only if something has raised.
  lemma SmoothStream(w: World, user: seq<Turn>)
    requires Smooth(w)
    ensures Failed !in StreamOf(w, user).events
  {
    SmoothFrom(w, [System] + user, 0);
  }

  // What is left to stream after the rounds so far completes the whole.
  predicate Completes(w: World, trace: seq<Event>, messages: seq<Turn>, n: nat, whole: Stream)
    requires n <= MAX_ROUNDS
  {
    var rest := StreamFrom(w, messages, n);
    trace + rest.events == whole.events && rest.messages == whole.messages
  }

  lemma StreamStep(w: World, trace: seq<Event>, messages: seq<Turn>, n: nat, whole: Stream)
    requires n < MAX_ROUNDS && Completes(w, trace, messages, n, whole)
    ensures var r := RoundOf(w, messages, n); var after := trace + r.events;
      match r.verdict
      case Continue => Completes(w, after, messages + r.turns, n + 1, whole)
      case Answered => Stream(after + [Finished(false), DONE], messages + r.turns) == whole
      case Raised => Stream(after + [Failed, DONE], messages + r.turns) == whole
  {
    hide RoundOf;
    var r := RoundOf(w, messages, n);
    if r.verdict.Continue? {
      var rest := StreamFrom(w, messages + r.turns, n + 1);
      assert trace + r.events + rest.events == trace + (r.events + rest.events);
    } else {
      assert trace + r.events + [Finished(false), DONE] == trace + (r.events + [Finished(false), DONE]);
      assert trace + r.events + [Failed, DONE] == trace + (r.events + [Failed, DONE]);
    }
  }

  lemma StreamBounds(w: World, user: seq<Turn>, trace: seq<Event>, messages: seq<Turn>)
    ensures w.imports ==> Completes(w, [], [System] + user, 0, StreamOf(w, user))
    ensures !w.imports ==> StreamOf(w, user) == Stream([Failed, DONE], [])
    ensures Completes(w, trace, messages, MAX_ROUNDS, StreamOf(w, user)) ==>
      Stream(trace + [Finished(true), DONE], messages) == StreamOf(w, user)
  {
    hide RoundOf;
    assert [] + StreamOf(w, user).events == StreamOf(w, user).events;
  }

  // `agent_stream._gen`
  method AgentStream(w: World, user: seq<Turn>) returns (trace: seq<Event>, messages: seq<Turn>)
    ensures Stream(trace, messages) == StreamOf(w, user)
  {
    hide RoundOf, StreamFrom, StreamOf, Completes;
    trace, messages := [], [];
    StreamBounds(w, user, trace, messages);
    if !w.imports { return [Failed, DONE], []; }
    messages := [System] + user;
    for rnd := 0 to MAX_ROUNDS
      invariant Completes(w, trace, messages, rnd, StreamOf(w, user))
    {
      StreamStep(w, trace, messages, rnd, StreamOf(w, user));
      var events, verdict;
      events, messages, verdict := RunRound(w, messages, rnd);
      trace := trace + events;
      if verdict.Answered? { return trace + [Finished(false), DONE], messages; }
      if verdict.Raised? { return trace + [Failed, DONE], messages; }
    }
    StreamBounds(w, user, trace, messages);
    trace := trace + [Finished(true), DONE];
  }

  // ------------------------------------------ the stream obeys the grammar

  ghost predicate AlwaysDicts(w: World) {
    forall turns: seq<Turn>, b: Block :: w.execute(turns, b) != NotADict
  }

  lemma PhaseTwo(dicts: bool, trace: seq<Event>, e: Event, f: Event)
    ensures PhaseOf(dicts, trace + [e, f]) == Advance(dicts, Advance(dicts, PhaseOf(dicts, trace), e), f)
  {
    PhaseAppend(dicts, trace, e);
    PhaseAppend(dicts, trace + [e], f);
    assert trace + [e, f] == trace + [e] + [f];
  }

  lemma {:induction false} DeltasPhase(dicts: bool, trace: seq<Event>, segments: seq<string>, n: nat)
    requires PhaseOf(dicts, trace) == Idle(n) && n < MAX_ROUNDS
    ensures PhaseOf(dicts, trace + Deltas(segments)) == if segments == [] then Idle(n) else Streaming(n)
  {
    if segments == [] {
      assert trace + Deltas(segments) == trace;
    } else {
      var init, last := segments[..|segments| - 1], segments[|segments| - 1];
      DeltasPhase(dicts, trace, init, n);
      PhaseAppend(dicts, trace + Deltas(init), Delta(last));
      assert trace + Deltas(segments) == trace + Deltas(init) + [Delta(last)];
    }
  }

  lemma CallPhase(dicts: bool, trace: seq<Event>, w: World, messages: seq<Turn>, b: Block, n: nat)
    requires AllowedTool(b.tool) && (dicts ==> AlwaysDicts(w))
    requires PhaseOf(dicts, trace) == Texted(n) || PhaseOf(dicts, trace) == Ran(n)
    ensures var c := CallOf(w, messages, b); var q := PhaseOf(dicts, trace + c.events);
      if c.failed then Advance(dicts, q, Failed) == Ended else q == Ran(n)
  {
    hide PhaseOf, AllowedTool;
    PhaseAppend(dicts, trace, StartOf(b));
    if ReportOf(w, messages, b).Some? {
      PhaseTwo(dicts, trace, StartOf(b), OutputOf(b, ReportOf(w, messages, b).value));
    }
  }

  lemma {:induction false} CallsPhase(dicts: bool, trace: seq<Event>, w: World,
                                      messages: seq<Turn>, blocks: seq<Block>, n: nat)
    requires (forall b :: b in blocks ==> AllowedTool(b.tool)) && (dicts ==> AlwaysDicts(w))
    requires PhaseOf(dicts, trace) == Texted(n)
    ensures var c := CallsOf(w, messages, blocks); var q := PhaseOf(dicts, trace + c.events);
      if c.failed then Advance(dicts, q, Failed) == Ended else q == if blocks == [] then Texted(n) else Ran(n)
  {
    hide PhaseOf, AllowedTool, Advance, CallOf;
    if blocks == [] {
      assert trace + [] == trace;
    } else {
      var init, last := blocks[..|blocks| - 1], blocks[|blocks| - 1];
      CallsPhase(dicts, trace, w, messages, init, n);
      var before := CallsOf(w, messages, init);
      if !before.failed {
        var call := CallOf(w, messages + UserTurns(before.reports), last);
        CallPhase(dicts, trace + before.events, w, messages + UserTurns(before.reports), last, n);
        assert trace + (before.events + call.events) == trace + before.events + call.events;
      }
    }
  }

  lemma ReactionPhase(dicts: bool, trace: seq<Event>, w: World, messages: seq<Turn>, n: nat,
                      text: string, clean: string)
    requires (dicts ==> AlwaysDicts(w)) && n < MAX_ROUNDS
    requires PhaseOf(dicts, trace) == Idle(n) || PhaseOf(dicts, trace) == Streaming(n)
    ensures Leads(dicts, trace, Reaction(w, messages, n, text, clean), n)
  {
    hide PhaseOf, CallsOf, AllowedTool;
    var said := trace + [AssistantText(clean)];
    PhaseAppend(dicts, trace, AssistantText(clean));
    if w.parse(text).Some? && Permitted(w.parse(text).value) != [] {
      var blocks := Permitted(w.parse(text).value);
      var calls := CallsOf(w, messages + [Assistant(text)], blocks);
      CallsPhase(dicts, said, w, messages + [Assistant(text)], blocks, n);
      assert trace + ([AssistantText(clean)] + calls.events) == said + calls.events;
      PhaseAppend(dicts, said + calls.events, AgentStep(n + 1));
      assert trace + ([AssistantText(clean)] + calls.events + [AgentStep(n + 1)])
          == said + calls.events + [AgentStep(n + 1)];
    }
  }

  // A round of the loop ends where the next one can begin, or where the stream
  // can be ended the way it is.
  predicate Leads(dicts: bool, trace: seq<Event>, r: Round, n: nat) {
    var q := PhaseOf(dicts, trace + r.events);
    match r.verdict
    case Continue => q == Idle(n + 1)
    case Answered => Advance(dicts, q, Finished(false)) == Ended
    case Raised => Advance(dicts, q, Failed) == Ended
  }

  lemma RoundPhase(dicts: bool, trace: seq<Event>, w: World, messages: seq<Turn>, n: nat)
    requires (dicts ==> AlwaysDicts(w)) && n < MAX_ROUNDS && PhaseOf(dicts, trace) == Idle(n)
    ensures Leads(dicts, trace, RoundOf(w, messages, n), n)
  {
    hide PhaseOf, Reaction;
    var g := w.generate(messages);
    var text := Concat(g.segments);
    DeltasPhase(dicts, trace, g.segments, n);
    if !g.raises && w.strip(text).Some? {
      var r := Reaction(w, messages, n, text, w.strip(text).value);
      ReactionPhase(dicts, trace + Deltas(g.segments), w, messages, n, text, w.strip(text).value);
      assert trace + (Deltas(g.segments) + r.events) == trace + Deltas(g.segments) + r.events;
    }
  }

  lemma {:induction false} StreamFromAccepted(dicts: bool, trace: seq<Event>, w: World, messages: seq<Turn>, n: nat)
    requires (dicts ==> AlwaysDicts(w)) && n <= MAX_ROUNDS && PhaseOf(dicts, trace) == Idle(n)
    ensures Accepted(dicts, trace + StreamFrom(w, messages, n).events)
    decreases MAX_ROUNDS - n
  {
    hide PhaseOf, RoundOf;
    if n == MAX_ROUNDS {
      PhaseTwo(dicts, trace, Finished(true), DONE);
    } else {
      var r := RoundOf(w, messages, n);
      RoundPhase(dicts, trace, w, messages, n);
      PhaseTwo(dicts, trace + r.events, Finished(false), DONE);
      PhaseTwo(dicts, trace + r.events, Failed, DONE);
      if r.verdict.Continue? {
        StreamFromAccepted(dicts, trace + r.events, w, messages + r.turns, n + 1);
        var rest := StreamFrom(w, messages + r.turns, n + 1);
        assert trace + (r.events + rest.events) == trace + r.events + rest.events;
      } else {
        assert trace + (r.events + [Finished(false), DONE]) == trace + r.events + [Finished(false), DONE];
        assert trace + (r.events + [Failed, DONE]) == trace + r.events + [Failed, DONE];
      }
    }
  }

  // Whatever the model says and whichever call fails, the stream is accepted,
  // and strictly so when every tool result is a dictionary.
  lemma StreamAccepted(dicts: bool, w: World, user: seq<Turn>)
    requires dicts ==> AlwaysDicts(w)
    ensures Accepted(dicts, StreamOf(w, user).events)
  {
    assert PhaseOf(dicts, []) == Idle(0);
    PhaseTwo(dicts, [], Failed, DONE);
    assert [] + [Failed, DONE] == [Failed, DONE];
    if w.imports {
      StreamFromAccepted(dicts, [], w, [System] + user, 0);
      assert [] + StreamOf(w, user).events == StreamOf(w, user).events;
    }
  }

  // ------------------------------------------------------------ transcript

  // The calls of a round in the stream: one start for each block, in order, and
  // its output right behind it; a report for each unless the loop was left.
  ghost predicate InOrder(blocks: seq<Block>, c: Calls) {
    && |c.events| <= 2 * |blocks| && |c.reports| <= |blocks|
    && (!c.failed ==> |c.events| == 2 * |blocks| && |c.reports| == |blocks|)
    && (forall i: nat :: 2 * i < |c.events| ==> c.events[2 * i] == StartOf(blocks[i]))
    && (forall i: nat :: 2 * i + 1 < |c.events| ==>
          c.events[2 * i + 1].ToolOutput? && c.events[2 * i + 1].tool == blocks[i].tool)
  }

  // The shape of one call.
  predicate OneCall(b: Block, c: Calls) {
    && 1 <= |c.events| <= 2 && |c.reports| <= 1 && (!c.failed ==> |c.events| == 2 && |c.reports| == 1)
    && c.events[0] == StartOf(b) && (|c.events| == 2 ==> c.events[1].ToolOutput? && c.events[1].tool == b.tool)
  }

  lemma CallShape(w: World, messages: seq<Turn>, b: Block)
    ensures OneCall(b, CallOf(w, messages, b))
  {}

  lemma NoCalls()
    ensures InOrder([], Calls([], [], false))
  {}

  lemma OneMore(blocks: seq<Block>, before: Calls, b: Block, call: Calls)
    requires InOrder(blocks, before) && OneCall(b, call)
    ensures before.failed ==> InOrder(blocks + [b], before)
    ensures !before.failed
          ==> InOrder(blocks + [b], Calls(before.events + call.events, before.reports + call.reports, call.failed))
  {
    hide StartOf;
    var n, events := |blocks|, before.events + call.events;
    if !before.failed {
      forall i: nat | 2 * i < |events|
        ensures events[2 * i] == StartOf((blocks + [b])[i])
      {
        if i == n { assert events[2 * i] == call.events[0]; }
      }
      forall i: nat | 2 * i + 1 < |events|
        ensures events[2 * i + 1].ToolOutput? && events[2 * i + 1].tool == (blocks + [b])[i].tool
      {
        if i == n { assert events[2 * i + 1] == call.events[1]; }
      }
    }
  }

  lemma {:induction false} CallsInOrder(w: World, messages: seq<Turn>, blocks: seq<Block>)
    ensures InOrder(blocks, CallsOf(w, messages, blocks))
  {
    hide CallOf, InOrder;
    if blocks == [] {
      NoCalls();
    } else {
      var n := |blocks| - 1;
      CallsInOrder(w, messages, blocks[..n]);
      var before := CallsOf(w, messages, blocks[..n]);
      var later := messages + UserTurns(before.reports);
      CallShape(w, later, blocks[n]);
      assert blocks == blocks[..n] + [blocks[n]];
      OneMore(blocks[..n], before, blocks[n], CallOf(w, later, blocks[n]));
    }
  }

  // What a consumer hears of the model in a stream.
  function Heard(trace: seq<Event>): string {
    if trace == [] then ""
    else Heard(trace[..|trace| - 1]) + if trace[|trace| - 1].Delta? then trace[|trace| - 1].text else ""
  }

  lemma {:induction false} HeardConcat(a: seq<Event>, b: seq<Event>)
    ensures Heard(a + b) == Heard(a) + Heard(b)
  {
    if b == [] {
      assert a + b == a;
    } else {
      assert (a + b)[..|a + b| - 1] == a + b[..|b| - 1];
      HeardConcat(a, b[..|b| - 1]);
    }
  }

  lemma {:induction false} HeardDeltas(segments: seq<string>)
    ensures Heard(Deltas(segments)) == Concat(segments)
  {
    if segments != [] { HeardDeltas(segments[..|segments| - 1]); }
  }

  lemma {:induction false} HeardNothing(trace: seq<Event>)
    requires forall e :: e in trace ==> !e.Delta?
    ensures Heard(trace) == ""
  {
    if trace != [] { HeardNothing(trace[..|trace| - 1]); }
  }

  lemma {:induction false} CallEvents(w: World, messages: seq<Turn>, blocks: seq<Block>)
    ensures forall e :: e in CallsOf(w, messages, blocks).events ==> e.ToolStart? || e.ToolOutput?
  {
    if blocks != [] { CallEvents(w, messages, blocks[..|blocks| - 1]); }
  }

  // A completed round adds the assistant's turn, exactly as it was streamed, and
  // one turn for each permitted call in it.
  lemma RoundTranscript(w: World, messages: seq<Turn>, n: nat)
    requires RoundOf(w, messages, n).verdict.Continue?
    ensures var r := RoundOf(w, messages, n);
      && w.parse(Heard(r.events)).Some? && r.turns != [] && r.turns[0] == Assistant(Heard(r.events))
      && |r.turns| == 1 + |Permitted(w.parse(Heard(r.events)).value)|
      && forall i :: 1 <= i < |r.turns| ==> r.turns[i].User?
  {
    hide Permitted, CallsOf;
    var g := w.generate(messages);
    var text := Concat(g.segments);
    var blocks := Permitted(w.parse(text).value);
    var reaction := Reaction(w, messages, n, text, w.strip(text).value);
    CallsInOrder(w, messages + [Assistant(text)], blocks);
    CallEvents(w, messages + [Assistant(text)], blocks);
    HeardConcat(Deltas(g.segments), reaction.events);
    HeardDeltas(g.segments);
    HeardNothing(reaction.events);
    assert Heard(RoundOf(w, messages, n).events) == text;
  }

  // The tool calls started in each announced round, and since the last one.
  datatype Tally = Tally(closed: seq<nat>, open: nat)

  function Tallied(t: Tally, e: Event): Tally {
    if e.AgentStep? then Tally(t.closed + [t.open], 0) else if e.ToolStart? then Tally(t.closed, t.open + 1) else t
  }

  function Starts(trace: seq<Event>): Tally {
    if trace == [] then Tally([], 0) else Tallied(Starts(trace[..|trace| - 1]), trace[|trace| - 1])
  }

  // The turn of the assistant and the reports of n calls.
  predicate Group(turns: seq<Turn>, n: nat) {
    |turns| == n + 1 && turns[0].Assistant? && forall i :: 1 <= i < |turns| ==> turns[i].User?
  }

  // What a round that was cut short leaves: nothing, or a turn with the reports
  // of some of the calls it started.
  predicate PartGroup(turns: seq<Turn>, n: nat) {
    turns == [] || (|turns| <= n + 1 && turns[0].Assistant? && forall i :: 1 <= i < |turns| ==> turns[i].User?)
  }

  lemma {:induction false} StartsConcat(a: seq<Event>, b: seq<Event>)
    requires Starts(a).open == 0
    ensures Starts(a + b) == Tally(Starts(a).closed + Starts(b).closed, Starts(b).open)
  {
    if b == [] {
      assert a + b == a;
    } else {
      assert (a + b)[..|a + b| - 1] == a + b[..|b| - 1];
      StartsConcat(a, b[..|b| - 1]);
    }
  }

  // Events that announce nothing.
  lemma {:induction false} StartsOpen(a: seq<Event>, b: seq<Event>)
    requires forall e :: e in b ==> !e.AgentStep?
    ensures Starts(a + b) == Tally(Starts(a).closed, Starts(a).open + Starts(b).open) && Starts(b).closed == []
  {
    if b == [] {
      assert a + b == a;
    } else {
      assert (a + b)[..|a + b| - 1] == a + b[..|b| - 1];
      StartsOpen(a, b[..|b| - 1]);
    }
  }

  lemma {:induction false} StartsNone(trace: seq<Event>)
    requires forall e :: e in trace ==> !e.AgentStep? && !e.ToolStart?
    ensures Starts(trace) == Tally([], 0)
  {
    if trace != [] { StartsNone(trace[..|trace| - 1]); }
  }

  lemma StartsOne(e: Event)
    ensures Starts([e]) == Tallied(Tally([], 0), e)
  {
    assert [e][..0] == [];
  }

  lemma CallStarts(w: World, messages: seq<Turn>, b: Block)
    ensures Starts(CallOf(w, messages, b).events) == Tally([], 1)
  {
    var events := CallOf(w, messages, b).events;
    StartsOne(StartOf(b));
    if |events| == 2 {
      StartsOne(events[1]);
      StartsOpen([events[0]], [events[1]]);
      assert events == [events[0]] + [events[1]];
    } else {
      assert events == [StartOf(b)];
    }
  }

  // No call reports that was not started, and all do unless the loop was left.
  lemma {:induction false} CallsStarts(w: World, messages: seq<Turn>, blocks: seq<Block>)
    ensures var c := CallsOf(w, messages, blocks);
      && Starts(c.events).closed == [] && |c.reports| <= Starts(c.events).open
      && (!c.failed ==> |c.reports| == Starts(c.events).open)
  {
    hide CallOf, Starts;
    if blocks == [] {
      StartsNone([]);
    } else {
      var n := |blocks| - 1;
      CallsStarts(w, messages, blocks[..n]);
      var before := CallsOf(w, messages, blocks[..n]);
      if !before.failed {
        var later := messages + UserTurns(before.reports);
        var call := CallOf(w, later, blocks[n]);
        CallEvents(w, messages, blocks);
        CallShape(w, later, blocks[n]);
        CallStarts(w, later, blocks[n]);
        assert forall e :: e in call.events ==> e in CallsOf(w, messages, blocks).events;
        StartsOpen(before.events, call.events);
      }
    }
  }

  // What a round adds to the messages, against the calls it has started.
  predicate RoundTallied(r: Round) {
    var t := Starts(r.events);
    match r.verdict
    case Continue => t.open == 0 && |t.closed| == 1 && Group(r.turns, t.closed[0])
    case Answered => t == Tally([], 0) && r.turns == []
    case Raised => t.closed == [] && PartGroup(r.turns, t.open)
  }

  lemma ReactionTallied(w: World, messages: seq<Turn>, n: nat, text: string, clean: string)
    ensures RoundTallied(Reaction(w, messages, n, text, clean))
  {
    hide Permitted, CallsOf, Starts;
    var said := [AssistantText(clean)];
    StartsNone(said);
    if w.parse(text).Some? {
      var blocks := Permitted(w.parse(text).value);
      var calls := CallsOf(w, messages + [Assistant(text)], blocks);
      CallEvents(w, messages + [Assistant(text)], blocks);
      CallsStarts(w, messages + [Assistant(text)], blocks);
      StartsOpen(said, calls.events);
      StepTallied(said + calls.events, n);
    }
  }

  lemma StepTallied(trace: seq<Event>, n: nat)
    ensures Starts(trace + [AgentStep(n + 1)]) == Tally(Starts(trace).closed + [Starts(trace).open], 0)
  {
    assert (trace + [AgentStep(n + 1)])[..|trace|] == trace;
  }

  lemma RoundIsTallied(w: World, messages: seq<Turn>, n: nat)
    ensures RoundTallied(RoundOf(w, messages, n))
  {
    hide Reaction, Starts;
    var g := w.generate(messages);
    var text := Concat(g.segments);
    DeltasOnly(g.segments);
    StartsNone(Deltas(g.segments));
    if !g.raises && w.strip(text).Some? {
      var r := Reaction(w, messages, n, text, w.strip(text).value);
      ReactionTallied(w, messages, n, text, w.strip(text).value);
      StartsConcat(Deltas(g.segments), r.events);
    }
  }

  // The messages at the end are those sent, one group for each announced round
  // with one report for each call started in it, and after a failure possibly
  // part of one more.
  lemma {:induction false} StreamTranscript(w: World, messages: seq<Turn>, n: nat)
    returns (log: seq<seq<Turn>>, part: seq<Turn>)
    requires n <= MAX_ROUNDS
    ensures var t := Starts(StreamFrom(w, messages, n).events);
      && |log| == |t.closed| && (forall i :: 0 <= i < |log| ==> Group(log[i], t.closed[i])) && PartGroup(part, t.open)
    ensures StreamFrom(w, messages, n).messages == messages + Flatten(log) + part
    ensures Failed !in StreamFrom(w, messages, n).events ==> part == []
    decreases MAX_ROUNDS - n
  {
    hide RoundOf, Starts, Group, PartGroup;
    log, part := [], [];
    EmptyParts();
    assert messages + Flatten([]) == messages;
    if n == MAX_ROUNDS {
      StartsNone([Finished(true), DONE]);
    } else {
      var r := RoundOf(w, messages, n);
      RoundIsTallied(w, messages, n);
      match r.verdict
      case Continue =>
        log, part := StreamTranscript(w, messages + r.turns, n + 1);
        StartsConcat(r.events, StreamFrom(w, messages + r.turns, n + 1).events);
        assert messages + Flatten([r.turns] + log) == messages + r.turns + Flatten(log);
        log := [r.turns] + log;
      case Answered =>
        StartsOpen(r.events, [Finished(false), DONE]);
        StartsNone([Finished(false), DONE]);
      case Raised =>
        StartsOpen(r.events, [Failed, DONE]);
        StartsNone([Failed, DONE]);
        part := r.turns;
        assert Failed in r.events + [Failed, DONE];
    }
  }

  lemma EmptyParts()
    ensures forall n: nat :: PartGroup([], n)
  {}

  function Flatten(log: seq<seq<Turn>>): seq<Turn> {
    if log == [] then [] else log[0] + Flatten(log[1..])
  }

  lemma {:induction false} DeltasOnly(segments: seq<string>)
    ensures forall e :: e in Deltas(segments) ==> e.Delta?
  {
    if segments != [] { DeltasOnly(segments[..|segments| - 1]); }
  }
}
