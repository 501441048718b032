// Bearer tokens: the table of token rows, the map from token prefix to rows the
// middleware keeps of it, and the flag that marks the map out of date.

module TokenCache {
  import opened Wrappers
  import Scopes

  // An api_tokens row. `token` stands for the bcrypt hash of that token, which
  // only that token passes.
  datatype TokenRow = TokenRow(
    id: string, owner: Option<string>, token: string, prefix: string, scopes: string, active: bool)

  datatype Entry = Entry(id: string, token: string, owner: Option<string>, scopes: seq<string>)
  datatype Grant = Grant(id: string, owner: Option<string>, scopes: seq<string>)

  type Index = map<string, seq<Entry>>

  function EntryOf(r: TokenRow): Entry {
    Entry(r.id, r.token, r.owner, Scopes.Loaded(r.scopes))
  }

  // The rows are stored under the first eight characters of their tokens.
  predicate Prefixed(rows: seq<TokenRow>) {
    forall r :: r in rows ==> |r.token| >= 8 && r.prefix == r.token[..8]
  }

  // `new_map[r.token_prefix].append(...)` on a defaultdict.
  function Filed(index: Index, r: TokenRow): Index {
    index[r.prefix := (if r.prefix in index then index[r.prefix] else []) + [EntryOf(r)]]
  }

  // The active rows grouped by prefix, each group in table order.
  function Grouped(rows: seq<TokenRow>): Index {
    if rows == [] then map[]
    else
      var n := |rows| - 1;
      if rows[n].active then Filed(Grouped(rows[..n]), rows[n]) else Grouped(rows[..n])
  }

  function Candidates(index: Index, prefix: string): seq<Entry> {
    if prefix in index then index[prefix] else []
  }

  function FirstMatch(entries: seq<Entry>, raw: string): Option<Entry> {
    if entries == [] then None
    else if entries[0].token == raw then Some(entries[0])
    else FirstMatch(entries[1..], raw)
  }

  function Granted(e: Option<Entry>): Option<Grant> {
    if e.Some? && e.value.id != "" then Some(Grant(e.value.id, e.value.owner, e.value.scopes)) else None
  }

  predicate Sane(raw: string) {
    12 <= |raw| <= 100
  }

  // The lookup through the index.
  function Lookup(index: Index, raw: string): Option<Grant> {
    if !Sane(raw) then None else Granted(FirstMatch(Candidates(index, raw[..8]), raw))
  }

  // The reference: look at every active row, in table order.
  function ActiveEntries(rows: seq<TokenRow>): seq<Entry> {
    if rows == [] then []
    else
      var n := |rows| - 1;
      ActiveEntries(rows[..n]) + if rows[n].active then [EntryOf(rows[n])] else []
  }

  function Scan(rows: seq<TokenRow>, raw: string): Option<Grant> {
    if !Sane(raw) then None else Granted(FirstMatch(ActiveEntries(rows), raw))
  }

  // ---------------------------------------------------- index refines scan

  lemma {:induction false} FirstMatchAppend(entries: seq<Entry>, e: Entry, raw: string)
    ensures FirstMatch(entries + [e], raw)
         == if FirstMatch(entries, raw).Some? then FirstMatch(entries, raw)
            else if e.token == raw then Some(e) else None
  {
    if entries == [] {
      assert entries + [e] == [e];
    } else {
      assert (entries + [e])[1..] == entries[1..] + [e];
      FirstMatchAppend(entries[1..], e, raw);
    }
  }

  lemma {:induction false} GroupMatches(rows: seq<TokenRow>, raw: string)
    requires Prefixed(rows) && |raw| >= 8
    ensures FirstMatch(Candidates(Grouped(rows), raw[..8]), raw) == FirstMatch(ActiveEntries(rows), raw)
  {
    if rows != [] {
      var n := |rows| - 1;
      var r := rows[n];
      assert r in rows;
      GroupMatches(rows[..n], raw);
      if r.active {
        FirstMatchAppend(ActiveEntries(rows[..n]), EntryOf(r), raw);
        FirstMatchAppend(Candidates(Grouped(rows[..n]), raw[..8]), EntryOf(r), raw);
      } else {
        assert ActiveEntries(rows) == ActiveEntries(rows[..n]);
      }
    }
  }

  // Every token is accepted or refused alike, with the same id, owner and scopes.
  lemma IndexRefinesScan(rows: seq<TokenRow>, raw: string)
    requires Prefixed(rows)
    ensures Lookup(Grouped(rows), raw) == Scan(rows, raw)
  {
    if Sane(raw) { GroupMatches(rows, raw); }
  }

  // ------------------------------------------------------------- mutations

  datatype Mutation =
    | Mint(row: TokenRow)
    | SetScopes(id: string, scopes: string)
    | Remove(id: string)
    | RemoveOwner(owner: string)

  function Rescoped(r: TokenRow, id: string, scopes: string): TokenRow {
    if r.id == id then r.(scopes := scopes) else r
  }

  function Without(rows: seq<TokenRow>, p: TokenRow -> bool): seq<TokenRow> {
    if rows == [] then [] else (if p(rows[0]) then [] else [rows[0]]) + Without(rows[1..], p)
  }

  function Mutated(rows: seq<TokenRow>, m: Mutation): seq<TokenRow> {
    match m
    case Mint(row) => rows + [row]
    case SetScopes(id, scopes) => seq(|rows|, i requires 0 <= i < |rows| => Rescoped(rows[i], id, scopes))
    case Remove(id) => Without(rows, (r: TokenRow) => r.id == id)
    case RemoveOwner(owner) => Without(rows, (r: TokenRow) => r.owner == Some(owner))
  }

  lemma {:induction false} WithoutSubset(rows: seq<TokenRow>, p: TokenRow -> bool)
    ensures forall r :: r in Without(rows, p) <==> r in rows && !p(r)
  {
    if rows != [] {
      assert rows == [rows[0]] + rows[1..];
      WithoutSubset(rows[1..], p);
    }
  }

  lemma MutatedPrefixed(rows: seq<TokenRow>, m: Mutation)
    requires Prefixed(rows) && (m.Mint? ==> Prefixed([m.row]))
    ensures Prefixed(Mutated(rows, m))
  {
    match m
    case Mint(row) => assert row in [row];
    case SetScopes(id, scopes) =>
      forall r | r in Mutated(rows, m)
        ensures |r.token| >= 8 && r.prefix == r.token[..8]
      {
        var i :| 0 <= i < |rows| && r == Rescoped(rows[i], id, scopes);
        assert rows[i] in rows;
      }
    case Remove(id) => WithoutSubset(rows, (r: TokenRow) => r.id == id);
    case RemoveOwner(owner) => WithoutSubset(rows, (r: TokenRow) => r.owner == Some(owner));
  }

  lemma {:induction false} MatchComesFromRow(rows: seq<TokenRow>, raw: string)
    ensures FirstMatch(ActiveEntries(rows), raw).Some? ==>
      exists r :: r in rows && r.active && r.token == raw && FirstMatch(ActiveEntries(rows), raw).value == EntryOf(r)
  {
    if rows != [] {
      var n := |rows| - 1;
      MatchComesFromRow(rows[..n], raw);
      assert rows[n] in rows && forall r :: r in rows[..n] ==> r in rows;
      if rows[n].active {
        FirstMatchAppend(ActiveEntries(rows[..n]), EntryOf(rows[n]), raw);
      } else {
        assert ActiveEntries(rows) == ActiveEntries(rows[..n]);
      }
    }
  }

  // ------------------------------------------------------ who is let in

  // No token is in two rows, and every row has an id.
  ghost predicate Proper(rows: seq<TokenRow>) {
    (forall r, t :: r in rows && t in rows && r.token == t.token ==> r == t) && forall r :: r in rows ==> r.id != ""
  }

  ghost predicate GivenBy(rows: seq<TokenRow>, raw: string, g: Grant) {
    12 <= |raw| <= 100
    && exists r :: r in rows && r.active && r.token == raw && g == Grant(r.id, r.owner, Scopes.Loaded(r.scopes))
  }

  // A token is let in, with the id, owner and scopes of its row, exactly if it has
  // an active row and from 12 to 100 characters.
  lemma ScanIff(rows: seq<TokenRow>, raw: string, g: Grant)
    requires Proper(rows)
    ensures Scan(rows, raw) == Some(g) <==> GivenBy(rows, raw, g)
  {
    MatchComesFromRow(rows, raw);
    if FirstMatch(ActiveEntries(rows), raw).None? { NoMatchNoRow(rows, raw); }
  }

  lemma {:induction false} NoMatchNoRow(rows: seq<TokenRow>, raw: string)
    requires FirstMatch(ActiveEntries(rows), raw).None?
    ensures forall r :: r in rows && r.active ==> r.token != raw
  {
    if rows != [] {
      var n := |rows| - 1;
      assert rows == rows[..n] + [rows[n]];
      if rows[n].active {
        FirstMatchAppend(ActiveEntries(rows[..n]), EntryOf(rows[n]), raw);
      } else {
        assert ActiveEntries(rows) == ActiveEntries(rows[..n]);
      }
      NoMatchNoRow(rows[..n], raw);
    }
  }

  // What a change of the table does to the answer for one token: a new row lets
  // its own token in, new scopes reach the tokens of that id, a removal shuts out
  // those of that id or owner, and no other answer changes.
  function Changed(was: Option<Grant>, raw: string, m: Mutation): Option<Grant> {
    match m
    case Mint(row) =>
      if raw != row.token then was
      else if row.active && 12 <= |raw| <= 100 then Some(Grant(row.id, row.owner, Scopes.Loaded(row.scopes)))
      else None
    case SetScopes(id, scopes) =>
      if was.Some? && was.value.id == id then Some(was.value.(scopes := Scopes.Loaded(scopes))) else was
    case Remove(id) => if was.Some? && was.value.id == id then None else was
    case RemoveOwner(owner) => if was.Some? && was.value.owner == Some(owner) then None else was
  }

  // A new row has a token and an id of its own.
  ghost predicate Novel(rows: seq<TokenRow>, m: Mutation) {
    m.Mint? ==> m.row.id != "" && forall r :: r in rows ==> r.token != m.row.token
  }

  lemma MutatedRows(rows: seq<TokenRow>, m: Mutation)
    ensures match m
            case Mint(row) => forall r :: r in Mutated(rows, m) <==> r in rows || r == row
            case SetScopes(id, scopes) =>
              (forall r :: r in rows ==> (if r.id == id then r.(scopes := scopes) else r) in Mutated(rows, m))
              && forall r :: r in Mutated(rows, m) ==>
                   exists t :: t in rows && r == if t.id == id then t.(scopes := scopes) else t
            case Remove(id) => forall r :: r in Mutated(rows, m) <==> r in rows && r.id != id
            case RemoveOwner(owner) => forall r :: r in Mutated(rows, m) <==> r in rows && r.owner != Some(owner)
  {
    match m
    case Mint(_) =>
    case SetScopes(id, scopes) =>
      var after := Mutated(rows, m);
      forall r | r in rows
        ensures (if r.id == id then r.(scopes := scopes) else r) in after
      {
        var i :| 0 <= i < |rows| && rows[i] == r;
        assert after[i] in after;
      }
      forall r | r in after
        ensures exists t :: t in rows && r == if t.id == id then t.(scopes := scopes) else t
      {
        var i :| 0 <= i < |after| && after[i] == r;
        assert rows[i] in rows;
      }
    case Remove(id) => WithoutSubset(rows, (r: TokenRow) => r.id == id);
    case RemoveOwner(owner) => WithoutSubset(rows, (r: TokenRow) => r.owner == Some(owner));
  }

  lemma MutatedProper(rows: seq<TokenRow>, m: Mutation)
    requires Proper(rows) && Novel(rows, m)
    ensures Proper(Mutated(rows, m))
  {
    MutatedRows(rows, m);
    hide Mutated;
  }

  lemma AnswerChanges(rows: seq<TokenRow>, m: Mutation, raw: string)
    requires Proper(rows) && Novel(rows, m)
    ensures Scan(Mutated(rows, m), raw) == Changed(Scan(rows, raw), raw, m)
  {
    MutatedProper(rows, m);
    MutatedRows(rows, m);
    var after := Mutated(rows, m);
    hide Mutated;
    var was, now := Scan(rows, raw), Scan(after, raw);
    if was.Some? { ScanIff(rows, raw, was.value); }
    if now.Some? { ScanIff(after, raw, now.value); }
    var due := Changed(was, raw, m);
    if due.Some? { ScanIff(after, raw, due.value); }
    if now.Some? { ChangedBack(rows, m, raw, now.value); }
  }

  lemma ChangedBack(rows: seq<TokenRow>, m: Mutation, raw: string, g: Grant)
    requires Proper(rows) && Novel(rows, m) && GivenBy(Mutated(rows, m), raw, g)
    ensures Changed(Scan(rows, raw), raw, m) == Some(g)
  {
    MutatedRows(rows, m);
    var after := Mutated(rows, m);
    hide Mutated, Scan;
    var r :| r in after && r.active && r.token == raw && g == Grant(r.id, r.owner, Scopes.Loaded(r.scopes));
    if m.SetScopes? {
      var t :| t in rows && r == if t.id == m.id then t.(scopes := m.scopes) else t;
      ScanIff(rows, raw, Grant(t.id, t.owner, Scopes.Loaded(t.scopes)));
    } else if r in rows {
      ScanIff(rows, raw, g);
    }
  }

  // ----------------------------------------------------------- interleaving

  // `pending`: changes committed whose invalidation has not run yet.
  // `snapshot`: the rows an unfinished refresh has read.
  datatype State = State(rows: seq<TokenRow>, index: Index, dirty: bool, pending: nat, snapshot: Option<seq<TokenRow>>)

  datatype Event = Commit(m: Mutation) | Invalidate | ReadRows | Publish

  predicate Enabled(st: State, e: Event) {
    match e
    case Commit(m) => m.Mint? ==> Prefixed([m.row])
    case Invalidate => st.pending > 0
    case ReadRows => st.dirty && st.snapshot.None?
    case Publish => st.snapshot.Some?
  }

  function Apply(st: State, e: Event): State
    requires Enabled(st, e)
  {
    match e
    case Commit(m) => st.(rows := Mutated(st.rows, m), pending := st.pending + 1)
    case Invalidate => st.(dirty := true, pending := st.pending - 1)
    case ReadRows => st.(snapshot := Some(st.rows))
    case Publish => st.(index := Grouped(st.snapshot.value), dirty := false, snapshot := None)
  }

  // What a request is told: if the flag is set it refreshes first, or waits for
  // the refresh that is under way.
  function Answer(st: State, raw: string): Option<Grant> {
    Lookup(if !st.dirty then st.index else Grouped(if st.snapshot.Some? then st.snapshot.value else st.rows), raw)
  }

  // Every token is told what a scan of the table would tell it.
  ghost predicate AllRight(st: State) {
    forall raw: string :: Answer(st, raw) == Scan(st.rows, raw)
  }

  ghost predicate SameScans(a: seq<TokenRow>, b: seq<TokenRow>) {
    forall raw: string :: Scan(a, raw) == Scan(b, raw)
  }

  predicate Sound(st: State) {
    Prefixed(st.rows) && (st.snapshot.Some? ==> st.dirty && Prefixed(st.snapshot.value))
  }

  // The answers are right whenever no invalidation is on its way.
  ghost predicate Inv(st: State) {
    Sound(st) && (st.pending == 0 ==> AllRight(st))
  }

  const Initial := State([], map[], true, 0, None)

  // The last invalidation must not come while a refresh holds rows that grant
  // something else than the table does.
  ghost predicate Orderly(st: State, e: Event)
    requires Enabled(st, e)
  {
    e.Invalidate? && st.pending == 1 && st.snapshot.Some? ==> SameScans(st.snapshot.value, st.rows)
  }

  lemma StepSound(st: State, e: Event)
    requires Sound(st) && Enabled(st, e)
    ensures Sound(Apply(st, e))
  {
    if e.Commit? { MutatedPrefixed(st.rows, e.m); }
  }

  // An event leaves the answers right, once no invalidation is on its way, exactly
  // if it is orderly.
  lemma StepKeepsIff(st: State, e: Event)
    requires Inv(st) && Enabled(st, e)
    ensures Inv(Apply(st, e)) <==> Orderly(st, e)
  {
    hide Sound;
    StepSound(st, e);
    var after := Apply(st, e);
    match e
    case Commit(_) =>
    case Invalidate => if after.pending == 0 { DirtyRight(after); }
    case ReadRows => if after.pending == 0 { DirtyRight(after); }
    case Publish => if after.pending == 0 { PublishedRight(st); }
  }

  lemma DirtyRight(st: State)
    requires Sound(st) && st.dirty
    ensures AllRight(st) <==> st.snapshot.None? || SameScans(st.snapshot.value, st.rows)
  {
    hide Scan, Lookup, Prefixed, Grouped;
    var held := if st.snapshot.Some? then st.snapshot.value else st.rows;
    forall raw: string
      ensures Answer(st, raw) == Scan(held, raw)
    {
      IndexRefinesScan(held, raw);
    }
  }

  lemma PublishedRight(st: State)
    requires Sound(st) && st.snapshot.Some?
    ensures AllRight(Apply(st, Publish)) <==> AllRight(st)
  {
    forall raw: string
      ensures Answer(Apply(st, Publish), raw) == Answer(st, raw)
    {}
  }

  ghost predicate EnabledRun(st: State, es: seq<Event>)
    decreases |es|
  {
    es == [] || (Enabled(st, es[0]) && EnabledRun(Apply(st, es[0]), es[1..]))
  }

  ghost predicate OrderlyRun(st: State, es: seq<Event>)
    decreases |es|
  {
    es == [] || (Enabled(st, es[0]) && Orderly(st, es[0]) && OrderlyRun(Apply(st, es[0]), es[1..]))
  }

  ghost function Run(st: State, es: seq<Event>): State
    requires EnabledRun(st, es)
    decreases |es|
  {
    if es == [] then st else Run(Apply(st, es[0]), es[1..])
  }

  // At every point of the run with no invalidation on its way.
  ghost predicate AlwaysRight(st: State, es: seq<Event>)
    requires EnabledRun(st, es)
    decreases |es|
  {
    (st.pending == 0 ==> AllRight(st)) && (es == [] || AlwaysRight(Apply(st, es[0]), es[1..]))
  }

  // The answers are right throughout a run exactly if all its events are orderly.
  lemma {:induction false} AlwaysRightIff(st: State, es: seq<Event>)
    requires Inv(st) && EnabledRun(st, es)
    ensures AlwaysRight(st, es) <==> OrderlyRun(st, es)
    decreases |es|
  {
    hide AllRight, Orderly, Sound, Apply;
    if es != [] {
      var e, after := es[0], Apply(st, es[0]);
      StepKeepsIff(st, e);
      StepSound(st, e);
      if Orderly(st, e) { AlwaysRightIff(after, es[1..]); }
    }
  }

  lemma {:induction false} RunKeeps(st: State, es: seq<Event>)
    requires Inv(st) && OrderlyRun(st, es)
    ensures EnabledRun(st, es) && Inv(Run(st, es))
    decreases |es|
  {
    if es != [] {
      StepKeepsIff(st, es[0]);
      RunKeeps(Apply(st, es[0]), es[1..]);
    }
  }

  lemma AnswersRight(es: seq<Event>, raw: string)
    requires OrderlyRun(Initial, es)
    ensures EnabledRun(Initial, es)
    ensures Run(Initial, es).pending == 0 ==> Answer(Run(Initial, es), raw) == Scan(Run(Initial, es).rows, raw)
  {
    DirtyRight(Initial);
    RunKeeps(Initial, es);
  }

  // ------------------------------------------------------------- removal

  ghost predicate Absent(rows: seq<TokenRow>, id: string) {
    forall r :: r in rows ==> r.id != id
  }

  predicate Mints(e: Event, id: string) {
    e.Commit? && e.m.Mint? && e.m.row.id == id
  }

  lemma StepAbsent(st: State, e: Event, id: string)
    requires Enabled(st, e) && Absent(st.rows, id) && !Mints(e, id)
    ensures Absent(Apply(st, e).rows, id)
  {
    if e.Commit? {
      match e.m
      case Mint(_) =>
      case SetScopes(_, _) =>
      case Remove(other) => WithoutSubset(st.rows, (r: TokenRow) => r.id == other);
      case RemoveOwner(owner) => WithoutSubset(st.rows, (r: TokenRow) => r.owner == Some(owner));
    }
  }

  lemma {:induction false} RunAbsent(st: State, es: seq<Event>, id: string)
    requires EnabledRun(st, es) && Absent(st.rows, id) && forall e :: e in es ==> !Mints(e, id)
    ensures Absent(Run(st, es).rows, id)
    decreases |es|
  {
    if es != [] {
      StepAbsent(st, es[0], id);
      RunAbsent(Apply(st, es[0]), es[1..], id);
    }
  }

  // A removed token is never granted again, however the run goes on: at no point
  // of an orderly run with its changes announced, unless its id is minted anew.
  lemma RemovedIsRefused(st: State, id: string, es: seq<Event>, raw: string)
    requires Inv(st) && OrderlyRun(Apply(st, Commit(Remove(id))), es) && forall e :: e in es ==> !Mints(e, id)
    ensures EnabledRun(Apply(st, Commit(Remove(id))), es)
    ensures var end := Run(Apply(st, Commit(Remove(id))), es);
      end.pending == 0 && Answer(end, raw).Some? ==> Answer(end, raw).value.id != id
  {
    var removed := Apply(st, Commit(Remove(id)));
    StepKeepsIff(st, Commit(Remove(id)));
    WithoutSubset(st.rows, (r: TokenRow) => r.id == id);
    RunKeeps(removed, es);
    RunAbsent(removed, es, id);
    var end := Run(removed, es);
    hide Run, Inv, Apply;
    if Sane(raw) { MatchComesFromRow(end.rows, raw); }
  }

  // The changes that touch a row, or mint one with its token.
  predicate Concerns(e: Event, row: TokenRow) {
    e.Commit?
    && match e.m
       case Mint(r) => r.token == row.token
       case SetScopes(id, _) => id == row.id
       case Remove(id) => id == row.id
       case RemoveOwner(owner) => Some(owner) == row.owner
  }

  ghost predicate Alone(rows: seq<TokenRow>, row: TokenRow) {
    row in rows && forall r :: r in rows && r.token == row.token ==> r == row
  }

  lemma StepAlone(st: State, e: Event, row: TokenRow)
    requires Enabled(st, e) && Alone(st.rows, row) && !Concerns(e, row)
    ensures Alone(Apply(st, e).rows, row)
  {
    if e.Commit? { MutatedRows(st.rows, e.m); }
    hide Mutated;
  }

  lemma {:induction false} RunAlone(st: State, es: seq<Event>, row: TokenRow)
    requires EnabledRun(st, es) && Alone(st.rows, row) && forall e :: e in es ==> !Concerns(e, row)
    ensures Alone(Run(st, es).rows, row)
    decreases |es|
  {
    if es != [] {
      StepAlone(st, es[0], row);
      RunAlone(Apply(st, es[0]), es[1..], row);
    }
  }

  // A token is granted with what it was minted with, however the run goes on, as
  // long as nothing concerns its row.
  lemma MintedIsGranted(st: State, row: TokenRow, es: seq<Event>)
    requires Inv(st) && Prefixed([row]) && row.active && row.id != "" && 12 <= |row.token| <= 100
    requires forall r :: r in st.rows ==> r.token != row.token
    requires OrderlyRun(Apply(st, Commit(Mint(row))), es) && forall e :: e in es ==> !Concerns(e, row)
    ensures EnabledRun(Apply(st, Commit(Mint(row))), es)
    ensures var end := Run(Apply(st, Commit(Mint(row))), es);
      end.pending == 0 ==> Answer(end, row.token) == Some(Grant(row.id, row.owner, Scopes.Loaded(row.scopes)))
  {
    var minted := Apply(st, Commit(Mint(row)));
    StepKeepsIff(st, Commit(Mint(row)));
    RunKeeps(minted, es);
    assert Alone(minted.rows, row);
    RunAlone(minted, es, row);
    var end := Run(minted, es);
    hide Run, Inv, Apply;
    MatchComesFromRow(end.rows, row.token);
    if FirstMatch(ActiveEntries(end.rows), row.token).None? { NoMatchNoRow(end.rows, row.token); }
    assert end.pending == 0 ==> Answer(end, row.token) == Scan(end.rows, row.token) by { InvAnswers(end, row.token); }
  }

  lemma InvAnswers(st: State, raw: string)
    requires Inv(st)
    ensures st.pending == 0 ==> Answer(st, raw) == Scan(st.rows, raw)
  {}

  // A refresh that overlaps a whole removal marks an old index clean: the
  // removed row keeps being found.
  lemma OverlapLeavesStaleIndex(row: TokenRow)
    requires Prefixed([row]) && row.active && row.id != "" && Sane(row.token)
    ensures var st0 := State([row], map[], true, 0, None);
      var st1 := Apply(st0, ReadRows); var st2 := Apply(st1, Commit(Remove(row.id)));
      var st3 := Apply(st2, Invalidate); var st4 := Apply(st3, Publish);
      Inv(st0) && !st4.dirty && st4.pending == 0 && Answer(st4, row.token).Some? && Scan(st4.rows, row.token).None?
  {
    DirtyRight(State([row], map[], true, 0, None));
    assert [row][..0] == [] && [row][1..] == [];
    IndexRefinesScan([row], row.token);
    assert ActiveEntries([row]) == [EntryOf(row)];
    assert Without([row], (r: TokenRow) => r.id == row.id) == [];
  }

  // ------------------------------------------------------------- in place

  // The table, the cache and the routes that change the one and read the other,
  // each request running to its end before the next.
  class TokenAuth {
    var rows: seq<TokenRow>
    var index: Index
    var dirty: bool

    predicate Valid()
      reads this
    {
      Prefixed(rows) && (!dirty ==> index == Grouped(rows))
    }

    constructor ()
      ensures Valid() && rows == []
    {
      rows, index, dirty := [], map[], true;
    }

    // `_refresh_token_cache`
    method Refresh()
      requires Prefixed(rows)
      modifies this`index, this`dirty
      ensures Valid() && !dirty
    {
      var grouped: Index := map[];
      for i := 0 to |rows|
        invariant grouped == Grouped(rows[..i])
      {
        var r := rows[i];
        assert rows[..i + 1][..i] == rows[..i];
        if r.active {
          if r.prefix !in grouped { grouped := grouped[r.prefix := []]; }
          grouped := grouped[r.prefix := grouped[r.prefix] + [EntryOf(r)]];
        }
      }
      assert rows[..|rows|] == rows;
      index := grouped;
      dirty := false;
    }

    // The bearer branch of the middleware.
    method Authenticate(raw: string) returns (grant: Option<Grant>)
      requires Valid()
      modifies this`index, this`dirty
      ensures Valid() && grant == Scan(rows, raw)
    {
      if |raw| < 12 || |raw| > 100 { return None; }
      if dirty { Refresh(); }
      IndexRefinesScan(rows, raw);
      var candidates := Candidates(index, raw[..8]);
      var matched: Option<Entry> := None;
      var i := 0;
      while i < |candidates|
        invariant 0 <= i <= |candidates|
        invariant matched == None
        invariant FirstMatch(candidates, raw) == FirstMatch(candidates[i..], raw)
      {
        assert candidates[i..][1..] == candidates[i + 1..];
        if candidates[i].token == raw {
          matched := Some(candidates[i]);
          break;
        }
        i := i + 1;
      }
      assert matched == FirstMatch(candidates, raw);
      if matched.Some? && matched.value.id != "" {
        return Some(Grant(matched.value.id, matched.value.owner, matched.value.scopes));
      }
      return None;
    }

    // `create_token`, from the normalised scopes on.
    method CreateToken(id: string, owner: Option<string>, token: string, requested: seq<string>)
      requires Valid() && |token| >= 8 && Scopes.AllAllowed(requested)
      modifies this
      ensures Valid()
      ensures rows == old(rows)
                   + [TokenRow(id, owner, token, token[..8], Scopes.Stored(Scopes.Normalized(requested)), true)]
      ensures EntryOf(rows[|rows| - 1]) == Entry(id, token, owner, Scopes.Normalized(requested))
    {
      var row := TokenRow(id, owner, token, token[..8], Scopes.Stored(Scopes.Normalized(requested)), true);
      MutatedPrefixed(rows, Mint(row));
      Scopes.NormalizedSurvivesStorage(requested);
      rows := rows + [row];
      dirty := true;
    }

    // `update_token`
    method UpdateToken(id: string, requested: seq<string>) returns (found: bool)
      requires Valid() && Scopes.AllAllowed(requested)
      modifies this
      ensures Valid() && found == exists r :: r in old(rows) && r.id == id
      ensures rows == if found then Mutated(old(rows), SetScopes(id, Scopes.Stored(Scopes.Normalized(requested))))
                      else old(rows)
    {
      found := exists r :: r in rows && r.id == id;
      if !found { return; }
      var scopes := Scopes.Stored(Scopes.Normalized(requested));
      MutatedPrefixed(rows, SetScopes(id, scopes));
      rows := Mutated(rows, SetScopes(id, scopes));
      dirty := true;
    }

    // `delete_token`
    method DeleteToken(id: string) returns (found: bool)
      requires Valid()
      modifies this
      ensures Valid() && found == exists r :: r in old(rows) && r.id == id
      ensures rows == Mutated(old(rows), Remove(id))
    {
      found := exists r :: r in rows && r.id == id;
      MutatedPrefixed(rows, Remove(id));
      WithoutSubset(rows, (r: TokenRow) => r.id == id);
      if !found {
        NothingRemoved(rows, (r: TokenRow) => r.id == id);
        return;
      }
      rows := Mutated(rows, Remove(id));
      dirty := true;
    }
  }

  lemma {:induction false} NothingRemoved(rows: seq<TokenRow>, p: TokenRow -> bool)
    requires forall r :: r in rows ==> !p(r)
    ensures Without(rows, p) == rows
  {
    if rows != [] {
      assert rows == [rows[0]] + rows[1..];
      NothingRemoved(rows[1..], p);
    }
  }
}
