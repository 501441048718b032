// Chat sessions: the session and message tables, and the lazily hydrated
// in-memory copy the session manager keeps in front of them.

module SessionStore {
  import opened Wrappers
  import opened Strings

  // ------------------------------------------------------------- contents

  // Text, or the list of parts of a message with attachments. A part stands for
  // one JSON object.
  datatype Content = Text(s: string) | Parts(items: seq<string>)

  // `json.dumps` on a list of objects, and `json.loads` where it yields one.
  datatype Json = Json(dumps: seq<string> -> string, loads: string -> Option<seq<string>>)

  ghost predicate Lawful(j: Json) {
    forall p: seq<string> :: j.loads(j.dumps(p)) == Some(p)
  }

  function Encode(j: Json, c: Content): string {
    match c
    case Text(s) => s
    case Parts(p) => j.dumps(p)
  }

  predicate LooksStructured(s: string) {
    "[{" <= s && Contains(s, "\"type\"")
  }

  // `_parse_msg_content`
  function DecodeContent(j: Json, raw: string): Content {
    if LooksStructured(raw) && j.loads(raw).Some? then Parts(j.loads(raw).value) else Text(raw)
  }

  // What survives being stored: text that is not itself a JSON list of objects
  // mentioning "type", and lists whose JSON does look that way.
  predicate Storable(j: Json, c: Content) {
    match c
    case Text(s) => !(LooksStructured(s) && j.loads(s).Some?)
    case Parts(p) => LooksStructured(j.dumps(p))
  }

  lemma ContentRoundTripIff(j: Json, c: Content)
    requires Lawful(j)
    ensures DecodeContent(j, Encode(j, c)) == c <==> Storable(j, c)
    ensures Storable(j, c) <==>
      match c
      case Text(s) => !("[{" <= s && Contains(s, "\"type\"") && j.loads(s).Some?)
      case Parts(p) => "[{" <= j.dumps(p) && Contains(j.dumps(p), "\"type\"")
  {}

  // ---------------------------------------------------------------- state

  // A message object; its metadata is its time stamp and the id of its row.
  datatype Message = Message(role: string, content: Content, stamp: Option<int>, dbId: Option<string>)

  // A chat_messages row. `metaStamp` is the stamp inside its metadata.
  datatype Row = Row(id: string, sid: string, role: string, content: string, metaStamp: Option<int>, time: int)

  datatype Meta = Meta(name: string, model: string, owner: Option<string>, archived: bool, important: bool)

  datatype SessionRow = SessionRow(meta: Meta, count: int, accessed: int)

  datatype Cached = Cached(history: seq<Message>, count: int, meta: Meta)

  datatype State = State(rows: map<string, SessionRow>, messages: seq<Row>, cache: map<string, Cached>)

  datatype Error = NotFound | Conflict

  function Filter(ms: seq<Row>, p: Row -> bool): (out: seq<Row>)
    ensures forall r :: r in out <==> r in ms && p(r)
    ensures |out| <= |ms|
  {
    if ms == [] then []
    else
      var n := |ms| - 1;
      Filter(ms[..n], p) + if p(ms[n]) then [ms[n]] else []
  }

  // The rows of a session, in table order.
  function Of(ms: seq<Row>, sid: string): seq<Row> {
    Filter(ms, (r: Row) => r.sid == sid)
  }

  function Without(ms: seq<Row>, sid: string): seq<Row> {
    Filter(ms, (r: Row) => r.sid != sid)
  }

  function WithoutIds(ms: seq<Row>, ids: set<string>): seq<Row> {
    Filter(ms, (r: Row) => r.id !in ids)
  }

  // `order_by(timestamp)`, rows of one instant staying in table order.
  function InsertByTime(r: Row, s: seq<Row>): seq<Row> {
    if s == [] || r.time <= s[0].time then [r] + s else [s[0]] + InsertByTime(r, s[1..])
  }

  function ByTime(ms: seq<Row>): seq<Row> {
    if ms == [] then [] else InsertByTime(ms[0], ByTime(ms[1..]))
  }

  function Ids(ms: seq<Row>): set<string> {
    set r <- ms :: r.id
  }

  function Decode(j: Json, r: Row): Message {
    Message(r.role, DecodeContent(j, r.content),
            Some(if r.metaStamp.Some? then r.metaStamp.value else r.time), Some(r.id))
  }

  function DecodeAll(j: Json, ms: seq<Row>): (h: seq<Message>)
    ensures |h| == |ms| && forall i :: 0 <= i < |ms| ==> h[i] == Decode(j, ms[i])
  {
    seq(|ms|, i requires 0 <= i < |ms| => Decode(j, ms[i]))
  }

  // ----------------------------------------------------------- operations

  // `_load_session_from_db`
  function Load(j: Json, st: State, sid: string): State
    requires sid in st.rows
  {
    var row := st.rows[sid];
    st.(cache := st.cache[sid := Cached(DecodeAll(j, Of(st.messages, sid)), row.count, row.meta)])
  }

  // `sync_session_metadata`
  function Sync(st: State, sid: string): State {
    if sid in st.cache && sid in st.rows then
      st.(cache := st.cache[sid := Cached(st.cache[sid].history, st.rows[sid].count, st.rows[sid].meta)])
    else st
  }

  // `_touch_session`
  function Touch(st: State, sid: string, now: int): State {
    if sid in st.rows then st.(rows := st.rows[sid := st.rows[sid].(accessed := now)]) else st
  }

  predicate NeedsLoad(st: State, sid: string) {
    sid !in st.cache || (st.cache[sid].history == [] && st.cache[sid].count > 0)
  }

  // `get_session`: hydrate on first read, refresh the metadata, touch.
  function Get(j: Json, st: State, sid: string, now: int): Result<State, Error> {
    if NeedsLoad(st, sid) && sid !in st.rows then Failure(NotFound)
    else
      var loaded := if NeedsLoad(st, sid) then Load(j, st, sid) else st;
      Success(Touch(Sync(loaded, sid), sid, now))
  }

  function Stamped(m: Message, now: int, id: string): Message {
    m.(stamp := Some(if m.stamp.Some? then m.stamp.value else now), dbId := Some(id))
  }

  function RowOf(j: Json, sid: string, m: Message, now: int, id: string): Row {
    Row(id, sid, m.role, Encode(j, m.content), m.stamp, now)
  }

  // `_persist_message`: the count it writes is the length of the cached history.
  function Persist(j: Json, st: State, sid: string, m: Message, now: int, id: string): State {
    if sid !in st.rows then st.(cache := st.cache - {sid})
    else
      var count := if sid in st.cache then |st.cache[sid].history| else 0;
      st.(messages := st.messages + [RowOf(j, sid, Stamped(m, now, id), now, id)],
          rows := st.rows[sid := st.rows[sid].(count := count, accessed := now)])
  }

  // `add_message`
  function Add(j: Json, st: State, sid: string, m: Message, now: int, id: string): Result<State, Error> {
    match Get(j, st, sid, now)
    case Failure(e) => Failure(e)
    case Success(got) =>
      var h := got.cache[sid].history + [Stamped(m, now, id)];
      Success(Persist(j, got.(cache := got.cache[sid := got.cache[sid].(history := h, count := |h|)]), sid, m, now, id))
  }

  // `truncate_messages`; the flag is the value returned. The rows to delete are
  // counted in time order, the cached history is cut as it stands.
  function Truncate(j: Json, st: State, sid: string, keep: int, now: int): Result<(State, bool), Error> {
    match Get(j, st, sid, now)
    case Failure(e) => Failure(e)
    case Success(got) =>
      if keep < 0 then Success((got, false))
      else
        var own := ByTime(Of(got.messages, sid));
        var dropped := if keep <= |own| then own[keep..] else [];
        var h := got.cache[sid].history;
        Success((got.(messages := WithoutIds(got.messages, Ids(dropped)),
                      rows := if sid in got.rows then got.rows[sid := got.rows[sid].(count := keep)] else got.rows,
                      cache := got.cache[sid := got.cache[sid].(history := if keep <= |h| then h[..keep] else h)]),
                  true))
  }

  function NewRows(j: Json, sid: string, ms: seq<Message>, now: int, ids: seq<string>): (rs: seq<Row>)
    requires |ids| == |ms|
    ensures |rs| == |ms| && forall i :: 0 <= i < |ms| ==> rs[i] == RowOf(j, sid, ms[i], now + i, ids[i])
  {
    seq(|ms|, i requires 0 <= i < |ms| => RowOf(j, sid, ms[i], now + i, ids[i]))
  }

  function Numbered(ms: seq<Message>, ids: seq<string>): (h: seq<Message>)
    requires |ids| == |ms|
    ensures |h| == |ms| && forall i :: 0 <= i < |ms| ==> h[i] == ms[i].(dbId := Some(ids[i]))
  {
    seq(|ms|, i requires 0 <= i < |ms| => ms[i].(dbId := Some(ids[i])))
  }

  // `replace_messages`: without a session row the new rows break the foreign
  // key and the commit fails.
  function ReplaceAll(j: Json, st: State, sid: string, ms: seq<Message>, now: int,
                      ids: seq<string>): Result<(State, bool), Error>
    requires |ids| == |ms|
  {
    match Get(j, st, sid, now)
    case Failure(e) => Failure(e)
    case Success(got) =>
      if sid !in got.rows && ms != [] then Success((got, false))
      else
        Success((got.(messages := Without(got.messages, sid) + NewRows(j, sid, ms, now, ids),
                      rows := if sid in got.rows then got.rows[sid := got.rows[sid].(count := |ms|, accessed := now)]
                              else got.rows,
                      cache := got.cache[sid := got.cache[sid].(history := Numbered(ms, ids), count := |ms|)]), true))
  }

  // `create_session`: the insert fails on a known id.
  function Create(st: State, sid: string, meta: Meta, now: int): Result<State, Error> {
    if sid in st.rows then Failure(Conflict)
    else Success(st.(rows := st.rows[sid := SessionRow(meta, 0, now)], cache := st.cache[sid := Cached([], 0, meta)]))
  }

  // `delete_session`: with neither a row nor a cached session there is no commit.
  function Delete(st: State, sid: string): State {
    if sid in st.rows || sid in st.cache
    then State(st.rows - {sid}, Without(st.messages, sid), st.cache - {sid}) else st
  }

  // A session whose age `cleanup_empty_sessions` asks for: the time it reads from
  // the table has no zone and the limit has one, so comparing them raises.
  predicate Raises(row: SessionRow) {
    row.count != 0 && !row.meta.archived
  }

  function Elements(order: seq<string>): set<string> {
    set sid | sid in order
  }

  predicate Blocked(st: State) {
    exists sid :: sid in st.rows && Raises(st.rows[sid])
  }

  // Those of the sessions that are counted empty.
  function Emptied(st: State, sids: set<string>): set<string> {
    set sid | sid in sids && sid in st.rows && st.rows[sid].count == 0
  }

  // The sessions in front of the first that raises, in the order of the query.
  function Passed(st: State, order: seq<string>): set<string> {
    if order == [] || (order[0] in st.rows && Raises(st.rows[order[0]])) then {}
    else {order[0]} + Passed(st, order[1..])
  }

  // `cleanup_empty_sessions`, and whether it commits. It raises at the first
  // session that is neither empty nor archived; what it has dropped from the cache
  // by then stays dropped, the tables are rolled back. Otherwise the sessions
  // counted empty go, with whatever rows they have, and all others are archived
  // already.
  function Cleanup(st: State, order: seq<string>): (State, bool) {
    if Blocked(st) then (st.(cache := st.cache - Emptied(st, Passed(st, order))), false)
    else
      var empty := Emptied(st, st.rows.Keys);
      (State(st.rows - empty, Filter(st.messages, (r: Row) => r.sid !in empty), st.cache - empty), true)
  }

  // A new process: `load_sessions` puts some sessions in memory, metadata only.
  function Restart(st: State, picked: set<string>): State
    requires picked <= st.rows.Keys
  {
    st.(cache := map sid | sid in picked :: Cached([], st.rows[sid].count, st.rows[sid].meta))
  }

  // A rename, an archive flag, an endpoint cleared behind the manager's back.
  function SetMeta(st: State, sid: string, meta: Meta): State {
    if sid in st.rows then st.(rows := st.rows[sid := st.rows[sid].(meta := meta)]) else st
  }

  // ------------------------------------------------------------ invariant

  predicate UniqueIds(ms: seq<Row>) {
    forall i, j :: 0 <= i < j < |ms| ==> ms[i].id != ms[j].id
  }

  // A cached message against the row it stands for: equal, but a message that
  // went through a replacement without a time stamp has none in memory.
  predicate SameMessage(m: Message, d: Message) {
    m == d || (m.stamp.None? && m == d.(stamp := None))
  }

  predicate Mirrors(j: Json, h: seq<Message>, ms: seq<Row>) {
    |h| == |ms| && forall i :: 0 <= i < |h| ==> SameMessage(h[i], Decode(j, ms[i]))
  }

  predicate EntryRight(j: Json, c: Cached, ms: seq<Row>) {
    Mirrors(j, c.history, ms) || (c.history == [] && c.count > 0)
  }

  predicate Inv(j: Json, st: State) {
    && UniqueIds(st.messages)
    && (forall r :: r in st.messages ==> r.sid in st.rows)
    && (forall sid :: sid in st.rows ==> st.rows[sid].count == |Of(st.messages, sid)|)
    && forall sid :: sid in st.cache ==> sid in st.rows && EntryRight(j, st.cache[sid], Of(st.messages, sid))
  }

  const Empty := State(map[], [], map[])

  // -------------------------------------------------------- what it means

  // The chat a user sees: who said what and when, and under which id.
  datatype Said = Said(role: string, content: Content, stamp: int, id: string)

  function Seen(j: Json, r: Row): Said {
    Said(r.role, DecodeContent(j, r.content), if r.metaStamp.Some? then r.metaStamp.value else r.time, r.id)
  }

  function Views(j: Json, ms: seq<Row>): (v: seq<Said>)
    ensures |v| == |ms| && forall i :: 0 <= i < |ms| ==> v[i] == Seen(j, ms[i])
  {
    seq(|ms|, i requires 0 <= i < |ms| => Seen(j, ms[i]))
  }

  // The message object for it.
  function Told(d: Said): Message {
    Message(d.role, d.content, Some(d.stamp), Some(d.id))
  }

  // A history tells what was said; a message may lack its time stamp.
  predicate Tells(h: seq<Message>, said: seq<Said>) {
    |h| == |said| && forall i :: 0 <= i < |h| ==> SameMessage(h[i], Told(said[i]))
  }

  // A message said now: it keeps a time stamp it came with.
  function SaidNow(m: Message, now: int, id: string): Said {
    Said(m.role, m.content, if m.stamp.Some? then m.stamp.value else now, id)
  }

  // Messages that replace a chat are said a microsecond apart.
  function SaidInTurn(ms: seq<Message>, now: int, ids: seq<string>): (v: seq<Said>)
    requires |ids| == |ms|
    ensures |v| == |ms| && forall i :: 0 <= i < |ms| ==> v[i] == SaidNow(ms[i], now + i, ids[i])
  {
    seq(|ms|, i requires 0 <= i < |ms| => SaidNow(ms[i], now + i, ids[i]))
  }

  datatype Chat = Chat(meta: Meta, said: seq<Said>)

  function Chats(j: Json, st: State): map<string, Chat> {
    map sid | sid in st.rows :: Chat(st.rows[sid].meta, Views(j, Of(st.messages, sid)))
  }

  // One chat with other messages in it.
  function With(c: map<string, Chat>, sid: string, said: seq<Said>): map<string, Chat>
    requires sid in c
  {
    c[sid := Chat(c[sid].meta, said)]
  }

  // ------------------------------------------------------- list reasoning

  lemma {:induction false} FilterConcat(a: seq<Row>, b: seq<Row>, p: Row -> bool)
    ensures Filter(a + b, p) == Filter(a, p) + Filter(b, p)
  {
    if b == [] {
      assert a + b == a;
    } else {
      var n := |b| - 1;
      assert (a + b)[..|a + b| - 1] == a + b[..n];
      FilterConcat(a, b[..n], p);
    }
  }

  lemma {:induction false} FilterAll(ms: seq<Row>, p: Row -> bool)
    requires forall r :: r in ms ==> p(r)
    ensures Filter(ms, p) == ms
  {
    if ms != [] {
      var n := |ms| - 1;
      assert ms == ms[..n] + [ms[n]];
      FilterAll(ms[..n], p);
    }
  }

  lemma FilterNone(ms: seq<Row>, p: Row -> bool)
    requires forall r :: r in ms ==> !p(r)
    ensures Filter(ms, p) == []
  {
    if Filter(ms, p) != [] { assert Filter(ms, p)[0] in Filter(ms, p); }
  }

  lemma {:induction false} FilterSwap(ms: seq<Row>, p: Row -> bool, q: Row -> bool)
    ensures Filter(Filter(ms, p), q) == Filter(Filter(ms, q), p)
  {
    if ms != [] {
      var n := |ms| - 1;
      FilterSwap(ms[..n], p, q);
      var tp := if p(ms[n]) then [ms[n]] else [];
      var tq := if q(ms[n]) then [ms[n]] else [];
      FilterConcat(Filter(ms[..n], p), tp, q);
      FilterConcat(Filter(ms[..n], q), tq, p);
      FilterSingle(ms[n], p);
      FilterSingle(ms[n], q);
      assert Filter([], p) == [] && Filter([], q) == [];
    }
  }

  lemma FilterSingle(r: Row, p: Row -> bool)
    ensures Filter([r], p) == if p(r) then [r] else []
  {
    assert [r][..0] == [];
  }

  lemma {:induction false} FilterUnique(ms: seq<Row>, p: Row -> bool)
    requires UniqueIds(ms)
    ensures UniqueIds(Filter(ms, p))
  {
    if ms != [] {
      var n := |ms| - 1;
      FilterUnique(ms[..n], p);
      assert forall r :: r in Filter(ms[..n], p) ==> r in ms[..n];
      assert forall r :: r in ms[..n] ==> r.id != ms[n].id;
    }
  }

  // Removing one session's rows touches no other session.
  lemma OfWithout(ms: seq<Row>, sid: string, other: string)
    ensures Of(Without(ms, sid), other) == if other == sid then [] else Of(ms, other)
  {
    var p, q := (r: Row) => r.sid != sid, (r: Row) => r.sid == other;
    if other == sid {
      FilterNone(Without(ms, sid), q);
    } else {
      FilterSwap(ms, p, q);
      FilterAll(Filter(ms, q), p);
    }
  }

  // Dropping the tail of one session by row ids leaves its head, and the others.
  lemma OfTruncated(ms: seq<Row>, sid: string, keep: nat, other: string)
    requires UniqueIds(ms) && keep <= |Of(ms, sid)|
    ensures Of(WithoutIds(ms, Ids(Of(ms, sid)[keep..])), other)
         == if other == sid then Of(ms, sid)[..keep] else Of(ms, other)
  {
    var own := Of(ms, sid);
    var ids := Ids(own[keep..]);
    var p, q := (r: Row) => r.id !in ids, (r: Row) => r.sid == other;
    FilterSwap(ms, p, q);
    if other == sid {
      FilterUnique(ms, q);
      UniqueTail(own, keep);
    } else {
      forall r | r in Of(ms, other)
        ensures r.id !in ids
      {
        DistinctSessions(ms, r, sid, keep);
      }
      FilterAll(Filter(ms, q), p);
    }
  }

  lemma HeadKept(own: seq<Row>, keep: nat)
    requires UniqueIds(own) && keep <= |own|
    ensures forall r :: r in own[..keep] ==> r.id !in Ids(own[keep..])
  {
    forall i, k | 0 <= i < keep <= k < |own|
      ensures own[i].id != own[k].id
    {}
  }

  lemma UniqueTail(own: seq<Row>, keep: nat)
    requires UniqueIds(own) && keep <= |own|
    ensures Filter(own, (r: Row) => r.id !in Ids(own[keep..])) == own[..keep]
  {
    hide Filter, UniqueIds;
    var head, tail := own[..keep], own[keep..];
    var p := (r: Row) => r.id !in Ids(tail);
    assert own == head + tail;
    HeadKept(own, keep);
    FilterConcat(head, tail, p);
    FilterAll(head, p);
    FilterNone(tail, p);
  }

  // ---------------------------------------------------- rows by time stamp

  predicate InTime(ms: seq<Row>) {
    forall i, k :: 0 <= i < k < |ms| ==> ms[i].time <= ms[k].time
  }

  // The first `keep` rows are not younger than the others.
  predicate CutInTime(own: seq<Row>, keep: nat)
    requires keep <= |own|
  {
    forall i, k :: 0 <= i < keep <= k < |own| ==> own[i].time <= own[k].time
  }

  lemma {:induction false} InsertMembers(r: Row, s: seq<Row>)
    ensures forall x :: x in InsertByTime(r, s) <==> x == r || x in s
  {
    if s != [] && r.time > s[0].time {
      InsertMembers(r, s[1..]);
      assert s == [s[0]] + s[1..];
    }
  }

  lemma {:induction false} InsertInTime(r: Row, s: seq<Row>)
    requires InTime(s)
    ensures InTime(InsertByTime(r, s))
  {
    if s == [] || r.time <= s[0].time {
      InTimeCons(r, s);
    } else {
      InsertInTime(r, s[1..]);
      InsertMembers(r, s[1..]);
      InTimeCons(s[0], InsertByTime(r, s[1..]));
    }
  }

  lemma InTimeCons(r: Row, s: seq<Row>)
    requires InTime(s) && forall x :: x in s ==> r.time <= x.time
    ensures InTime([r] + s)
  {}

  lemma UniqueConsIff(r: Row, s: seq<Row>)
    ensures UniqueIds([r] + s) <==> UniqueIds(s) && r.id !in Ids(s)
  {
    var all := [r] + s;
    assert forall i :: 0 <= i < |s| ==> s[i] == all[i + 1];
    if UniqueIds(all) {
      forall x | x in s
        ensures x.id != r.id
      {
        var i :| 0 <= i < |s| && s[i] == x;
        assert all[0] == r && all[i + 1] == x;
      }
    }
  }

  lemma {:induction false} InsertUnique(r: Row, s: seq<Row>)
    requires UniqueIds(s) && r.id !in Ids(s)
    ensures UniqueIds(InsertByTime(r, s))
  {
    hide UniqueIds;
    if s == [] || r.time <= s[0].time {
      UniqueConsIff(r, s);
    } else {
      assert s == [s[0]] + s[1..];
      UniqueConsIff(s[0], s[1..]);
      InsertUnique(r, s[1..]);
      InsertMembers(r, s[1..]);
      UniqueConsIff(s[0], InsertByTime(r, s[1..]));
    }
  }

  lemma {:induction false} InsertCount(r: Row, s: seq<Row>, p: Row -> bool)
    ensures |Filter(InsertByTime(r, s), p)| == (if p(r) then 1 else 0) + |Filter(s, p)|
  {
    hide Filter;
    if s == [] || r.time <= s[0].time {
      FilterConcat([r], s, p);
      FilterSingle(r, p);
    } else {
      InsertCount(r, s[1..], p);
      assert s == [s[0]] + s[1..];
      FilterConcat([s[0]], s[1..], p);
      FilterConcat([s[0]], InsertByTime(r, s[1..]), p);
    }
  }

  lemma {:induction false} ByTimeMembers(ms: seq<Row>)
    ensures forall x :: x in ByTime(ms) <==> x in ms
    ensures InTime(ByTime(ms))
  {
    hide InTime;
    if ms == [] {
      assert InTime([]) by { NoneInTime(); }
    } else {
      ByTimeMembers(ms[1..]);
      InsertMembers(ms[0], ByTime(ms[1..]));
      InsertInTime(ms[0], ByTime(ms[1..]));
      assert ms == [ms[0]] + ms[1..];
    }
  }

  lemma NoneInTime()
    ensures InTime([])
  {}

  lemma {:induction false} ByTimeUnique(ms: seq<Row>)
    requires UniqueIds(ms)
    ensures UniqueIds(ByTime(ms))
  {
    if ms != [] {
      assert ms == [ms[0]] + ms[1..];
      UniqueConsIff(ms[0], ms[1..]);
      ByTimeUnique(ms[1..]);
      ByTimeMembers(ms[1..]);
      hide UniqueIds;
      InsertUnique(ms[0], ByTime(ms[1..]));
    }
  }

  lemma {:induction false} ByTimeCount(ms: seq<Row>, p: Row -> bool)
    ensures |Filter(ByTime(ms), p)| == |Filter(ms, p)|
  {
    hide Filter;
    if ms != [] {
      ByTimeCount(ms[1..], p);
      InsertCount(ms[0], ByTime(ms[1..]), p);
      assert ms == [ms[0]] + ms[1..];
      FilterConcat([ms[0]], ms[1..], p);
      FilterSingle(ms[0], p);
    }
  }

  lemma ByTimeLength(ms: seq<Row>)
    ensures |ByTime(ms)| == |ms|
  {
    var all := (r: Row) => true;
    ByTimeCount(ms, all);
    FilterAll(ms, all);
    FilterAll(ByTime(ms), all);
  }

  lemma {:induction false} InsertBefore(r: Row, a: seq<Row>, b: seq<Row>)
    requires forall x :: x in b ==> r.time <= x.time
    ensures InsertByTime(r, a + b) == InsertByTime(r, a) + b
  {
    if a == [] {
      assert a + b == b;
    } else {
      assert (a + b)[1..] == a[1..] + b;
      if r.time > a[0].time { InsertBefore(r, a[1..], b); }
    }
  }

  lemma {:induction false} ByTimeConcat(a: seq<Row>, b: seq<Row>)
    requires forall x, y :: x in a && y in b ==> x.time <= y.time
    ensures ByTime(a + b) == ByTime(a) + ByTime(b)
  {
    if a == [] {
      assert a + b == b;
    } else {
      assert (a + b)[0] == a[0] && (a + b)[1..] == a[1..] + b;
      assert ByTime(a + b) == InsertByTime(a[0], ByTime(a[1..] + b)) && ByTime(a) == InsertByTime(a[0], ByTime(a[1..]));
      hide ByTime, InsertByTime;
      ByTimeConcat(a[1..], b);
      ByTimeMembers(b);
      InsertBefore(a[0], ByTime(a[1..]), ByTime(b));
    }
  }

  // Reading by time stamp and reading in table order are the same exactly where
  // the table is in time order.
  lemma {:induction false} ByTimeFixesIff(ms: seq<Row>)
    ensures ByTime(ms) == ms <==> InTime(ms)
  {
    if InTime(ms) {
      if ms != [] {
        ByTimeFixesIff(ms[1..]);
      }
    } else {
      ByTimeMembers(ms);
    }
  }

  // The rows after the first `keep` in time are the rows after the first `keep`
  // in the table exactly if the cut is in time.
  lemma TailIffCutInTime(own: seq<Row>, keep: nat)
    requires UniqueIds(own) && keep <= |own|
    ensures |ByTime(own)| == |own|
    ensures Ids(ByTime(own)[keep..]) == Ids(own[keep..]) <==> CutInTime(own, keep)
  {
    ByTimeLength(own);
    hide Ids, UniqueIds;
    if CutInTime(own, keep) { CutTail(own, keep); }
    hide CutInTime;
    if Ids(ByTime(own)[keep..]) == Ids(own[keep..]) { TailCut(own, keep); }
  }

  lemma CutTail(own: seq<Row>, keep: nat)
    requires keep <= |own| == |ByTime(own)| && CutInTime(own, keep)
    ensures Ids(ByTime(own)[keep..]) == Ids(own[keep..])
  {
    var a, b := own[..keep], own[keep..];
    assert own == a + b;
    assert forall x, y :: x in a && y in b ==> x.time <= y.time;
    hide ByTime, CutInTime;
    ByTimeConcat(a, b);
    ByTimeLength(a);
    ByTimeMembers(b);
    assert ByTime(own)[keep..] == ByTime(b);
  }

  lemma TailCut(own: seq<Row>, keep: nat)
    requires UniqueIds(own) && keep <= |own| == |ByTime(own)| && Ids(ByTime(own)[keep..]) == Ids(own[keep..])
    ensures CutInTime(own, keep)
  {
    hide ByTime, UniqueIds;
    ByTimeMembers(own);
    forall i, k | 0 <= i < keep <= k < |own|
      ensures own[i].time <= own[k].time
    {
      PairInTime(own, ByTime(own), keep, i, k);
    }
  }

  // A sort that leaves the same rows behind the cut has found them in order.
  lemma PairInTime(own: seq<Row>, sorted: seq<Row>, keep: nat, i: nat, k: nat)
    requires UniqueIds(own) && i < keep <= k < |own| == |sorted| && InTime(sorted)
    requires (forall x :: x in sorted <==> x in own) && Ids(sorted[keep..]) == Ids(own[keep..])
    ensures own[i].time <= own[k].time
  {
    HeadKept(own, keep);
    hide UniqueIds;
    assert own[i] in own[..keep] && own[k] in own[keep..] && own[i] in own;
    var m :| 0 <= m < |sorted| && sorted[m] == own[i];
    if m >= keep { assert sorted[keep..][m - keep] == own[i]; }
    SameRow(own, sorted, keep, k);
  }

  lemma SameRow(own: seq<Row>, sorted: seq<Row>, keep: nat, k: nat)
    requires UniqueIds(own) && keep <= |sorted| && k < |own| && (forall x :: x in sorted <==> x in own)
    requires own[k].id in Ids(sorted[keep..])
    ensures exists n :: keep <= n < |sorted| && sorted[n] == own[k]
  {
    var r :| r in sorted[keep..] && r.id == own[k].id;
    assert r in sorted;
    var i :| 0 <= i < |own| && own[i] == r;
    assert i == k;
    var n :| 0 <= n < |sorted| - keep && sorted[keep..][n] == r;
    assert sorted[n + keep] == own[k];
  }

  lemma DistinctSessions(ms: seq<Row>, r: Row, sid: string, keep: nat)
    requires UniqueIds(ms) && r in ms && r.sid != sid && keep <= |Of(ms, sid)|
    ensures r.id !in Ids(Of(ms, sid)[keep..])
  {
    forall t | t in Of(ms, sid)[keep..]
      ensures t.id != r.id
    {
      assert t in Of(ms, sid);
      var i :| 0 <= i < |ms| && ms[i] == r;
      var k :| 0 <= k < |ms| && ms[k] == t;
      assert i != k;
    }
  }

  lemma OfAppended(ms: seq<Row>, extra: seq<Row>, sid: string, other: string)
    requires forall r :: r in extra ==> r.sid == sid
    ensures Of(ms + extra, other) == if other == sid then Of(ms, sid) + extra else Of(ms, other)
  {
    var q := (r: Row) => r.sid == other;
    FilterConcat(ms, extra, q);
    if other == sid { FilterAll(extra, q); } else { FilterNone(extra, q); }
  }

  // ------------------------------------------------------------ reading

  // Any read, whatever is in memory, finds the session exactly when it has a
  // row, and hands out its stored messages in order with its current metadata.
  lemma GetTransparent(j: Json, st: State, sid: string, now: int)
    requires Inv(j, st)
    ensures Get(j, st, sid, now).Success? <==> sid in st.rows
    ensures sid in st.rows ==>
      var got := Get(j, st, sid, now).value;
      && sid in got.cache
      && Mirrors(j, got.cache[sid].history, Of(st.messages, sid))
      && Tells(got.cache[sid].history, Views(j, Of(st.messages, sid)))
      && got.cache[sid].count == |got.cache[sid].history|
      && got.cache[sid].meta == st.rows[sid].meta
  {
    if sid in st.rows {
      var got := Get(j, st, sid, now).value;
      var h, ms := got.cache[sid].history, Of(st.messages, sid);
      assert Mirrors(j, h, ms);
      MirrorsTells(j, h, ms);
    }
  }

  lemma MirrorsTells(j: Json, h: seq<Message>, ms: seq<Row>)
    requires Mirrors(j, h, ms)
    ensures Tells(h, Views(j, ms))
  {
    forall i | 0 <= i < |h|
      ensures SameMessage(h[i], Told(Views(j, ms)[i]))
    {
      assert SameMessage(h[i], Decode(j, ms[i]));
    }
  }

  lemma GetKeeps(j: Json, st: State, sid: string, now: int)
    requires Inv(j, st) && sid in st.rows
    ensures var got := Get(j, st, sid, now).value;
            Inv(j, got) && got.messages == st.messages && got.rows.Keys == st.rows.Keys && Chats(j, got) == Chats(j, st)
            && (forall t :: t in st.rows
                  ==> got.rows[t].meta == st.rows[t].meta && got.rows[t].count == st.rows[t].count)
  {
    hide Of, Chats, UniqueIds, Mirrors, Views, Get, Inv;
    GetTransparent(j, st, sid, now);
    InvFacts(j, st);
    GetTouchesOne(j, st, sid, now);
    var got, own := Get(j, st, sid, now).value, Of(st.messages, sid);
    ChatOf(j, st, sid);
    OneSessionChanged(j, st, got, sid, own);
    ChatKeys(j, st);
    assert Chats(j, st)[sid := Chat(st.rows[sid].meta, Views(j, own))] == Chats(j, st);
  }

  // A read writes to the row and the cache entry of its session only.
  lemma GetTouchesOne(j: Json, st: State, sid: string, now: int)
    requires sid in st.rows
    ensures Get(j, st, sid, now).Success?
    ensures var got := Get(j, st, sid, now).value;
      && got.messages == st.messages && got.rows == st.rows[sid := st.rows[sid].(accessed := now)]
      && forall t :: t in got.cache && t != sid ==> t in st.cache && got.cache[t] == st.cache[t]
  {
    hide DecodeAll, Of;
  }

  // After a restart, whichever sessions it preloads, a read finds the same
  // sessions, metadata and messages: who said what, and the row ids. Only a
  // message that memory holds without a time stamp gets one, so the histories
  // are equal exactly if there is none.
  lemma RestartTransparent(j: Json, st: State, picked: set<string>, sid: string, now: int)
    requires Inv(j, st) && picked <= st.rows.Keys && forall s :: s in picked ==> st.rows[s].count > 0
    ensures Inv(j, Restart(st, picked))
    ensures Get(j, Restart(st, picked), sid, now).Success? <==> Get(j, st, sid, now).Success?
    ensures Get(j, st, sid, now).Success? ==>
      var cold, warm := Get(j, Restart(st, picked), sid, now).value.cache[sid], Get(j, st, sid, now).value.cache[sid];
      && cold.meta == warm.meta && cold.count == warm.count && |cold.history| == |warm.history|
      && (forall i :: 0 <= i < |warm.history| ==> SameMessage(warm.history[i], cold.history[i]))
      && (cold.history == warm.history <==> forall m :: m in warm.history ==> m.stamp.Some?)
  {
    GetTransparent(j, st, sid, now);
    GetTransparent(j, Restart(st, picked), sid, now);
    if sid in st.rows {
      var own := Of(st.messages, sid);
      ColdHistory(j, st, picked, sid, now);
      var warm := Get(j, st, sid, now).value.cache[sid].history;
      hide Get, Inv, Of;
      StampedIff(j, warm, own);
    }
  }

  lemma ColdHistory(j: Json, st: State, picked: set<string>, sid: string, now: int)
    requires Inv(j, st) && picked <= st.rows.Keys && (forall s :: s in picked ==> st.rows[s].count > 0)
             && sid in st.rows
    ensures Get(j, Restart(st, picked), sid, now).Success?
    ensures var cold := Get(j, Restart(st, picked), sid, now).value.cache;
            sid in cold && cold[sid].history == DecodeAll(j, Of(st.messages, sid))
  {
    hide DecodeAll, Of;
  }

  lemma StampedIff(j: Json, h: seq<Message>, own: seq<Row>)
    requires Mirrors(j, h, own)
    ensures h == DecodeAll(j, own) <==> forall m :: m in h ==> m.stamp.Some?
  {
    forall i | 0 <= i < |h|
      ensures h[i].stamp.Some? <==> h[i] == DecodeAll(j, own)[i]
    {}
    if forall m :: m in h ==> m.stamp.Some? {
      assert forall i :: 0 <= i < |h| ==> h[i] in h;
    }
  }

  // ------------------------------------------------------------ writing

  // When one session changes, only its rows, counter and cache entry need a look.
  lemma OneSessionChanged(j: Json, st: State, st': State, sid: string, own: seq<Row>)
    requires Inv(j, st) && UniqueIds(st'.messages) && st'.rows.Keys == st.rows.Keys + {sid}
    requires forall r :: r in st'.messages ==> r.sid in st'.rows
    requires forall t :: t in st.rows && t != sid ==> st'.rows[t] == st.rows[t]
    requires forall t :: t in st'.cache && t != sid ==> t in st.cache && st'.cache[t] == st.cache[t]
    requires forall t :: Of(st'.messages, t) == if t == sid then own else Of(st.messages, t)
    requires st'.rows[sid].count == |own|
    requires sid in st'.cache ==> EntryRight(j, st'.cache[sid], own)
    ensures Inv(j, st') && Chats(j, st') == Chats(j, st)[sid := Chat(st'.rows[sid].meta, Views(j, own))]
  {
    hide Of, EntryRight;
  }

  // When sessions disappear, the ones left have to be as they were.
  lemma SessionsRemoved(j: Json, st: State, st': State)
    requires Inv(j, st) && UniqueIds(st'.messages)
    requires forall r :: r in st'.messages ==> r.sid in st'.rows
    requires forall t :: t in st'.rows ==> t in st.rows && st'.rows[t] == st.rows[t]
    requires forall t :: t in st'.rows ==> Of(st'.messages, t) == Of(st.messages, t)
    requires forall t :: t in st'.cache ==> t in st'.rows && t in st.cache && st'.cache[t] == st.cache[t]
    ensures Inv(j, st')
    ensures Chats(j, st').Keys == st'.rows.Keys <= Chats(j, st).Keys
    ensures forall t :: t in st'.rows ==> Chats(j, st')[t] == Chats(j, st)[t]
  {
    hide Of, EntryRight;
  }

  lemma InvFacts(j: Json, st: State)
    requires Inv(j, st)
    ensures UniqueIds(st.messages) && forall r :: r in st.messages ==> r.sid in st.rows
    ensures forall t :: t in st.cache ==> t in st.rows
    ensures forall t :: t in st.rows ==> st.rows[t].count == |Of(st.messages, t)|
  {
    hide Of, EntryRight, UniqueIds;
  }

  // Each operation keeps the invariant and does to the chats what it says.
  lemma AddRefines(j: Json, st: State, sid: string, m: Message, now: int, id: string)
    requires Lawful(j) && Inv(j, st) && id !in Ids(st.messages) && Storable(j, m.content)
    ensures Add(j, st, sid, m, now, id).Success? <==> sid in st.rows
    ensures sid in st.rows ==>
      var st' := Add(j, st, sid, m, now, id).value;
      sid in Chats(j, st) && Inv(j, st')
      && Chats(j, st') == With(Chats(j, st), sid, Chats(j, st)[sid].said + [SaidNow(m, now, id)])
  {
    GetTransparent(j, st, sid, now);
    if sid in st.rows {
      GetKeeps(j, st, sid, now);
      var got := Get(j, st, sid, now).value;
      var st' := Add(j, st, sid, m, now, id).value;
      AddRows(j, got, st', sid, m, now, id);
    }
  }

  // A read after an addition finds the chat as it was read before and the message
  // at its end, with its own time stamp or else the present time, and its row id.
  lemma AddedMessageRead(j: Json, st: State, sid: string, m: Message, now: int, id: string, later: int)
    requires Inv(j, st) && sid in st.rows
    ensures var st' := Add(j, st, sid, m, now, id).value;
      Get(j, st', sid, later).Success?
      && Get(j, st', sid, later).value.cache[sid].history
         == Get(j, st, sid, now).value.cache[sid].history
            + [Message(m.role, m.content, if m.stamp.Some? then m.stamp else Some(now), Some(id))]
  {
    GetTransparent(j, st, sid, now);
    hide Of, Inv, UniqueIds, DecodeAll, RowOf;
  }

  // A read after a replacement finds the messages given, under their new row ids
  // and with the time stamps they came with.
  lemma ReplacedMessagesRead(j: Json, st: State, sid: string, ms: seq<Message>, now: int, ids: seq<string>, later: int)
    requires Inv(j, st) && sid in st.rows && |ids| == |ms|
    ensures var st' := ReplaceAll(j, st, sid, ms, now, ids).value.0;
      Get(j, st', sid, later).Success?
      && var h := Get(j, st', sid, later).value.cache[sid].history;
         |h| == |ms|
         && forall i :: 0 <= i < |ms| ==> h[i] == Message(ms[i].role, ms[i].content, ms[i].stamp, Some(ids[i]))
  {
    GetTransparent(j, st, sid, now);
    hide Of, Inv, UniqueIds, DecodeAll, RowOf, NewRows, Without;
  }

  lemma AddRows(j: Json, got: State, st': State, sid: string, m: Message, now: int, id: string)
    requires Lawful(j) && Inv(j, got) && id !in Ids(got.messages) && Storable(j, m.content)
    requires sid in got.rows && sid in got.cache && Mirrors(j, got.cache[sid].history, Of(got.messages, sid))
    requires var h := got.cache[sid].history + [Stamped(m, now, id)];
             st' == Persist(j, got.(cache := got.cache[sid := got.cache[sid].(history := h, count := |h|)]),
                            sid, m, now, id)
    ensures sid in Chats(j, got) && Inv(j, st')
    ensures Chats(j, st') == With(Chats(j, got), sid, Chats(j, got)[sid].said + [SaidNow(m, now, id)])
  {
    hide Inv, Chats, Mirrors, Views, UniqueIds, Stamped, RowOf, Of;
    var row := RowOf(j, sid, Stamped(m, now, id), now, id);
    var own, h := Of(got.messages, sid), got.cache[sid].history;
    InvFacts(j, got);
    RowMirrors(j, sid, m, now, id);
    AppendedTable(got.messages, row, sid);
    AppendMirrors(j, h, own, Stamped(m, now, id), row);
    OneSessionChanged(j, got, st', sid, own + [row]);
    ViewsAppend(j, own, row);
    ChatOf(j, got, sid);
  }

  lemma AppendedTable(ms: seq<Row>, row: Row, sid: string)
    requires UniqueIds(ms) && row.id !in Ids(ms) && row.sid == sid
    ensures UniqueIds(ms + [row])
    ensures forall t :: Of(ms + [row], t) == if t == sid then Of(ms, sid) + [row] else Of(ms, t)
  {
    AppendUnique(ms, row);
    forall t
      ensures Of(ms + [row], t) == if t == sid then Of(ms, sid) + [row] else Of(ms, t)
    {
      OfAppended(ms, [row], sid, t);
    }
  }

  lemma RowMirrors(j: Json, sid: string, m: Message, now: int, id: string)
    requires Lawful(j) && Storable(j, m.content)
    ensures var row := RowOf(j, sid, Stamped(m, now, id), now, id);
            SameMessage(Stamped(m, now, id), Decode(j, row)) && row.sid == sid && row.id == id
            && Seen(j, row) == SaidNow(m, now, id)
  {
    ContentRoundTripIff(j, m.content);
  }

  lemma ViewsAppend(j: Json, own: seq<Row>, row: Row)
    ensures Views(j, own + [row]) == Views(j, own) + [Seen(j, row)]
  {}

  lemma ChatOf(j: Json, st: State, sid: string)
    requires sid in st.rows
    ensures sid in Chats(j, st) && Chats(j, st)[sid] == Chat(st.rows[sid].meta, Views(j, Of(st.messages, sid)))
  {}

  lemma AppendUnique(ms: seq<Row>, r: Row)
    requires UniqueIds(ms) && r.id !in Ids(ms)
    ensures UniqueIds(ms + [r])
  {
    assert forall i :: 0 <= i < |ms| ==> ms[i] in ms && ms[i].id in Ids(ms);
  }

  lemma AppendMirrors(j: Json, h: seq<Message>, ms: seq<Row>, m: Message, r: Row)
    requires Mirrors(j, h, ms) && SameMessage(m, Decode(j, r))
    ensures Mirrors(j, h + [m], ms + [r])
  {}

  lemma TruncateRefines(j: Json, st: State, sid: string, keep: int, now: int)
    requires Inv(j, st)
    requires sid in st.rows && keep >= 0 ==> keep <= |Of(st.messages, sid)| && CutInTime(Of(st.messages, sid), keep)
    ensures Truncate(j, st, sid, keep, now).Success? <==> sid in st.rows
    ensures sid in st.rows ==>
      var (st', ok) := Truncate(j, st, sid, keep, now).value;
      sid in Chats(j, st) && Inv(j, st') && ok == (keep >= 0) && (ok ==> keep <= |Chats(j, st)[sid].said|)
      && Chats(j, st') == if ok then With(Chats(j, st), sid, Chats(j, st)[sid].said[..keep]) else Chats(j, st)
  {
    hide Get, Inv, Views, Of, UniqueIds, CutInTime;
    GetTransparent(j, st, sid, now);
    if sid in st.rows {
      GetKeeps(j, st, sid, now);
      if keep >= 0 {
        OwnUnique(j, st, sid);
        TailIffCutInTime(Of(st.messages, sid), keep);
        hide CutInTime, Ids;
        TruncateRows(j, Get(j, st, sid, now).value, sid, keep);
      }
    }
  }

  lemma OwnUnique(j: Json, st: State, sid: string)
    requires Inv(j, st)
    ensures UniqueIds(Of(st.messages, sid))
  {
    FilterUnique(st.messages, (r: Row) => r.sid == sid);
  }

  lemma TruncatedTable(ms: seq<Row>, sid: string, keep: nat)
    requires UniqueIds(ms) && keep <= |Of(ms, sid)|
    ensures var left := WithoutIds(ms, Ids(Of(ms, sid)[keep..]));
            UniqueIds(left) && (forall r :: r in left ==> r in ms)
            && forall t :: Of(left, t) == if t == sid then Of(ms, sid)[..keep] else Of(ms, t)
  {
    var left := WithoutIds(ms, Ids(Of(ms, sid)[keep..]));
    forall t
      ensures Of(left, t) == if t == sid then Of(ms, sid)[..keep] else Of(ms, t)
    {
      OfTruncated(ms, sid, keep, t);
    }
    FilterUnique(ms, (r: Row) => r.id !in Ids(Of(ms, sid)[keep..]));
  }

  lemma MirrorsLength(j: Json, h: seq<Message>, ms: seq<Row>)
    requires Mirrors(j, h, ms)
    ensures |h| == |ms|
  {}

  lemma MirrorsPrefix(j: Json, h: seq<Message>, ms: seq<Row>, keep: nat)
    requires Mirrors(j, h, ms) && keep <= |h|
    ensures Mirrors(j, h[..keep], ms[..keep]) && Views(j, ms[..keep]) == Views(j, ms)[..keep]
  {}

  lemma TruncateRows(j: Json, got: State, sid: string, keep: nat)
    requires Inv(j, got) && sid in got.rows && sid in got.cache
    requires Mirrors(j, got.cache[sid].history, Of(got.messages, sid)) && keep <= |Of(got.messages, sid)|
    ensures var own, h := Of(got.messages, sid), got.cache[sid].history;
      var st' := got.(messages := WithoutIds(got.messages, Ids(own[keep..])),
                      rows := got.rows[sid := got.rows[sid].(count := keep)],
                      cache := got.cache[sid := got.cache[sid].(history := h[..keep])]);
      sid in Chats(j, got) && keep <= |Chats(j, got)[sid].said| && Inv(j, st')
      && Chats(j, st') == With(Chats(j, got), sid, Chats(j, got)[sid].said[..keep])
  {
    hide Inv, Chats, Mirrors, UniqueIds, WithoutIds, Of, Views;
    var own, h := Of(got.messages, sid), got.cache[sid].history;
    MirrorsLength(j, h, own);
    var ms := WithoutIds(got.messages, Ids(own[keep..]));
    var st' := got.(messages := ms, rows := got.rows[sid := got.rows[sid].(count := keep)],
                    cache := got.cache[sid := got.cache[sid].(history := h[..keep])]);
    InvFacts(j, got);
    TruncatedTable(got.messages, sid, keep);
    MirrorsPrefix(j, h, own, keep);
    OneSessionChanged(j, got, st', sid, own[..keep]);
    ChatOf(j, got, sid);
  }

  // The rows a truncation leaves to its session.
  lemma TruncatedOwn(j: Json, st: State, sid: string, keep: nat, now: int)
    requires Inv(j, st) && sid in st.rows
    ensures var (st', own) := (Truncate(j, st, sid, keep, now).value.0, Of(st.messages, sid));
      && |ByTime(own)| == |own| && st'.rows[sid].count == keep
      && Of(st'.messages, sid)
         == if keep <= |own| then Filter(own, (r: Row) => r.id !in Ids(ByTime(own)[keep..])) else own
  {
    GetTransparent(j, st, sid, now);
    GetTouchesOne(j, st, sid, now);
    hide Get, Inv, Ids;
    var own := Of(st.messages, sid);
    ByTimeLength(own);
    if keep <= |own| {
      var ids := Ids(ByTime(own)[keep..]);
      FilterSwap(st.messages, (r: Row) => r.id !in ids, (r: Row) => r.sid == sid);
    } else {
      NothingDeleted(st.messages);
    }
  }

  // Keeping more than there is keeps everything.
  lemma TruncateBeyond(j: Json, st: State, sid: string, keep: nat, now: int)
    requires Inv(j, st) && sid in st.rows && keep > |Of(st.messages, sid)|
    ensures var got := Get(j, st, sid, now).value; var (st', ok) := Truncate(j, st, sid, keep, now).value;
      ok && st'.messages == st.messages && st'.cache == got.cache
  {
    GetTransparent(j, st, sid, now);
    GetTouchesOne(j, st, sid, now);
    ByTimeLength(Of(st.messages, sid));
    MirrorsLength(j, Get(j, st, sid, now).value.cache[sid].history, Of(st.messages, sid));
    NothingDeleted(st.messages);
    hide Get, Inv, Of, Mirrors;
  }

  // The counter a truncation leaves is right exactly when it asked to keep no
  // more than there was.
  lemma TruncateCountIff(j: Json, st: State, sid: string, keep: nat, now: int)
    requires Inv(j, st) && sid in st.rows
    ensures var (st', _) := Truncate(j, st, sid, keep, now).value;
            st'.rows[sid].count == |Of(st'.messages, sid)| <==> keep <= |Of(st.messages, sid)|
  {
    TruncatedOwn(j, st, sid, keep, now);
    OwnUnique(j, st, sid);
    var own := Of(st.messages, sid);
    hide Truncate, Inv, Of, Filter, UniqueIds, ByTime;
    if keep <= |own| {
      var p := (r: Row) => r.id !in Ids(ByTime(own)[keep..]);
      ByTimeCount(own, p);
      ByTimeUnique(own);
      UniqueTail(ByTime(own), keep);
    }
  }

  // The rows a truncation leaves are the head of the chat as it is read exactly
  // if none of them is younger than one that had to go.
  lemma TruncateKeepsHeadIff(j: Json, st: State, sid: string, keep: nat, now: int)
    requires Inv(j, st) && sid in st.rows && keep <= |Of(st.messages, sid)|
    ensures var (st', own) := (Truncate(j, st, sid, keep, now).value.0, Of(st.messages, sid));
            Of(st'.messages, sid) == own[..keep] <==> CutInTime(own, keep)
  {
    TruncatedOwn(j, st, sid, keep, now);
    OwnUnique(j, st, sid);
    var own := Of(st.messages, sid);
    hide Truncate, Inv, Of, Filter, CutInTime;
    TailIffCutInTime(own, keep);
    UniqueTail(own, keep);
    var gone := Ids(ByTime(own)[keep..]);
    if Filter(own, (r: Row) => r.id !in gone) == own[..keep] {
      ByTimeMembers(own);
      GoneIsTail(own, keep, gone);
    }
  }

  lemma GoneIsTail(own: seq<Row>, keep: nat, gone: set<string>)
    requires UniqueIds(own) && keep <= |own| && gone <= Ids(own)
    requires Filter(own, (r: Row) => r.id !in gone) == own[..keep]
    ensures gone == Ids(own[keep..])
  {
    hide UniqueIds, Filter;
    HeadKept(own, keep);
    var left := Filter(own, (x: Row) => x.id !in gone);
    assert own == own[..keep] + own[keep..];
    forall r | r in own[keep..]
      ensures r.id in gone
    {
      assert r in own && r !in left;
    }
    forall r | r in own && r.id in gone
      ensures r in own[keep..]
    {
      assert r !in left;
    }
  }

  // In a table in time order every cut is in time.
  lemma InTimeCuts(ms: seq<Row>, sid: string, keep: nat)
    requires InTime(ms) && keep <= |Of(ms, sid)|
    ensures InTime(Of(ms, sid)) && CutInTime(Of(ms, sid), keep) && ByTime(Of(ms, sid)) == Of(ms, sid)
  {
    FilterInTime(ms, (r: Row) => r.sid == sid);
    ByTimeFixesIff(Of(ms, sid));
  }

  lemma {:induction false} FilterInTime(ms: seq<Row>, p: Row -> bool)
    requires InTime(ms)
    ensures InTime(Filter(ms, p))
  {
    if ms != [] {
      var n := |ms| - 1;
      FilterInTime(ms[..n], p);
      assert forall r :: r in Filter(ms[..n], p) ==> r in ms[..n];
      assert forall r :: r in ms[..n] ==> r.time <= ms[n].time;
    }
  }

  predicate FreshIds(st: State, ids: seq<string>) {
    (forall i :: 0 <= i < |ids| ==> ids[i] !in Ids(st.messages))
    && forall i, k :: 0 <= i < k < |ids| ==> ids[i] != ids[k]
  }

  lemma ReplaceRefines(j: Json, st: State, sid: string, ms: seq<Message>, now: int, ids: seq<string>)
    requires Lawful(j) && Inv(j, st) && |ids| == |ms| && FreshIds(st, ids)
    requires forall m :: m in ms ==> Storable(j, m.content)
    ensures ReplaceAll(j, st, sid, ms, now, ids).Success? <==> sid in st.rows
    ensures sid in st.rows ==>
      var (st', ok) := ReplaceAll(j, st, sid, ms, now, ids).value;
      sid in Chats(j, st) && ok && Inv(j, st') && Chats(j, st') == With(Chats(j, st), sid, SaidInTurn(ms, now, ids))
  {
    hide Get, Inv, Chats, Views, Of, UniqueIds;
    GetTransparent(j, st, sid, now);
    if sid in st.rows {
      GetKeeps(j, st, sid, now);
      ReplaceRows(j, Get(j, st, sid, now).value, sid, ms, now, ids);
    }
  }

  lemma ReplacedTable(j: Json, got: State, sid: string, ms: seq<Message>, now: int, ids: seq<string>)
    requires UniqueIds(got.messages) && |ids| == |ms| && FreshIds(got, ids)
    ensures var rest, news := Without(got.messages, sid), NewRows(j, sid, ms, now, ids);
            UniqueIds(rest + news) && (forall r :: r in rest + news ==> r in got.messages || r.sid == sid)
            && forall t :: Of(rest + news, t) == if t == sid then news else Of(got.messages, t)
  {
    hide Filter, UniqueIds;
    var rest, news := Without(got.messages, sid), NewRows(j, sid, ms, now, ids);
    forall t
      ensures Of(rest + news, t) == if t == sid then news else Of(got.messages, t)
    {
      OfWithout(got.messages, sid, t);
      OfAppended(rest, news, sid, t);
      assert [] + news == news;
    }
    FilterUnique(got.messages, (r: Row) => r.sid != sid);
    FreshUnique(got, rest, news, ids);
  }

  lemma NewRowsSeen(j: Json, sid: string, ms: seq<Message>, now: int, ids: seq<string>)
    requires Lawful(j) && |ids| == |ms| && forall m :: m in ms ==> Storable(j, m.content)
    ensures Views(j, NewRows(j, sid, ms, now, ids)) == SaidInTurn(ms, now, ids)
  {
    forall i | 0 <= i < |ms|
      ensures Seen(j, NewRows(j, sid, ms, now, ids)[i]) == SaidNow(ms[i], now + i, ids[i])
    {
      assert ms[i] in ms;
      ContentRoundTripIff(j, ms[i].content);
    }
  }

  lemma ReplaceRows(j: Json, got: State, sid: string, ms: seq<Message>, now: int, ids: seq<string>)
    requires Lawful(j) && Inv(j, got) && |ids| == |ms| && FreshIds(got, ids) && sid in got.rows && sid in got.cache
    requires forall m :: m in ms ==> Storable(j, m.content)
    ensures var st' := got.(messages := Without(got.messages, sid) + NewRows(j, sid, ms, now, ids),
                            rows := got.rows[sid := got.rows[sid].(count := |ms|, accessed := now)],
                            cache := got.cache[sid := got.cache[sid].(history := Numbered(ms, ids), count := |ms|)]);
            sid in Chats(j, got) && Inv(j, st') && Chats(j, st') == With(Chats(j, got), sid, SaidInTurn(ms, now, ids))
  {
    hide Of, Inv, Chats, Mirrors, UniqueIds, Views, NewRows, SaidInTurn, Numbered, Without, RowOf;
    var rest, news := Without(got.messages, sid), NewRows(j, sid, ms, now, ids);
    var st' := got.(messages := rest + news, rows := got.rows[sid := got.rows[sid].(count := |ms|, accessed := now)],
                    cache := got.cache[sid := got.cache[sid].(history := Numbered(ms, ids), count := |ms|)]);
    InvFacts(j, got);
    ReplacedTable(j, got, sid, ms, now, ids);
    NewRowsMirror(j, sid, ms, now, ids);
    NewRowsSeen(j, sid, ms, now, ids);
    OneSessionChanged(j, got, st', sid, news);
    ChatOf(j, got, sid);
  }

  lemma NewRowsMirror(j: Json, sid: string, ms: seq<Message>, now: int, ids: seq<string>)
    requires Lawful(j) && |ids| == |ms| && forall m :: m in ms ==> Storable(j, m.content)
    ensures Mirrors(j, Numbered(ms, ids), NewRows(j, sid, ms, now, ids))
  {
    forall i | 0 <= i < |ms|
      ensures SameMessage(Numbered(ms, ids)[i], Decode(j, NewRows(j, sid, ms, now, ids)[i]))
    {
      assert ms[i] in ms;
      ContentRoundTripIff(j, ms[i].content);
    }
  }

  lemma FreshUnique(st: State, rest: seq<Row>, news: seq<Row>, ids: seq<string>)
    requires UniqueIds(rest) && (forall r :: r in rest ==> r in st.messages) && FreshIds(st, ids)
    requires |news| == |ids| && forall i :: 0 <= i < |news| ==> news[i].id == ids[i]
    ensures UniqueIds(rest + news)
  {
    forall i, k | 0 <= i < k < |rest + news|
      ensures (rest + news)[i].id != (rest + news)[k].id
    {
      if i < |rest| <= k {
        assert rest[i] in st.messages;
        assert rest[i].id in Ids(st.messages);
      }
    }
  }

  lemma CreateRefines(j: Json, st: State, sid: string, meta: Meta, now: int)
    requires Inv(j, st)
    ensures Create(st, sid, meta, now).Success? <==> sid !in st.rows
    ensures sid !in st.rows ==>
      var st' := Create(st, sid, meta, now).value;
      Inv(j, st') && Chats(j, st') == Chats(j, st)[sid := Chat(meta, [])]
  {
    if sid !in st.rows {
      FilterNone(st.messages, (r: Row) => r.sid == sid);
      assert Of(st.messages, sid) == [];
      hide Of;
      OneSessionChanged(j, st, Create(st, sid, meta, now).value, sid, []);
    }
  }

  lemma DeleteRefines(j: Json, st: State, sid: string)
    requires Inv(j, st)
    ensures Inv(j, Delete(st, sid)) && Chats(j, Delete(st, sid)) == Chats(j, st) - {sid}
  {
    hide Of, Inv, Chats, UniqueIds, Without;
    InvFacts(j, st);
    ChatKeys(j, st);
    if sid in st.rows || sid in st.cache {
      DeletedTable(st.messages, sid);
      SessionsRemoved(j, st, Delete(st, sid));
    }
  }

  lemma DeletedTable(ms: seq<Row>, sid: string)
    requires UniqueIds(ms)
    ensures UniqueIds(Without(ms, sid)) && forall r :: r in Without(ms, sid) ==> r in ms && r.sid != sid
    ensures forall t :: Of(Without(ms, sid), t) == if t == sid then [] else Of(ms, t)
  {
    forall t
      ensures Of(Without(ms, sid), t) == if t == sid then [] else Of(ms, t)
    {
      OfWithout(ms, sid, t);
    }
    FilterUnique(ms, (r: Row) => r.sid != sid);
  }

  // Some chat with messages in it is not archived.
  predicate Live(c: map<string, Chat>) {
    exists sid :: sid in c && c[sid].said != [] && !c[sid].meta.archived
  }

  // A cleanup commits exactly if every chat with messages is archived; then it
  // deletes exactly the sessions without messages. Otherwise it changes no chat,
  // and in no case does it lose a message or archive anything.
  lemma CleanupRefines(j: Json, st: State, order: seq<string>)
    requires Inv(j, st)
    ensures var (st', ok) := Cleanup(st, order); var c := Chats(j, st);
      && Inv(j, st') && st'.messages == st.messages && (ok <==> !Live(c))
      && Chats(j, st') == if ok then map sid | sid in c && c[sid].said != [] :: c[sid] else c
  {
    BlockedIffLive(j, st);
    hide Inv, Chats, Blocked, Live;
    if Blocked(st) {
      FewerCached(j, st, Emptied(st, Passed(st, order)));
    } else {
      CleanupMessages(j, st);
      EmptyOnesGo(j, st);
    }
  }

  lemma EmptyOnesGo(j: Json, st: State)
    requires Inv(j, st)
    ensures var empty := Emptied(st, st.rows.Keys); var c := Chats(j, st);
      var st' := State(st.rows - empty, st.messages, st.cache - empty);
      Inv(j, st') && Chats(j, st') == map sid | sid in c && c[sid].said != [] :: c[sid]
  {
    var empty := Emptied(st, st.rows.Keys);
    InvFacts(j, st);
    ChatKeys(j, st);
    HasRows(j, st);
    hide Of, Inv, Chats, UniqueIds;
    SessionsRemoved(j, st, State(st.rows - empty, st.messages, st.cache - empty));
  }

  // A row's session is counted, so it is not among the empty ones.
  lemma HasRows(j: Json, st: State)
    requires Inv(j, st)
    ensures forall r :: r in st.messages ==> r.sid in st.rows && st.rows[r.sid].count > 0
  {
    forall r | r in st.messages
      ensures r.sid in st.rows && st.rows[r.sid].count > 0
    {
      assert r in Of(st.messages, r.sid);
    }
  }

  lemma BlockedIffLive(j: Json, st: State)
    requires Inv(j, st)
    ensures Blocked(st) <==> Live(Chats(j, st))
  {
    InvFacts(j, st);
    ChatKeys(j, st);
    hide Of, Inv, Chats, Views;
    if Blocked(st) {
      var sid :| sid in st.rows && Raises(st.rows[sid]);
      ChatOf(j, st, sid);
      assert sid in Chats(j, st) && Chats(j, st)[sid].said != [];
    }
    if Live(Chats(j, st)) {
      var sid :| sid in Chats(j, st) && Chats(j, st)[sid].said != [] && !Chats(j, st)[sid].meta.archived;
      ChatOf(j, st, sid);
      assert Raises(st.rows[sid]);
    }
  }

  lemma FewerCached(j: Json, st: State, gone: set<string>)
    requires Inv(j, st)
    ensures var st' := st.(cache := st.cache - gone);
            Inv(j, st') && Chats(j, st') == Chats(j, st)
  {
    hide Of, UniqueIds, EntryRight;
  }

  // A message that comes after its session is gone is dropped, with whatever
  // memory still held of the session;
  lemma LateMessageDropped(j: Json, st: State, sid: string, m: Message, now: int, id: string)
    requires sid !in st.rows
    ensures var st' := Persist(j, st, sid, m, now, id);
      st'.rows == st.rows && st'.messages == st.messages
      && sid !in st'.cache && forall t :: t in st.cache && t != sid ==> t in st'.cache && st'.cache[t] == st.cache[t]
  {}

  // so no row is ever written without its session.
  lemma NoOrphanRow(j: Json, st: State, sid: string, m: Message, now: int, id: string)
    requires forall r :: r in st.messages ==> r.sid in st.rows
    ensures var st' := Persist(j, st, sid, m, now, id);
      (forall r :: r in st'.messages ==> r.sid in st'.rows) && (sid in st.rows <==> |st'.messages| > |st.messages|)
  {}

  // No session up to this one in the order of the query is in use: with messages
  // and not archived.
  predicate NoneInUse(st: State, order: seq<string>, i: nat)
    requires i < |order|
  {
    forall k :: 0 <= k <= i && order[k] in st.rows ==> st.rows[order[k]].count == 0 || st.rows[order[k]].meta.archived
  }

  // What a cleanup that raises has come past by then: the sessions in front of
  // the first in use.
  lemma {:induction false} PassedIff(st: State, order: seq<string>, sid: string)
    ensures sid in Passed(st, order) <==> exists i :: 0 <= i < |order| && order[i] == sid && NoneInUse(st, order, i)
    decreases |order|
  {
    if order != [] {
      var rest := order[1..];
      PassedIff(st, rest, sid);
      if i :| 0 <= i < |rest| && rest[i] == sid && NoneInUse(st, rest, i) {
        assert order[i + 1] == sid;
        assert forall k :: 1 <= k <= i + 1 ==> order[k] == rest[k - 1];
        assert !(order[0] in st.rows && Raises(st.rows[order[0]])) ==> NoneInUse(st, order, i + 1);
      }
      if i :| 0 <= i < |order| && order[i] == sid && NoneInUse(st, order, i) {
        assert order[0] in st.rows ==> !Raises(st.rows[order[0]]);
        if i > 0 {
          assert rest[i - 1] == sid;
          assert forall k :: 0 <= k < i ==> rest[k] == order[k + 1];
          assert NoneInUse(st, rest, i - 1);
        }
      }
    }
  }

  lemma CleanupMessages(j: Json, st: State)
    requires Inv(j, st)
    ensures Filter(st.messages, (r: Row) => r.sid !in Emptied(st, st.rows.Keys)) == st.messages
  {
    HasRows(j, st);
    FilterAll(st.messages, (r: Row) => r.sid !in Emptied(st, st.rows.Keys));
  }

  // `_persist_message` reached through a session object that is not the cached
  // one writes a wrong counter unless memory happens to agree.
  lemma PersistCountIff(j: Json, st: State, sid: string, m: Message, now: int, id: string)
    requires Inv(j, st) && sid in st.rows
    ensures Persist(j, st, sid, m, now, id).rows[sid].count == |Of(Persist(j, st, sid, m, now, id).messages, sid)|
       <==> sid in st.cache && |st.cache[sid].history| == |Of(st.messages, sid)| + 1
  {
    OfAppended(st.messages, [RowOf(j, sid, Stamped(m, now, id), now, id)], sid, sid);
  }

  // With the session out of memory the counter becomes zero, and the next
  // cleanup takes the session and all its messages with it, exactly if every
  // other chat with messages is archived; else it leaves all messages.
  lemma StaleAddThenCleanupLosesIff(j: Json, st: State, sid: string, m: Message, now: int,
                                    id: string, order: seq<string>)
    requires Inv(j, st) && sid in st.rows && sid !in st.cache
    ensures var mid := Persist(j, st, sid, m, now, id); var st' := Cleanup(mid, order).0;
      && |Of(mid.messages, sid)| == |Of(st.messages, sid)| + 1
      && (sid !in st'.rows && Of(st'.messages, sid) == [] <==> !Live(Chats(j, st) - {sid}))
      && (Live(Chats(j, st) - {sid}) ==> st'.rows == mid.rows && st'.messages == mid.messages)
  {
    OfAppended(st.messages, [RowOf(j, sid, Stamped(m, now, id), now, id)], sid, sid);
    var mid := Persist(j, st, sid, m, now, id);
    OthersBlock(j, st, mid, sid);
    if !Blocked(mid) {
      var st' := Cleanup(mid, order).0;
      hide Of, Blocked, Live, Chats, Inv;
      assert forall r :: r in st'.messages ==> r.sid != sid;
      FilterNone(st'.messages, (r: Row) => r.sid == sid);
      assert Of(st'.messages, sid) == [] by { NoneOf(st'.messages, sid); }
    }
  }

  lemma NoneOf(ms: seq<Row>, sid: string)
    requires forall r :: r in ms ==> r.sid != sid
    ensures Of(ms, sid) == []
  {
    FilterNone(ms, (r: Row) => r.sid == sid);
  }

  // A session counted empty blocks nothing; the others do as before.
  lemma OthersBlock(j: Json, st: State, mid: State, sid: string)
    requires Inv(j, st) && sid in st.rows && mid.rows.Keys == st.rows.Keys && mid.rows[sid].count == 0
    requires forall t :: t in st.rows && t != sid ==> mid.rows[t] == st.rows[t]
    ensures Blocked(mid) <==> Live(Chats(j, st) - {sid})
  {
    InvFacts(j, st);
    ChatKeys(j, st);
    var c := Chats(j, st) - {sid};
    hide Of, Inv, Chats, Views;
    if Blocked(mid) {
      var t :| t in mid.rows && Raises(mid.rows[t]);
      ChatOf(j, st, t);
      assert t in c && c[t].said != [] && !c[t].meta.archived;
    }
    if Live(c) {
      var t :| t in c && c[t].said != [] && !c[t].meta.archived;
      ChatOf(j, st, t);
      assert Raises(mid.rows[t]);
    }
  }

  // ----------------------------------------------------------- whole runs

  datatype Op =
    | OpCreate(sid: string, meta: Meta, now: int)
    | OpGet(sid: string, now: int)
    | OpAdd(sid: string, m: Message, now: int, id: string)
    | OpTruncate(sid: string, keep: int, now: int)
    | OpReplace(sid: string, ms: seq<Message>, now: int, ids: seq<string>)
    | OpDelete(sid: string)
    | OpCleanup(order: seq<string>)
    | OpRestart(picked: set<string>)
    | OpSetMeta(sid: string, meta: Meta)
    | OpLate(sid: string, m: Message, now: int, id: string)

  // A late message is one for a session that is gone. What an operation may be
  // given: fresh row ids, contents that survive being
  // stored, no more messages to keep than there are, and a preload of sessions the
  // query can return.
  ghost predicate Asked(j: Json, st: State, op: Op) {
    match op
    case OpAdd(_, m, _, id) => id !in Ids(st.messages) && Storable(j, m.content)
    case OpTruncate(sid, keep, _) => sid in st.rows && keep >= 0 ==> keep <= |Of(st.messages, sid)|
    case OpReplace(_, ms, _, ids) =>
      |ids| == |ms| && FreshIds(st, ids) && forall m :: m in ms ==> Storable(j, m.content)
    case OpRestart(picked) => picked <= st.rows.Keys && forall s :: s in picked ==> st.rows[s].count > 0
    case OpLate(sid, _, _, _) => sid !in st.rows
    case _ => true
  }

  // A truncation also has to cut in time.
  ghost predicate Admissible(j: Json, st: State, op: Op) {
    && Asked(j, st, op)
    && (op.OpTruncate? && op.sid in st.rows && op.keep >= 0 ==> CutInTime(Of(st.messages, op.sid), op.keep))
  }

  function Value(r: Result<State, Error>, st: State): State {
    if r.Success? then r.value else st
  }

  function First(r: Result<(State, bool), Error>, st: State): State {
    if r.Success? then r.value.0 else st
  }

  ghost function Apply(j: Json, st: State, op: Op): State
    requires Asked(j, st, op)
  {
    match op
    case OpCreate(sid, meta, now) => Value(Create(st, sid, meta, now), st)
    case OpGet(sid, now) => Value(Get(j, st, sid, now), st)
    case OpAdd(sid, m, now, id) => Value(Add(j, st, sid, m, now, id), st)
    case OpTruncate(sid, keep, now) => First(Truncate(j, st, sid, keep, now), st)
    case OpReplace(sid, ms, now, ids) => First(ReplaceAll(j, st, sid, ms, now, ids), st)
    case OpDelete(sid) => Delete(st, sid)
    case OpCleanup(order) => Cleanup(st, order).0
    case OpRestart(picked) => Restart(st, picked)
    case OpSetMeta(sid, meta) => SetMeta(st, sid, meta)
    case OpLate(sid, m, now, id) => Persist(j, st, sid, m, now, id)
  }

  // The same operation on a plain map of chats: no tables, no memory, no counters.
  function Ideal(c: map<string, Chat>, op: Op): map<string, Chat> {
    match op
    case OpCreate(sid, meta, _) => if sid in c then c else c[sid := Chat(meta, [])]
    case OpAdd(sid, m, now, id) => if sid in c then With(c, sid, c[sid].said + [SaidNow(m, now, id)]) else c
    case OpTruncate(sid, keep, _) =>
      if sid in c && 0 <= keep <= |c[sid].said| then With(c, sid, c[sid].said[..keep]) else c
    case OpReplace(sid, ms, now, ids) =>
      if sid in c && |ids| == |ms| then With(c, sid, SaidInTurn(ms, now, ids)) else c
    case OpDelete(sid) => c - {sid}
    case OpCleanup(_) => if Live(c) then c else map sid | sid in c && c[sid].said != [] :: c[sid]
    case OpSetMeta(sid, meta) => if sid in c then c[sid := Chat(meta, c[sid].said)] else c
    case _ => c
  }

  lemma StepRefines(j: Json, st: State, op: Op)
    requires Lawful(j) && Inv(j, st) && Admissible(j, st, op)
    ensures Inv(j, Apply(j, st, op)) && Chats(j, Apply(j, st, op)) == Ideal(Chats(j, st), op)
  {
    hide Inv, Chats, Create, Get, Add, Truncate, ReplaceAll, Delete, Cleanup;
    match op
    case OpCreate(sid, meta, now) => CreateRefines(j, st, sid, meta, now); ChatKeys(j, st);
    case OpGet(sid, now) =>
      GetTransparent(j, st, sid, now);
      if sid in st.rows { GetKeeps(j, st, sid, now); }
    case OpAdd(sid, m, now, id) => AddRefines(j, st, sid, m, now, id); ChatKeys(j, st);
    case OpTruncate(sid, keep, now) => TruncateRefines(j, st, sid, keep, now); ChatKeys(j, st);
    case OpReplace(sid, ms, now, ids) => ReplaceRefines(j, st, sid, ms, now, ids); ChatKeys(j, st);
    case OpDelete(sid) => DeleteRefines(j, st, sid);
    case OpCleanup(order) => CleanupRefines(j, st, order);
    case OpRestart(picked) => RestartTransparent(j, st, picked, "", 0); SameTables(j, st, Restart(st, picked));
    case OpSetMeta(sid, meta) => SetMetaKeeps(j, st, sid, meta);
    case OpLate(sid, m, now, id) => LateMessageDropped(j, st, sid, m, now, id); FewerCached(j, st, {sid});
  }

  lemma ChatKeys(j: Json, st: State)
    ensures Chats(j, st).Keys == st.rows.Keys
    ensures forall sid :: sid in st.rows ==> |Chats(j, st)[sid].said| == |Of(st.messages, sid)|
  {}

  lemma SameTables(j: Json, st: State, st': State)
    requires st.rows == st'.rows && st.messages == st'.messages
    ensures Chats(j, st) == Chats(j, st')
  {}

  lemma SetMetaKeeps(j: Json, st: State, sid: string, meta: Meta)
    requires Inv(j, st)
    ensures Inv(j, SetMeta(st, sid, meta))
    ensures Chats(j, SetMeta(st, sid, meta))
         == if sid in Chats(j, st) then Chats(j, st)[sid := Chat(meta, Chats(j, st)[sid].said)] else Chats(j, st)
  {
    hide Of, UniqueIds, EntryRight, Views;
  }

  ghost predicate AdmissibleRun(j: Json, st: State, ops: seq<Op>)
    decreases |ops|
  {
    ops == [] || (Admissible(j, st, ops[0]) && AdmissibleRun(j, Apply(j, st, ops[0]), ops[1..]))
  }

  ghost function Run(j: Json, st: State, ops: seq<Op>): State
    requires AdmissibleRun(j, st, ops)
    decreases |ops|
  {
    if ops == [] then st else Run(j, Apply(j, st, ops[0]), ops[1..])
  }

  function IdealRun(c: map<string, Chat>, ops: seq<Op>): map<string, Chat>
    decreases |ops|
  {
    if ops == [] then c else IdealRun(Ideal(c, ops[0]), ops[1..])
  }

  lemma {:induction false} RunRefines(j: Json, st: State, ops: seq<Op>)
    requires Lawful(j) && Inv(j, st) && AdmissibleRun(j, st, ops)
    ensures Inv(j, Run(j, st, ops)) && Chats(j, Run(j, st, ops)) == IdealRun(Chats(j, st), ops)
    decreases |ops|
  {
    if ops != [] {
      StepRefines(j, st, ops[0]);
      RunRefines(j, Apply(j, st, ops[0]), ops[1..]);
    }
  }

  // After any admissible run from an empty database, a read of any session
  // returns the messages and the metadata a plain map of chats would hold;
  lemma ReadAfterRun(j: Json, ops: seq<Op>, sid: string, now: int)
    requires Lawful(j) && AdmissibleRun(j, Empty, ops)
    ensures var st, c := Run(j, Empty, ops), IdealRun(map[], ops);
            (Get(j, st, sid, now).Success? <==> sid in c)
            && (sid in c ==>
                  var read := Get(j, st, sid, now).value.cache[sid];
                  read.meta == c[sid].meta && Tells(read.history, c[sid].said))
  {
    assert Chats(j, Empty) == map[];
    RunRefines(j, Empty, ops);
    GetTransparent(j, Run(j, Empty, ops), sid, now);
  }

  // and once the process has been restarted, message by message, with the time
  // stamps and the row ids.
  lemma ReadAfterRestart(j: Json, ops: seq<Op>, picked: set<string>, sid: string, now: int)
    requires Lawful(j) && AdmissibleRun(j, Empty, ops + [OpRestart(picked)])
    ensures var st, c := Run(j, Empty, ops + [OpRestart(picked)]), IdealRun(map[], ops);
            (Get(j, st, sid, now).Success? <==> sid in c)
            && (sid in c ==>
                  var read := Get(j, st, sid, now).value.cache[sid];
                  && read.meta == c[sid].meta && |read.history| == |c[sid].said|
                  && forall i :: 0 <= i < |read.history| ==> read.history[i] == Told(c[sid].said[i]))
  {
    assert Chats(j, Empty) == map[];
    RunSplit(j, Empty, ops, OpRestart(picked));
    RunRefines(j, Empty, ops);
    var st := Run(j, Empty, ops);
    hide Run, AdmissibleRun, IdealRun, Inv, Of, Views;
    RestartTransparent(j, st, picked, sid, now);
    GetTransparent(j, Restart(st, picked), sid, now);
    ChatKeys(j, st);
    if sid in st.rows {
      ColdHistory(j, st, picked, sid, now);
      ChatOf(j, st, sid);
    }
  }

  lemma {:induction false} RunSplit(j: Json, st: State, ops: seq<Op>, op: Op)
    requires AdmissibleRun(j, st, ops + [op])
    ensures AdmissibleRun(j, st, ops) && Admissible(j, Run(j, st, ops), op)
    ensures Run(j, st, ops + [op]) == Apply(j, Run(j, st, ops), op)
    decreases |ops|
  {
    hide Asked, CutInTime, Apply;
    if ops == [] {
      assert ops + [op] == [op] && [op][1..] == [];
    } else {
      assert (ops + [op])[1..] == ops[1..] + [op];
      RunSplit(j, Apply(j, st, ops[0]), ops[1..], op);
    }
  }

  // An operation in front of an admissible run.
  lemma RunCons(j: Json, st: State, op: Op, ops: seq<Op>)
    requires Admissible(j, st, op) && AdmissibleRun(j, Apply(j, st, op), ops)
    ensures AdmissibleRun(j, st, [op] + ops) && Run(j, st, [op] + ops) == Run(j, Apply(j, st, op), ops)
  {
    hide Admissible, Apply;
    assert ([op] + ops)[1..] == ops;
  }

  function TwoSessions(a: string, b: string, meta: Meta, m: Message, id: string, order: seq<string>): seq<Op> {
    [OpCreate(a, meta, 0), OpAdd(a, m, 1, id), OpCreate(b, meta, 2), OpCleanup(order)]
  }

  // One chat in use is enough to keep every empty session: this one is found
  // after the cleanup.
  lemma EmptyChatStays(j: Json, a: string, b: string, meta: Meta, m: Message, id: string, order: seq<string>)
    requires Lawful(j) && Storable(j, m.content) && !meta.archived && a != b
    ensures var ops := TwoSessions(a, b, meta, m, id, order);
            AdmissibleRun(j, Empty, ops) && Get(j, Run(j, Empty, ops), b, 3).Success?
  {
    TwoSessionsAdmissible(j, a, b, meta, m, id, order);
    TwoSessionsIdeal(a, b, meta, m, id, order);
    hide TwoSessions, AdmissibleRun, Run, IdealRun, Get;
    ReadAfterRun(j, TwoSessions(a, b, meta, m, id, order), b, 3);
  }

  lemma FourAdmissible(j: Json, st: State, a: Op, b: Op, c: Op, d: Op)
    requires Admissible(j, st, a) && Admissible(j, Apply(j, st, a), b)
    requires Admissible(j, Apply(j, Apply(j, st, a), b), c)
    requires Admissible(j, Apply(j, Apply(j, Apply(j, st, a), b), c), d)
    ensures AdmissibleRun(j, st, [a, b, c, d])
  {
    hide Asked, CutInTime, Apply, AdmissibleRun, Run;
    var s1 := Apply(j, st, a);
    var s2 := Apply(j, s1, b);
    var s3 := Apply(j, s2, c);
    NoOps(j, Apply(j, s3, d));
    assert [d] + [] == [d] && [c] + [d] == [c, d] && [b] + [c, d] == [b, c, d] && [a] + [b, c, d] == [a, b, c, d];
    RunCons(j, s3, d, []);
    RunCons(j, s2, c, [d]);
    RunCons(j, s1, b, [c, d]);
    RunCons(j, st, a, [b, c, d]);
  }

  lemma TwoSessionsAdmissible(j: Json, a: string, b: string, meta: Meta, m: Message, id: string, order: seq<string>)
    requires Storable(j, m.content)
    ensures AdmissibleRun(j, Empty, TwoSessions(a, b, meta, m, id, order))
  {
    var ops := TwoSessions(a, b, meta, m, id, order);
    var s1 := Apply(j, Empty, ops[0]);
    assert s1.messages == [] && Admissible(j, s1, ops[1]);
    hide Storable, Apply, AdmissibleRun, Run;
    FourAdmissible(j, Empty, ops[0], ops[1], ops[2], ops[3]);
  }

  lemma TwoSessionsIdeal(a: string, b: string, meta: Meta, m: Message, id: string, order: seq<string>)
    requires !meta.archived && a != b
    ensures b in IdealRun(map[], TwoSessions(a, b, meta, m, id, order))
  {
    var ops := TwoSessions(a, b, meta, m, id, order);
    var c1 := map[a := Chat(meta, [])];
    var c2 := map[a := Chat(meta, [SaidNow(m, 1, id)])];
    var c3 := c2[b := Chat(meta, [])];
    assert c1[a].said + [SaidNow(m, 1, id)] == [SaidNow(m, 1, id)];
    assert Ideal(map[], ops[0]) == c1;
    assert Ideal(c1, ops[1]) == c2;
    assert Ideal(c2, ops[2]) == c3;
    assert a in c3 && c3[a].said != [];
    assert Ideal(c3, ops[3]) == c3;
    hide Ideal;
    assert ops[1..][1..] == ops[2..] && ops[2..][1..] == ops[3..] && ops[3..][1..] == [];
    assert IdealRun(c3, ops[3..]) == IdealRun(c3, []) == c3;
    assert IdealRun(c2, ops[2..]) == IdealRun(c3, ops[3..]);
    assert IdealRun(c1, ops[1..]) == IdealRun(c2, ops[2..]);
  }

  lemma NoOps(j: Json, st: State)
    ensures AdmissibleRun(j, st, []) && Run(j, st, []) == st
  {}

  // ------------------------------------------------------------- the clock

  // The clock has not gone back behind a stored time stamp.
  predicate OnTime(st: State, op: Op) {
    match op
    case OpAdd(_, _, now, _) => forall r :: r in st.messages ==> r.time <= now
    case OpReplace(_, _, now, _) => forall r :: r in st.messages ==> r.time <= now
    case _ => true
  }

  lemma InTimeConcat(a: seq<Row>, b: seq<Row>)
    requires InTime(a) && InTime(b) && forall x, y :: x in a && y in b ==> x.time <= y.time
    ensures InTime(a + b)
  {}

  lemma StepInTime(j: Json, st: State, op: Op)
    requires Asked(j, st, op) && OnTime(st, op) && InTime(st.messages)
    ensures InTime(Apply(j, st, op).messages)
  {
    hide InTime, Of, ByTime, Ids;
    match op
    case OpAdd(sid, m, now, id) =>
      if Get(j, st, sid, now).Success? {
        var row := RowOf(j, sid, Stamped(m, now, id), now, id);
        LoneInTime(row);
        InTimeConcat(st.messages, [row]);
      }
    case OpTruncate(sid, keep, now) =>
      if keep >= 0 {
        var own := ByTime(Of(st.messages, sid));
        var gone := Ids(if keep <= |own| then own[keep..] else []);
        FilterInTime(st.messages, (r: Row) => r.id !in gone);
      }
    case OpReplace(sid, ms, now, ids) =>
      FilterInTime(st.messages, (r: Row) => r.sid != sid);
      NewRowsInTime(j, sid, ms, now, ids);
      InTimeConcat(Without(st.messages, sid), NewRows(j, sid, ms, now, ids));
    case OpDelete(sid) => FilterInTime(st.messages, (r: Row) => r.sid != sid);
    case OpCleanup(_) =>
      var empty := Emptied(st, st.rows.Keys);
      FilterInTime(st.messages, (r: Row) => r.sid !in empty);
    case _ =>
  }

  lemma LoneInTime(r: Row)
    ensures InTime([r])
  {}

  lemma NewRowsInTime(j: Json, sid: string, ms: seq<Message>, now: int, ids: seq<string>)
    requires |ids| == |ms|
    ensures InTime(NewRows(j, sid, ms, now, ids)) && forall r :: r in NewRows(j, sid, ms, now, ids) ==> r.time >= now
  {}

  ghost predicate TimelyRun(j: Json, st: State, ops: seq<Op>)
    decreases |ops|
  {
    ops == [] || (Asked(j, st, ops[0]) && OnTime(st, ops[0]) && TimelyRun(j, Apply(j, st, ops[0]), ops[1..]))
  }

  // With a clock that does not go back, the order of the time stamps is the
  // order of the table throughout, and every truncation cuts in time.
  lemma {:induction false} TimelyRunAdmissible(j: Json, st: State, ops: seq<Op>)
    requires TimelyRun(j, st, ops) && InTime(st.messages)
    ensures AdmissibleRun(j, st, ops) && InTime(Run(j, st, ops).messages)
    decreases |ops|
  {
    hide InTime, CutInTime, Asked, OnTime, Apply;
    if ops != [] {
      var op := ops[0];
      StepInTime(j, st, op);
      if op.OpTruncate? && op.sid in st.rows && op.keep >= 0 {
        TruncationFits(j, st, op);
        InTimeCuts(st.messages, op.sid, op.keep);
      }
      TimelyRunAdmissible(j, Apply(j, st, op), ops[1..]);
    }
  }

  lemma TruncationFits(j: Json, st: State, op: Op)
    requires Asked(j, st, op) && op.OpTruncate? && op.sid in st.rows && op.keep >= 0
    ensures op.keep <= |Of(st.messages, op.sid)|
  {}

  lemma {:induction false} FilterFilter(ms: seq<Row>, p: Row -> bool, q: Row -> bool, both: Row -> bool)
    requires forall r: Row :: both(r) == (p(r) && q(r))
    ensures Filter(Filter(ms, p), q) == Filter(ms, both)
  {
    if ms != [] {
      var n := |ms| - 1;
      FilterFilter(ms[..n], p, q, both);
      if p(ms[n]) {
        FilterConcat(Filter(ms[..n], p), [ms[n]], q);
        FilterSingle(ms[n], q);
      } else {
        assert Filter(ms, p) == Filter(ms[..n], p) && Filter(ms, both) == Filter(ms[..n], both);
      }
    }
  }

  lemma FilterTwice(ms: seq<Row>, ids: set<string>, id: string)
    ensures Filter(WithoutIds(ms, ids), (r: Row) => r.id != id) == WithoutIds(ms, ids + {id})
  {
    FilterFilter(ms, (r: Row) => r.id !in ids, (r: Row) => r.id != id, (r: Row) => r.id !in ids + {id});
  }

  lemma NothingDeleted(ms: seq<Row>)
    ensures WithoutIds(ms, Ids([])) == ms
  {
    FilterAll(ms, (r: Row) => r.id !in Ids([]));
  }

  lemma OneMoreId(ms: seq<Row>, i: nat)
    requires i < |ms|
    ensures Ids(ms[..i + 1]) == Ids(ms[..i]) + {ms[i].id}
  {
    assert ms[..i + 1] == ms[..i] + [ms[i]];
  }

  // ------------------------------------------------------------ the manager

  // `SessionManager` over its two tables. Each method is the function of the
  // same steps above, carried out in place.
  class SessionManager {
    const json: Json
    var rows: map<string, SessionRow>
    var messages: seq<Row>
    var cache: map<string, Cached>

    function View(): State
      reads this
    {
      State(rows, messages, cache)
    }

    constructor (json: Json)
      ensures View() == Empty && this.json == json
    {
      this.json := json;
      rows, messages, cache := map[], [], map[];
    }

    // A new process and `load_sessions`, given the rows its query returns.
    method LoadSessions(found: seq<string>)
      requires forall sid :: sid in found ==> sid in rows
      modifies this`cache
      ensures View() == Restart(old(View()), set sid | sid in found)
    {
      cache := map[];
      for i := 0 to |found|
        invariant cache == Restart(old(View()), set sid | sid in found[..i]).cache
      {
        var sid := found[i];
        assert found[..i + 1] == found[..i] + [sid];
        cache := cache[sid := Cached([], rows[sid].count, rows[sid].meta)];
      }
      assert found[..|found|] == found;
    }

    // The rows of one session: `query(...).filter(session_id == sid).all()`.
    method SelectMessages(sid: string) returns (own: seq<Row>)
      ensures own == Of(messages, sid)
    {
      own := [];
      for i := 0 to |messages|
        invariant own == Of(messages[..i], sid)
      {
        assert messages[..i + 1][..i] == messages[..i];
        if messages[i].sid == sid { own := own + [messages[i]]; }
      }
      assert messages[..|messages|] == messages;
    }

    method LoadSessionFromDb(sid: string) returns (found: bool)
      modifies this`cache
      ensures found == (sid in rows)
      ensures View() == if found then Load(json, old(View()), sid) else old(View())
    {
      if sid !in rows { return false; }
      var own := SelectMessages(sid);
      var history: seq<Message> := [];
      for i := 0 to |own|
        invariant history == DecodeAll(json, own[..i])
      {
        history := history + [Decode(json, own[i])];
      }
      assert own[..|own|] == own;
      cache := cache[sid := Cached(history, rows[sid].count, rows[sid].meta)];
      return true;
    }

    method SyncSessionMetadata(sid: string)
      modifies this`cache
      ensures View() == Sync(old(View()), sid)
    {
      if sid in cache && sid in rows {
        cache := cache[sid := cache[sid].(count := rows[sid].count, meta := rows[sid].meta)];
      }
    }

    method TouchSession(sid: string, now: int)
      modifies this`rows
      ensures View() == Touch(old(View()), sid, now)
    {
      if sid in rows { rows := rows[sid := rows[sid].(accessed := now)]; }
    }

    method GetSession(sid: string, now: int) returns (found: bool)
      modifies this
      ensures found == Get(json, old(View()), sid, now).Success?
      ensures View() == Value(Get(json, old(View()), sid, now), old(View()))
      ensures found ==> sid in cache
    {
      if sid !in cache {
        found := LoadSessionFromDb(sid);
        if !found { return false; }
      } else if cache[sid].history == [] && cache[sid].count > 0 {
        found := LoadSessionFromDb(sid);
        if !found { return false; }
      }
      SyncSessionMetadata(sid);
      TouchSession(sid, now);
      return true;
    }

    method PersistMessage(sid: string, m: Message, now: int, id: string)
      modifies this
      ensures View() == Persist(json, old(View()), sid, m, now, id)
    {
      if sid !in rows {
        cache := cache - {sid};
        return;
      }
      messages := messages + [RowOf(json, sid, Stamped(m, now, id), now, id)];
      rows := rows[sid := rows[sid].(count := if sid in cache then |cache[sid].history| else 0)];
      rows := rows[sid := rows[sid].(accessed := now)];
    }

    method AddMessage(sid: string, m: Message, now: int, id: string) returns (found: bool)
      modifies this
      ensures found == Add(json, old(View()), sid, m, now, id).Success?
      ensures View() == Value(Add(json, old(View()), sid, m, now, id), old(View()))
    {
      found := GetSession(sid, now);
      if !found { return; }
      var h := cache[sid].history + [Stamped(m, now, id)];
      cache := cache[sid := cache[sid].(history := h, count := |h|)];
      PersistMessage(sid, m, now, id);
    }

    // `for msg in doomed: db.delete(msg)`
    method DeleteMessages(doomed: seq<Row>)
      modifies this`messages
      ensures messages == WithoutIds(old(messages), Ids(doomed))
    {
      hide WithoutIds, Ids, Filter;
      ghost var table := messages;
      NothingDeleted(table);
      assert doomed[..0] == [];
      for i := 0 to |doomed|
        invariant messages == WithoutIds(table, Ids(doomed[..i]))
      {
        var id := doomed[i].id;
        OneMoreId(doomed, i);
        FilterTwice(table, Ids(doomed[..i]), id);
        messages := Filter(messages, (r: Row) => r.id != id);
      }
      assert doomed[..|doomed|] == doomed;
    }

    method TruncateMessages(sid: string, keep: int, now: int) returns (found: bool, ok: bool)
      modifies this
      ensures found == Truncate(json, old(View()), sid, keep, now).Success?
      ensures View() == First(Truncate(json, old(View()), sid, keep, now), old(View()))
      ensures found ==> ok == Truncate(json, old(View()), sid, keep, now).value.1
    {
      found := GetSession(sid, now);
      if !found { return false, false; }
      if keep < 0 { return true, false; }
      hide Of, WithoutIds;
      var own := SelectMessages(sid);
      own := ByTime(own);
      DeleteMessages(if keep <= |own| then own[keep..] else []);
      if sid in rows { rows := rows[sid := rows[sid].(count := keep)]; }
      var h := cache[sid].history;
      cache := cache[sid := cache[sid].(history := if keep <= |h| then h[..keep] else h)];
      ok := true;
    }

    method ReplaceMessages(sid: string, ms: seq<Message>, now: int, ids: seq<string>) returns (found: bool, ok: bool)
      requires |ids| == |ms|
      modifies this
      ensures found == ReplaceAll(json, old(View()), sid, ms, now, ids).Success?
      ensures View() == First(ReplaceAll(json, old(View()), sid, ms, now, ids), old(View()))
      ensures found ==> ok == ReplaceAll(json, old(View()), sid, ms, now, ids).value.1
    {
      found := GetSession(sid, now);
      if !found { return false, false; }
      if sid !in rows && ms != [] { return true, false; }
      ghost var got, kept := View(), Without(messages, sid);
      var table := Filter(messages, (r: Row) => r.sid != sid);
      var history: seq<Message> := [];
      for i := 0 to |ms|
        invariant table == kept + NewRows(json, sid, ms[..i], now, ids[..i])
        invariant history == Numbered(ms[..i], ids[..i])
        invariant View() == got
      {
        table := table + [RowOf(json, sid, ms[i], now + i, ids[i])];
        history := history + [ms[i].(dbId := Some(ids[i]))];
        assert ms[..i + 1] == ms[..i] + [ms[i]] && ids[..i + 1] == ids[..i] + [ids[i]];
      }
      assert ms[..|ms|] == ms && ids[..|ms|] == ids;
      messages := table;
      if sid in rows { rows := rows[sid := rows[sid].(count := |ms|, accessed := now)]; }
      cache := cache[sid := cache[sid].(history := history, count := |ms|)];
      ok := true;
    }

    method CreateSession(sid: string, meta: Meta, now: int) returns (ok: bool)
      modifies this
      ensures ok == Create(old(View()), sid, meta, now).Success?
      ensures View() == Value(Create(old(View()), sid, meta, now), old(View()))
    {
      if sid in rows { return false; }
      rows := rows[sid := SessionRow(meta, 0, now)];
      cache := cache[sid := Cached([], 0, meta)];
      ok := true;
    }

    method DeleteSession(sid: string) returns (deleted: bool)
      modifies this
      ensures View() == Delete(old(View()), sid)
      ensures deleted == (sid in old(rows) || sid in old(cache))
    {
      deleted := sid in rows || sid in cache;
      if !deleted { return; }
      messages := Filter(messages, (r: Row) => r.sid != sid);
      rows := rows - {sid};
      cache := cache - {sid};
    }

    // The sessions in the order the query returns them. The session deletes take
    // effect with the commit, the cache loses its entries at once.
    method CleanupEmptySessions(order: seq<string>) returns (deleted: nat, ok: bool)
      requires Elements(order) == rows.Keys
      modifies this
      ensures (View(), ok) == Cleanup(old(View()), order)
      ensures deleted == if ok then |Emptied(old(View()), old(rows).Keys)| else 0
    {
      hide Emptied, Passed;
      ghost var st := View();
      var doomed: set<string> := {};
      NothingPassed(st, order);
      for i := 0 to |order|
        invariant rows == st.rows && messages == st.messages && cache == st.cache - doomed
        invariant doomed == Emptied(st, Elements(order[..i]))
        invariant forall k :: 0 <= k < i ==> !Raises(rows[order[k]])
      {
        var sid := order[i];
        assert sid in Elements(order);
        EmptiedStep(st, order, i);
        if rows[sid].count == 0 {
          cache := cache - {sid};
          doomed := doomed + {sid};
        } else if !rows[sid].meta.archived {
          FirstRaise(st, order, i);
          return 0, false;
        }
      }
      NoneRaises(st, order);
      assert order[..|order|] == order;
      rows := rows - doomed;
      messages := Filter(messages, (r: Row) => r.sid !in doomed);
      return |doomed|, true;
    }
  }

  lemma NothingPassed(st: State, order: seq<string>)
    ensures Emptied(st, Elements(order[..0])) == {}
  {}

  lemma EmptiedStep(st: State, order: seq<string>, i: nat)
    requires i < |order| && order[i] in st.rows
    ensures Emptied(st, Elements(order[..i + 1]))
         == Emptied(st, Elements(order[..i])) + if st.rows[order[i]].count == 0 then {order[i]} else {}
  {
    assert order[..i + 1] == order[..i] + [order[i]];
  }

  lemma FirstRaise(st: State, order: seq<string>, i: nat)
    requires i < |order| && (forall k :: 0 <= k <= i ==> order[k] in st.rows)
    requires (forall k :: 0 <= k < i ==> !Raises(st.rows[order[k]])) && Raises(st.rows[order[i]])
    ensures Blocked(st) && Passed(st, order) == Elements(order[..i])
    decreases |order|
  {
    if i > 0 {
      assert order[..i] == [order[0]] + order[1..][..i - 1];
      FirstRaise(st, order[1..], i - 1);
    }
  }

  lemma NoneRaises(st: State, order: seq<string>)
    requires Elements(order) == st.rows.Keys
    requires forall k :: 0 <= k < |order| ==> order[k] in st.rows && !Raises(st.rows[order[k]])
    ensures !Blocked(st)
  {
    forall sid | sid in st.rows
      ensures !Raises(st.rows[sid])
    {
      assert sid in Elements(order);
    }
  }
}
