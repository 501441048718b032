// Accounts and login sessions: two maps that have to stay consistent, and what
// a token is worth over a whole run of the server.

module Auth {
  import opened Wrappers
  import opened Strings

  // A password stands for its bcrypt hash, which only that password passes.
  // `created` is the creation time of the record, different for every account.
  datatype User = User(
    password: string, created: nat, isAdmin: bool,
    totpEnabled: bool, secret: Option<string>, pending: Option<string>, backup: seq<string>)

  datatype Session = Session(username: string, expiry: int)

  // The backup codes given out at the last enabling of 2FA and those accepted since.
  datatype CodeLog = CodeLog(issued: seq<string>, accepted: seq<string>)

  // `saved` is sessions.json, `apiOwners` the owner of each api_tokens row. The
  // last three fields are history: the account each token was issued to, a bound
  // on creation times, and the code logs.
  datatype State = State(
    users: map<string, User>, sessions: map<string, Session>, saved: map<string, Session>,
    apiOwners: map<string, Option<string>>,
    issued: map<string, nat>, bound: nat, log: map<nat, CodeLog>)

  const Unconfigured := State(map[], map[], map[], map[], map[], 0, map[])
  const TOKEN_TTL := 604800
  const RESERVED_USERNAMES := {"internal-tool", "api", "demo", "system"}

  // `username.strip().lower()`
  function Normalize(name: string): string { Lower(Strip(name)) }

  lemma NormalizeTwice(name: string)
    ensures Normalize(Normalize(name)) == Normalize(name)
  {
    StripTrims(name);
    var s := Strip(name);
    LowerKeepsTrim(s);
    StripFixes(Lower(s));
    LowerTwice(s);
    hide Strip, Lower;
  }

  // Names are the same to the server if they differ in case and in the white
  // space around them only, and what they come to is such a name, in lower case.
  lemma NormalizeAlike(name: string, left: string, right: string)
    requires AllSpace(left) && AllSpace(right)
    ensures Normalize(left + name + right) == Normalize(name) == Normalize(Lower(name))
  {
    StripPadded(name, left, right);
    StripLower(name);
    LowerTwice(Strip(name));
    hide Strip, Lower;
  }

  lemma NormalizeRight(name: string) returns (left: string, middle: string, right: string)
    ensures name == left + middle + right && AllSpace(left) && AllSpace(right)
    ensures Trimmed(middle) && Normalize(name) == Lower(middle)
  {
    left, right := StripSplits(name);
    middle := Strip(name);
    StripTrims(name);
  }

  lemma LowerTwice(s: string)
    ensures Lower(Lower(s)) == Lower(s)
  {
    forall i | 0 <= i < |s|
      ensures Lower(Lower(s))[i] == Lower(s)[i]
    {}
  }

  lemma LowerKeepsTrim(s: string)
    requires Trimmed(s)
    ensures Trimmed(Lower(s))
  {}

  // ---------------------------------------------------------- accounts

  predicate IsAdmin(st: State, name: string) {
    name in st.users && st.users[name].isAdmin
  }

  function CreateUser(st: State, username: string, password: string, isAdmin: bool, created: nat): (State, bool) {
    var name := Normalize(username);
    if name == "" || name in RESERVED_USERNAMES || name in st.users then (st, false)
    else
      (st.(users := st.users[name := User(password, created, isAdmin, false, None, None, [])],
           bound := if created >= st.bound then created + 1 else st.bound), true)
  }

  function Setup(st: State, username: string, password: string, created: nat): (State, bool) {
    if st.users != map[] then (st, false) else CreateUser(st, username, password, true, created)
  }

  // The requesting name is compared as it came.
  function DeleteUser(st: State, username: string, requesting: string): (State, bool) {
    var name := Normalize(username);
    if name !in st.users || name == requesting || !IsAdmin(st, requesting) then (st, false)
    else
      var left := map t | t in st.sessions && st.sessions[t].username != name :: st.sessions[t];
      (st.(users := st.users - {name}, sessions := left,
           saved := if left == st.sessions then st.saved else left,
           apiOwners := map id | id in st.apiOwners && st.apiOwners[id] != Some(name) :: st.apiOwners[id]), true)
  }

  function Renamed(s: Session, was: string, to: string): Session {
    if Normalize(s.username) == was then s.(username := to) else s
  }

  // Some session belongs to the name.
  predicate Names(sessions: map<string, Session>, name: string) {
    exists t :: t in sessions && Normalize(sessions[t].username) == name
  }

  function RenameUser(st: State, oldName: string, newName: string, requesting: string): (State, bool) {
    var was, to, actor := Normalize(oldName), Normalize(newName), Normalize(requesting);
    if was == "" || to == "" || to in RESERVED_USERNAMES
       || was !in st.users || to in st.users || !IsAdmin(st, actor) then (st, false)
    else
      var renamed := map t | t in st.sessions :: Renamed(st.sessions[t], was, to);
      (st.(users := (st.users - {was})[to := st.users[was]], sessions := renamed,
           saved := if Names(st.sessions, was) then renamed else st.saved), true)
  }

  // What the rename route does to the API token rows before it renames the account.
  function MoveTokens(st: State, owner: string, to: string): State {
    st.(apiOwners := map id | id in st.apiOwners ::
      if st.apiOwners[id].Some? && Lower(st.apiOwners[id].value) == owner then Some(to) else st.apiOwners[id])
  }

  // ---------------------------------------------------------- sessions

  function CreateSession(st: State, username: string, password: string, token: string, now: int): (State, bool) {
    var name := Normalize(username);
    if name !in st.users || st.users[name].password != password then (st, false)
    else
      var sessions := st.sessions[token := Session(name, now + TOKEN_TTL)];
      (st.(sessions := sessions, saved := sessions, issued := st.issued[token := st.users[name].created]), true)
  }

  function Drop(st: State, token: string): State {
    st.(sessions := st.sessions - {token}, saved := st.sessions - {token})
  }

  // `validate_token`
  function Validate(st: State, token: string, now: int): (State, bool) {
    if token == "" || token !in st.sessions then (st, false)
    else if now > st.sessions[token].expiry then (Drop(st, token), false)
    else if st.sessions[token].username !in st.users then (Drop(st, token), false)
    else (st, true)
  }

  // `get_username_for_token`
  function UsernameFor(st: State, token: string, now: int): (State, Option<string>) {
    if token == "" || token !in st.sessions then (st, None)
    else
      var s := st.sessions[token];
      if now > s.expiry then (Drop(st, token), None)
      else if s.username in st.users then (st, Some(s.username))
      else (Drop(st, token), None)
  }

  function RevokeUserSessions(st: State, username: string, spared: string): State {
    var name := Normalize(username);
    var left := map t | t in st.sessions && (t == spared || st.sessions[t].username != name) :: st.sessions[t];
    st.(sessions := left, saved := if left == st.sessions then st.saved else left)
  }

  // A new process: `_load_sessions` reads the file and prunes what has expired.
  function Restart(st: State, now: int): State {
    var live := map t | t in st.saved && st.saved[t].expiry > now :: st.saved[t];
    st.(sessions := live, saved := live)
  }

  // ------------------------------------------------------ second factor

  function SetUser(st: State, name: string, u: User): State
    requires name in st.users && u.created == st.users[name].created && u.isAdmin == st.users[name].isAdmin
  {
    st.(users := st.users[name := u])
  }

  function ChangePassword(st: State, username: string, current: string, next: string): (State, bool) {
    var name := Normalize(username);
    if name !in st.users || st.users[name].password != current then (st, false)
    else (SetUser(st, name, st.users[name].(password := next)), true)
  }

  function TotpGenerate(st: State, username: string, secret: string): State {
    var name := Normalize(username);
    if name !in st.users then st else SetUser(st, name, st.users[name].(pending := Some(secret)))
  }

  // `otpOk`: what the one-time-password check says; `codes`: the fresh backup codes.
  function TotpConfirm(st: State, username: string, otpOk: bool, codes: seq<string>): (State, bool) {
    var name := Normalize(username);
    if name !in st.users || st.users[name].pending.None? || !otpOk then (st, false)
    else
      var u := st.users[name];
      (SetUser(st, name, u.(secret := u.pending, totpEnabled := true, pending := None, backup := codes))
         .(log := st.log[u.created := CodeLog(codes, [])]), true)
  }

  function RemoveFirst(s: seq<string>, x: string): seq<string> {
    if s == [] then [] else if s[0] == x then s[1..] else [s[0]] + RemoveFirst(s[1..], x)
  }

  function Accepted(log: CodeLog, code: string): CodeLog {
    log.(accepted := log.accepted + [code])
  }

  // `totp_verify`: a backup code is used up, otherwise the one-time password decides.
  function TotpVerify(st: State, username: string, code: string, otpOk: bool): (State, bool) {
    var name := Normalize(username);
    if name !in st.users || !st.users[name].totpEnabled then (st, true)
    else if st.users[name].secret.None? then (st, false)
    else
      var u := st.users[name];
      if code in u.backup then
        (SetUser(st, name, u.(backup := RemoveFirst(u.backup, code)))
           .(log := if u.created in st.log then st.log[u.created := Accepted(st.log[u.created], code)]
                    else st.log), true)
      else (st, otpOk)
  }

  function TotpDisable(st: State, username: string, password: string): (State, bool) {
    var name := Normalize(username);
    if name !in st.users || st.users[name].password != password then (st, false)
    else (SetUser(st, name, st.users[name].(secret := None, pending := None, backup := [], totpEnabled := false)), true)
  }

  // ---------------------------------------------------------- invariant

  predicate SessionsOwned(st: State) {
    forall t :: t in st.sessions ==>
      t != "" && st.sessions[t].username in st.users
      && t in st.issued && st.issued[t] == st.users[st.sessions[t].username].created
  }

  predicate GoodName(name: string) {
    Normalize(name) == name && name != "" && name !in RESERVED_USERNAMES
  }

  predicate AccountsDistinct(st: State) {
    (forall u :: u in st.users ==> GoodName(u) && st.users[u].created < st.bound)
    && (forall u, v :: u in st.users && v in st.users && st.users[u].created == st.users[v].created ==> u == v)
    && forall t :: t in st.issued ==> st.issued[t] < st.bound
  }

  ghost predicate HasAdmin(st: State) {
    st.users != map[] ==> exists a: string :: IsAdmin(st, a)
  }

  predicate CodesConserved(u: User, log: map<nat, CodeLog>) {
    u.totpEnabled ==>
      u.created in log && multiset(u.backup) + multiset(log[u.created].accepted) == multiset(log[u.created].issued)
  }

  predicate AllCodesConserved(st: State) {
    forall u :: u in st.users ==> CodesConserved(st.users[u], st.log)
  }

  ghost predicate Inv(st: State) {
    SessionsOwned(st) && AccountsDistinct(st) && HasAdmin(st) && AllCodesConserved(st) && st.saved == st.sessions
  }

  // ---------------------------------------------------------- runs

  datatype Op =
    | OpSetup(username: string, password: string, created: nat)
    | OpCreate(username: string, password: string, isAdmin: bool, created: nat)
    | OpDelete(username: string, requesting: string)
    | OpRename(oldName: string, newName: string, requesting: string)
    | OpLogin(username: string, password: string, token: string, now: int)
    | OpValidate(token: string, now: int)
    | OpUsername(token: string, now: int)
    | OpRevoke(token: string)
    | OpRevokeUser(username: string, spared: string)
    | OpRestart(now: int)
    | OpMint(id: string, owner: Option<string>)
    | OpMoveTokens(holder: string, to: string)
    | OpPassword(username: string, current: string, next: string)
    | OpTotpGenerate(username: string, secret: string)
    | OpTotpConfirm(username: string, otpOk: bool, codes: seq<string>)
    | OpTotpVerify(username: string, code: string, otpOk: bool)
    | OpTotpDisable(username: string, password: string)

  // Creation times and tokens are new, and a route creates ordinary users only
  // once the server is configured.
  predicate Admissible(st: State, op: Op) {
    match op
    case OpSetup(_, _, created) => created >= st.bound
    case OpCreate(_, _, isAdmin, created) => created >= st.bound && (isAdmin || st.users != map[])
    case OpLogin(_, _, token, _) => token != "" && token !in st.issued
    case _ => true
  }

  function Apply(st: State, op: Op): State {
    match op
    case OpSetup(u, p, c) => Setup(st, u, p, c).0
    case OpCreate(u, p, a, c) => CreateUser(st, u, p, a, c).0
    case OpDelete(u, r) => DeleteUser(st, u, r).0
    case OpRename(o, n, r) => RenameUser(st, o, n, r).0
    case OpLogin(u, p, t, now) => CreateSession(st, u, p, t, now).0
    case OpValidate(t, now) => Validate(st, t, now).0
    case OpUsername(t, now) => UsernameFor(st, t, now).0
    case OpRevoke(t) => Drop(st, t)
    case OpRevokeUser(u, e) => RevokeUserSessions(st, u, e)
    case OpRestart(now) => Restart(st, now)
    case OpMint(id, owner) => st.(apiOwners := st.apiOwners[id := owner])
    case OpMoveTokens(owner, to) => MoveTokens(st, owner, to)
    case OpPassword(u, c, n) => ChangePassword(st, u, c, n).0
    case OpTotpGenerate(u, s) => TotpGenerate(st, u, s)
    case OpTotpConfirm(u, ok, codes) => TotpConfirm(st, u, ok, codes).0
    case OpTotpVerify(u, c, ok) => TotpVerify(st, u, c, ok).0
    case OpTotpDisable(u, p) => TotpDisable(st, u, p).0
  }

  lemma {:induction false} RemoveFirstCount(s: seq<string>, x: string)
    requires x in s
    ensures multiset(RemoveFirst(s, x)) + multiset{x} == multiset(s)
  {
    assert s == [s[0]] + s[1..];
    if s[0] != x {
      RemoveFirstCount(s[1..], x);
    }
  }

  lemma AdminThere(st: State, name: string)
    requires IsAdmin(st, name)
    ensures HasAdmin(st)
  {}

  lemma SomeAdmin(st: State) returns (name: string)
    requires HasAdmin(st) && st.users != map[]
    ensures IsAdmin(st, name)
  {
    name :| IsAdmin(st, name);
  }

  lemma CreateKeeps(st: State, username: string, password: string, isAdmin: bool, created: nat)
    requires Inv(st) && created >= st.bound && (isAdmin || st.users != map[])
    ensures Inv(CreateUser(st, username, password, isAdmin, created).0)
  {
    hide HasAdmin, AccountsDistinct, GoodName, Normalize, SessionsOwned, AllCodesConserved;
    var name := Normalize(username);
    var (st', ok) := CreateUser(st, username, password, isAdmin, created);
    if ok {
      if isAdmin {
        AdminThere(st', name);
      } else {
        var a := SomeAdmin(st);
        AdminThere(st', a);
      }
      NormalizeTwice(username);
      CreateAccounts(st, name, st'.users[name], created);
      CreateOwners(st, st', name);
    }
  }

  lemma CreateAccounts(st: State, name: string, u: User, created: nat)
    requires AccountsDistinct(st) && created >= st.bound && u.created == created && name !in st.users
    requires Normalize(name) == name && name != "" && name !in RESERVED_USERNAMES
    ensures AccountsDistinct(st.(users := st.users[name := u], bound := created + 1))
  {
    assert GoodName(name);
    hide GoodName, Normalize;
  }

  lemma CreateOwners(st: State, st': State, name: string)
    requires SessionsOwned(st) && AllCodesConserved(st) && name !in st.users && name in st'.users
    requires st' == st.(users := st.users[name := st'.users[name]], bound := st'.bound) && !st'.users[name].totpEnabled
    ensures SessionsOwned(st') && AllCodesConserved(st')
  {
    hide CodesConserved;
    assert CodesConserved(st'.users[name], st'.log) by { NoCodes(st'.users[name], st'.log); }
  }

  lemma NoCodes(u: User, log: map<nat, CodeLog>)
    requires !u.totpEnabled
    ensures CodesConserved(u, log)
  {}

  lemma DeleteKeeps(st: State, username: string, requesting: string)
    requires Inv(st)
    ensures Inv(DeleteUser(st, username, requesting).0)
  {
    hide Normalize, GoodName, CodesConserved, HasAdmin;
    var (st', ok) := DeleteUser(st, username, requesting);
    if ok { AdminThere(st', requesting); }
  }

  lemma RenameKeeps(st: State, oldName: string, newName: string, requesting: string)
    requires Inv(st)
    ensures Inv(RenameUser(st, oldName, newName, requesting).0)
  {
    hide HasAdmin, AccountsDistinct, GoodName, Normalize, SessionsOwned, CodesConserved, Renamed;
    var was, to := Normalize(oldName), Normalize(newName);
    var (st', ok) := RenameUser(st, oldName, newName, requesting);
    if ok {
      var actor := Normalize(requesting);
      AdminThere(st', if actor == was then to else actor);
      RenameOwners(st, st', was, to);
      if forall t :: t in st.sessions ==> Normalize(st.sessions[t].username) != was {
        NothingRenamed(st.sessions, was, to);
      }
      NormalizeTwice(newName);
      RenameAccounts(st, st', was, to);
    }
  }

  lemma NothingRenamed(sessions: map<string, Session>, was: string, to: string)
    requires forall t :: t in sessions ==> Normalize(sessions[t].username) != was
    ensures (map t | t in sessions :: Renamed(sessions[t], was, to)) == sessions
  {}

  lemma RenameAccounts(st: State, st': State, was: string, to: string)
    requires AccountsDistinct(st) && was in st.users && to !in st.users
    requires st'.users == (st.users - {was})[to := st.users[was]] && st'.bound == st.bound && st'.issued == st.issued
    requires Normalize(to) == to && to != "" && to !in RESERVED_USERNAMES
    ensures AccountsDistinct(st')
  {
    assert GoodName(to);
    hide GoodName, Normalize;
    forall u, v | u in st'.users && v in st'.users && st'.users[u].created == st'.users[v].created
      ensures u == v
    {
      var u0, v0 := if u == to then was else u, if v == to then was else v;
      assert st.users[u0] == st'.users[u] && st.users[v0] == st'.users[v];
    }
  }

  lemma RenameOwners(st: State, st': State, was: string, to: string)
    requires SessionsOwned(st) && AccountsDistinct(st) && was in st.users && to !in st.users
    requires st'.users == (st.users - {was})[to := st.users[was]] && st'.issued == st.issued
    requires st'.sessions == map t | t in st.sessions :: Renamed(st.sessions[t], was, to)
    ensures SessionsOwned(st')
  {
    forall t | t in st'.sessions
      ensures st'.sessions[t].username in st'.users && t in st'.issued
      ensures st'.issued[t] == st'.users[st'.sessions[t].username].created
    {
      assert GoodName(st.sessions[t].username);
    }
  }

  lemma SetUserKeeps(st: State, name: string, u: User, log: map<nat, CodeLog>)
    requires Inv(st) && name in st.users && u.created == st.users[name].created && u.isAdmin == st.users[name].isAdmin
    requires CodesConserved(u, log)
    requires forall c :: c != u.created && c in st.log ==> c in log && log[c] == st.log[c]
    ensures Inv(SetUser(st, name, u).(log := log))
  {
    hide HasAdmin, AccountsDistinct, SessionsOwned, AllCodesConserved, CodesConserved;
    var st' := SetUser(st, name, u).(log := log);
    SetUserCodes(st, name, u, log);
    SetUserAccounts(st, name, u, log);
    var a := SomeAdmin(st);
    AdminThere(st', a);
  }

  lemma SetUserAccounts(st: State, name: string, u: User, log: map<nat, CodeLog>)
    requires AccountsDistinct(st) && SessionsOwned(st)
    requires name in st.users && u.created == st.users[name].created && u.isAdmin == st.users[name].isAdmin
    ensures AccountsDistinct(SetUser(st, name, u).(log := log)) && SessionsOwned(SetUser(st, name, u).(log := log))
  {
    hide GoodName;
  }

  lemma SetUserCodes(st: State, name: string, u: User, log: map<nat, CodeLog>)
    requires AccountsDistinct(st) && AllCodesConserved(st) && CodesConserved(u, log)
    requires name in st.users && u.created == st.users[name].created && u.isAdmin == st.users[name].isAdmin
    requires forall c :: c != u.created && c in st.log ==> c in log && log[c] == st.log[c]
    ensures AllCodesConserved(SetUser(st, name, u).(log := log))
  {
    hide Normalize, GoodName;
    forall v | v in st.users && v != name
      ensures CodesConserved(st.users[v], log)
    {
      assert CodesConserved(st.users[v], st.log);
    }
  }

  lemma StepKeeps(st: State, op: Op)
    requires Inv(st) && Admissible(st, op)
    ensures Inv(Apply(st, op))
  {
    hide Normalize, CreateUser, DeleteUser, RenameUser, TotpConfirm, TotpVerify, TotpDisable,
      HasAdmin, AccountsDistinct, SessionsOwned, AllCodesConserved;
    match op
    case OpSetup(u, p, c) => if st.users == map[] { CreateKeeps(st, u, p, true, c); }
    case OpCreate(u, p, a, c) => CreateKeeps(st, u, p, a, c);
    case OpDelete(u, r) => DeleteKeeps(st, u, r);
    case OpRename(o, n, r) => RenameKeeps(st, o, n, r);
    case OpPassword(u, c, n) =>
      var name := Normalize(u);
      if name in st.users {
        SameCodes(st, name);
        SetUserKeeps(st, name, st.users[name].(password := n), st.log);
      }
    case OpTotpGenerate(u, s) =>
      var name := Normalize(u);
      if name in st.users {
        SameCodes(st, name);
        SetUserKeeps(st, name, st.users[name].(pending := Some(s)), st.log);
      }
    case OpTotpConfirm(u, ok, codes) => ConfirmKeeps(st, u, ok, codes);
    case OpTotpVerify(u, c, ok) => VerifyKeeps(st, u, c, ok);
    case OpTotpDisable(u, p) => DisableKeeps(st, u, p);
    case _ => SessionOpsKeep(st, op);
  }

  lemma SameCodes(st: State, name: string)
    requires AllCodesConserved(st) && name in st.users
    ensures CodesConserved(st.users[name], st.log)
  {}

  lemma ConfirmKeeps(st: State, username: string, otpOk: bool, codes: seq<string>)
    requires Inv(st)
    ensures Inv(TotpConfirm(st, username, otpOk, codes).0)
  {
    hide Normalize;
    var name := Normalize(username);
    if name in st.users && st.users[name].pending.Some? && otpOk {
      var u := st.users[name];
      SetUserKeeps(st, name, u.(secret := u.pending, totpEnabled := true, pending := None, backup := codes),
                   st.log[u.created := CodeLog(codes, [])]);
    }
  }

  lemma VerifyKeeps(st: State, username: string, code: string, otpOk: bool)
    requires Inv(st)
    ensures Inv(TotpVerify(st, username, code, otpOk).0)
  {
    hide Normalize;
    var name := Normalize(username);
    if name in st.users && st.users[name].totpEnabled && st.users[name].secret.Some? && code in st.users[name].backup {
      var u := st.users[name];
      RemoveFirstCount(u.backup, code);
      assert CodesConserved(u, st.log);
      SetUserKeeps(st, name, u.(backup := RemoveFirst(u.backup, code)),
                   st.log[u.created := Accepted(st.log[u.created], code)]);
    }
  }

  lemma DisableKeeps(st: State, username: string, password: string)
    requires Inv(st)
    ensures Inv(TotpDisable(st, username, password).0)
  {
    hide Normalize;
    var name := Normalize(username);
    if name in st.users {
      SetUserKeeps(st, name, st.users[name].(secret := None, pending := None, backup := [], totpEnabled := false),
                   st.log);
    }
  }

  // Accounts as they were: only the sessions need a look.
  lemma SessionsChanged(st: State, st': State)
    requires Inv(st) && st'.users == st.users && st'.bound == st.bound && st'.log == st.log
    requires SessionsOwned(st') && st'.saved == st'.sessions
    requires forall t :: t in st'.issued ==> st'.issued[t] < st'.bound
    ensures Inv(st')
  {
    hide Normalize, GoodName, SessionsOwned, CodesConserved;
    assert HasAdmin(st') by {
      if st.users != map[] {
        var a :| IsAdmin(st, a);
        assert IsAdmin(st', a);
      }
    }
  }

  lemma SessionsDropped(st: State, st': State)
    requires Inv(st) && st' == st.(sessions := st'.sessions, saved := st'.sessions)
    requires forall t :: t in st'.sessions ==> t in st.sessions && st'.sessions[t] == st.sessions[t]
    ensures Inv(st')
  {
    SessionsChanged(st, st');
  }

  lemma LoginKeeps(st: State, username: string, password: string, token: string, now: int)
    requires Inv(st) && token != "" && token !in st.issued
    ensures Inv(CreateSession(st, username, password, token, now).0)
  {
    hide Normalize, GoodName, HasAdmin, CodesConserved;
    var name := Normalize(username);
    var (st', ok) := CreateSession(st, username, password, token, now);
    if ok {
      assert forall t :: t in st.sessions ==> t != token;
      SessionsChanged(st, st');
    }
  }

  lemma TokensKeep(st: State, apiOwners: map<string, Option<string>>)
    requires Inv(st)
    ensures Inv(st.(apiOwners := apiOwners))
  {
    hide Normalize, GoodName, HasAdmin, CodesConserved;
    SessionsChanged(st, st.(apiOwners := apiOwners));
  }

  lemma SessionOpsKeep(st: State, op: Op)
    requires Inv(st) && Admissible(st, op)
    requires op.OpLogin? || op.OpValidate? || op.OpUsername? || op.OpRevoke? || op.OpRevokeUser? || op.OpRestart?
      || op.OpMint? || op.OpMoveTokens?
    ensures Inv(Apply(st, op))
  {
    hide Normalize, SessionsOwned, AccountsDistinct, HasAdmin, AllCodesConserved;
    match op
    case OpLogin(u, p, t, now) => LoginKeeps(st, u, p, t, now);
    case OpValidate(t, now) => SessionsDropped(st, Drop(st, t));
    case OpUsername(t, now) => SessionsDropped(st, Drop(st, t));
    case OpRevoke(t) => SessionsDropped(st, Drop(st, t));
    case OpRevokeUser(u, e) => SessionsDropped(st, RevokeUserSessions(st, u, e));
    case OpRestart(now) => SessionsDropped(st, Restart(st, now));
    case OpMint(id, owner) => TokensKeep(st, st.apiOwners[id := owner]);
    case OpMoveTokens(owner, to) => TokensKeep(st, MoveTokens(st, owner, to).apiOwners);
  }

  ghost predicate AdmissibleRun(st: State, ops: seq<Op>)
    decreases |ops|
  {
    ops == [] || (Admissible(st, ops[0]) && AdmissibleRun(Apply(st, ops[0]), ops[1..]))
  }

  function Run(st: State, ops: seq<Op>): State
    decreases |ops|
  {
    if ops == [] then st else Run(Apply(st, ops[0]), ops[1..])
  }

  // Every state reached from a consistent one is consistent; from an
  // unconfigured server in particular.
  lemma {:induction false} RunKeeps(st: State, ops: seq<Op>)
    requires Inv(st) && AdmissibleRun(st, ops)
    ensures Inv(Run(st, ops))
    decreases |ops|
  {
    if ops != [] {
      StepKeeps(st, ops[0]);
      RunKeeps(Apply(st, ops[0]), ops[1..]);
    }
  }

  lemma ReachableConsistent(ops: seq<Op>)
    requires AdmissibleRun(Unconfigured, ops)
    ensures var st := Run(Unconfigured, ops);
            (forall t :: t in st.sessions ==> st.sessions[t].username in st.users)
            && (forall u :: u in st.users ==> Normalize(u) == u && u !in RESERVED_USERNAMES)
            && (st.users == map[] || exists a: string :: IsAdmin(st, a))
  {
    RunKeeps(Unconfigured, ops);
  }

  // -------------------------------------------------- what a token is worth

  // In every reachable state a token that names a user names the account it was
  // issued to, under whatever name that account now goes.
  lemma TokenNamesItsAccount(ops: seq<Op>, token: string, now: int)
    requires AdmissibleRun(Unconfigured, ops) && UsernameFor(Run(Unconfigured, ops), token, now).1.Some?
    ensures var st := Run(Unconfigured, ops); var name := UsernameFor(st, token, now).1.value;
            name in st.users && token in st.issued && st.users[name].created == st.issued[token]
  {
    UnconfiguredFine();
    RunKeeps(Unconfigured, ops);
  }

  lemma UnconfiguredFine()
    ensures Inv(Unconfigured)
  {}

  predicate AccountGone(st: State, account: nat) {
    account < st.bound && forall u :: u in st.users ==> st.users[u].created != account
  }

  lemma GoneStep(st: State, op: Op, account: nat)
    requires Inv(st) && Admissible(st, op) && AccountGone(st, account)
    ensures AccountGone(Apply(st, op), account)
  {
    hide Normalize, GoodName, Inv;
  }

  lemma {:induction false} GoneForever(st: State, ops: seq<Op>, account: nat)
    requires Inv(st) && AdmissibleRun(st, ops) && AccountGone(st, account)
    ensures AccountGone(Run(st, ops), account)
    decreases |ops|
  {
    if ops != [] {
      GoneStep(st, ops[0], account);
      StepKeeps(st, ops[0]);
      GoneForever(Apply(st, ops[0]), ops[1..], account);
    }
  }

  lemma IssuedStep(st: State, op: Op, token: string)
    requires Admissible(st, op) && token in st.issued
    ensures token in Apply(st, op).issued && Apply(st, op).issued[token] == st.issued[token]
  {
    hide Normalize;
  }

  lemma {:induction false} IssuedForever(st: State, ops: seq<Op>, token: string)
    requires AdmissibleRun(st, ops) && token in st.issued
    ensures token in Run(st, ops).issued && Run(st, ops).issued[token] == st.issued[token]
    decreases |ops|
  {
    if ops != [] {
      IssuedStep(st, ops[0], token);
      IssuedForever(Apply(st, ops[0]), ops[1..], token);
    }
  }

  // A token of a deleted account never validates again, whatever happens later,
  // a new account of the same name included.
  lemma DeletedTokenDead(st: State, username: string, requesting: string, token: string, ops: seq<Op>, now: int)
    requires Inv(st) && DeleteUser(st, username, requesting).1
    requires token in st.issued && st.issued[token] == st.users[Normalize(username)].created
    requires AdmissibleRun(DeleteUser(st, username, requesting).0, ops)
    ensures !Validate(Run(DeleteUser(st, username, requesting).0, ops), token, now).1
  {
    hide Normalize, GoodName;
    var st', account := DeleteUser(st, username, requesting).0, st.issued[token];
    DeleteKeeps(st, username, requesting);
    assert AccountGone(st', account);
    GoneForever(st', ops, account);
    IssuedForever(st', ops, token);
    RunKeeps(st', ops);
  }

  // The operations that give the name API tokens.
  predicate Endows(op: Op, name: string) {
    (op.OpMint? && op.owner == Some(name)) || (op.OpMoveTokens? && op.to == name)
  }

  lemma OwnerGoneStep(st: State, op: Op, name: string)
    requires Admissible(st, op) && Some(name) !in st.apiOwners.Values && !Endows(op, name)
    ensures Some(name) !in Apply(st, op).apiOwners.Values
  {
    hide Normalize;
  }

  lemma {:induction false} OwnerGone(st: State, ops: seq<Op>, name: string)
    requires AdmissibleRun(st, ops) && Some(name) !in st.apiOwners.Values
    requires forall op :: op in ops ==> !Endows(op, name)
    ensures Some(name) !in Run(st, ops).apiOwners.Values
    decreases |ops|
  {
    hide Apply, Admissible;
    if ops != [] {
      OwnerGoneStep(st, ops[0], name);
      OwnerGone(Apply(st, ops[0]), ops[1..], name);
    }
  }

  // Nor is any API token left that the deleted account owned, until one is
  // minted for that name again or a rename brings its tokens to it.
  lemma DeletedOwnerTokenless(st: State, username: string, requesting: string, ops: seq<Op>)
    requires DeleteUser(st, username, requesting).1 && AdmissibleRun(DeleteUser(st, username, requesting).0, ops)
    requires forall op :: op in ops ==> !Endows(op, Normalize(username))
    ensures Some(Normalize(username)) !in Run(DeleteUser(st, username, requesting).0, ops).apiOwners.Values
  {
    OwnerGone(DeleteUser(st, username, requesting).0, ops, Normalize(username));
  }

  // Deleting an account leaves all other API tokens as they were.
  lemma OtherTokensStay(st: State, username: string, requesting: string, id: string)
    requires id in st.apiOwners && st.apiOwners[id] != Some(Normalize(username))
    ensures var st' := DeleteUser(st, username, requesting).0;
      id in st'.apiOwners && st'.apiOwners[id] == st.apiOwners[id]
  {
    hide Normalize;
  }

  // The route moves the tokens of the old name, however it was spelt, to the new
  // one, and no others.
  lemma TokensFollow(st: State, holder: string, to: string, id: string)
    ensures id in MoveTokens(st, holder, to).apiOwners <==> id in st.apiOwners
    ensures id in st.apiOwners ==>
      MoveTokens(st, holder, to).apiOwners[id]
      == match st.apiOwners[id]
         case Some(owner) => if Lower(owner) == holder then Some(to) else Some(owner)
         case None => None
  {}

  // A rename takes every session of the account along and touches no other; no
  // token gains or loses by it.
  lemma RenameMovesSessions(st: State, oldName: string, newName: string, requesting: string, token: string, now: int)
    requires Inv(st) && RenameUser(st, oldName, newName, requesting).1
    ensures var st' := RenameUser(st, oldName, newName, requesting).0;
      var (was, to) := (Normalize(oldName), Normalize(newName));
      st'.sessions.Keys == st.sessions.Keys
      && UsernameFor(st', token, now).1
         == (match UsernameFor(st, token, now).1
             case None => None
             case Some(u) => Some(if u == was then to else u))
  {
    hide Normalize;
    var was, to := Normalize(oldName), Normalize(newName);
    if token in st.sessions {
      var u := st.sessions[token].username;
      assert GoodName(u);
      assert Renamed(st.sessions[token], was, to).username == if u == was then to else u;
    }
  }

  // The two token checks agree, and leave the same sessions behind.
  lemma ChecksAgree(st: State, token: string, now: int)
    ensures Validate(st, token, now).1 <==> UsernameFor(st, token, now).1.Some?
    ensures Validate(st, token, now).0 == UsernameFor(st, token, now).0
  {}

  // A restart costs no session, unless one is in its very last instant: loading
  // drops a session whose expiry is now, which the check still accepts.
  lemma RestartTransparentIff(st: State, now: int)
    requires Inv(st)
    ensures (forall token, later: int :: later >= now ==>
               Validate(Restart(st, now), token, later).1 == Validate(st, token, later).1)
       <==> forall token :: token in st.sessions ==> st.sessions[token].expiry != now
  {
    if token :| token in st.sessions && st.sessions[token].expiry == now {
      assert Validate(st, token, now).1 && !Validate(Restart(st, now), token, now).1;
    } else {
      forall token, later: int | later >= now
        ensures Validate(Restart(st, now), token, later).1 == Validate(st, token, later).1
      {}
    }
  }

  // ----------------------------------------------------- the book of accounts

  // What the credentials of an account come to, without sessions, files or the
  // order of its backup codes.
  datatype Account = Account(
    password: string, isAdmin: bool, on: bool, secret: Option<string>, pending: Option<string>, codes: multiset<string>)
  type Book = map<string, Account>

  function AccountOf(u: User): Account {
    Account(u.password, u.isAdmin, u.totpEnabled, u.secret, u.pending, multiset(u.backup))
  }

  function BookOf(st: State): Book {
    map name | name in st.users :: AccountOf(st.users[name])
  }

  // A name that a new account may take.
  predicate Free(book: Book, name: string) {
    name != "" && name !in RESERVED_USERNAMES && name !in book
  }

  predicate Manages(book: Book, name: string) {
    name in book && book[name].isAdmin
  }

  predicate Knows(book: Book, name: string, password: string) {
    name in book && book[name].password == password
  }

  // The second factor: nothing to ask of an account without it, and otherwise a
  // secret and a code that is left, or the one-time password.
  predicate Passes(book: Book, name: string, code: string, otpOk: bool) {
    name in book && book[name].on ==> book[name].secret.Some? && (code in book[name].codes || otpOk)
  }

  // Whether an operation is granted, by the book.
  predicate Granted(book: Book, op: Op) {
    match op
    case OpSetup(u, _, _) => book == map[] && Free(book, Normalize(u))
    case OpCreate(u, _, _, _) => Free(book, Normalize(u))
    case OpDelete(u, r) => Normalize(u) in book && Normalize(u) != r && Manages(book, r)
    case OpRename(o, n, r) =>
      Normalize(o) != "" && Normalize(o) in book && Free(book, Normalize(n)) && Manages(book, Normalize(r))
    case OpLogin(u, p, _, _) => Knows(book, Normalize(u), p)
    case OpPassword(u, current, _) => Knows(book, Normalize(u), current)
    case OpTotpConfirm(u, otpOk, _) => Normalize(u) in book && book[Normalize(u)].pending.Some? && otpOk
    case OpTotpVerify(u, code, otpOk) => Passes(book, Normalize(u), code, otpOk)
    case OpTotpDisable(u, p) => Knows(book, Normalize(u), p)
    case _ => true
  }

  // What a granted operation writes into the book.
  function Entered(book: Book, op: Op): Book
    requires Granted(book, op)
  {
    match op
    case OpSetup(u, p, _) => book[Normalize(u) := Account(p, true, false, None, None, multiset{})]
    case OpCreate(u, p, isAdmin, _) => book[Normalize(u) := Account(p, isAdmin, false, None, None, multiset{})]
    case OpDelete(u, _) => book - {Normalize(u)}
    case OpRename(o, n, _) => (book - {Normalize(o)})[Normalize(n) := book[Normalize(o)]]
    case OpPassword(u, _, next) => book[Normalize(u) := book[Normalize(u)].(password := next)]
    case OpTotpGenerate(u, secret) =>
      if Normalize(u) in book then book[Normalize(u) := book[Normalize(u)].(pending := Some(secret))] else book
    case OpTotpConfirm(u, _, codes) =>
      var a := book[Normalize(u)];
      book[Normalize(u) := a.(on := true, secret := a.pending, pending := None, codes := multiset(codes))]
    case OpTotpVerify(u, code, _) =>
      if Normalize(u) in book && book[Normalize(u)].on && code in book[Normalize(u)].codes then
        book[Normalize(u) := book[Normalize(u)].(codes := book[Normalize(u)].codes - multiset{code})]
      else book
    case OpTotpDisable(u, _) =>
      book[Normalize(u) := book[Normalize(u)].(on := false, secret := None, pending := None, codes := multiset{})]
    case _ => book
  }

  function Kept(book: Book, op: Op): Book {
    if Granted(book, op) then Entered(book, op) else book
  }

  function BookRun(book: Book, ops: seq<Op>): Book
    decreases |ops|
  {
    if ops == [] then book else BookRun(Kept(book, ops[0]), ops[1..])
  }

  // What the server answers.
  function Answer(st: State, op: Op): bool {
    match op
    case OpSetup(u, p, c) => Setup(st, u, p, c).1
    case OpCreate(u, p, a, c) => CreateUser(st, u, p, a, c).1
    case OpDelete(u, r) => DeleteUser(st, u, r).1
    case OpRename(o, n, r) => RenameUser(st, o, n, r).1
    case OpLogin(u, p, t, now) => CreateSession(st, u, p, t, now).1
    case OpPassword(u, c, n) => ChangePassword(st, u, c, n).1
    case OpTotpConfirm(u, ok, codes) => TotpConfirm(st, u, ok, codes).1
    case OpTotpVerify(u, c, ok) => TotpVerify(st, u, c, ok).1
    case OpTotpDisable(u, p) => TotpDisable(st, u, p).1
    case _ => true
  }

  // Whatever a step does to sessions, files and tokens, the book only sees the
  // accounts.
  lemma BookOfKeys(st: State)
    ensures BookOf(st).Keys == st.users.Keys && (BookOf(st) == map[] <==> st.users == map[])
  {}

  lemma EnteredOne(st: State, st': State, name: string, u: User)
    requires st'.users == st.users[name := u]
    ensures BookOf(st') == BookOf(st)[name := AccountOf(u)]
  {}

  lemma AccountsByTheBook(st: State, op: Op)
    requires op.OpSetup? || op.OpCreate? || op.OpDelete? || op.OpRename? || op.OpPassword?
    ensures Answer(st, op) == Granted(BookOf(st), op) && BookOf(Apply(st, op)) == Kept(BookOf(st), op)
  {
    hide Normalize, AccountOf, DeleteUser, RenameUser, ChangePassword, CreateUser;
    BookOfKeys(st);
    match op
    case OpSetup(u, p, c) => NewByTheBook(st, u, p, true, c);
    case OpCreate(u, p, a, c) => NewByTheBook(st, u, p, a, c);
    case OpPassword(u, c, n) => PasswordByTheBook(st, u, c, n);
    case OpDelete(u, r) => DeletedByTheBook(st, u, r);
    case OpRename(o, n, r) => RenamedByTheBook(st, o, n, r);
  }

  lemma DeletedByTheBook(st: State, u: string, r: string)
    ensures var (st', ok) := DeleteUser(st, u, r); var book := BookOf(st);
      ok == (Normalize(u) in book && Normalize(u) != r && Manages(book, r))
      && BookOf(st') == if ok then book - {Normalize(u)} else book
  {
    hide Normalize;
    var (st', ok) := DeleteUser(st, u, r);
    assert r in st.users ==> BookOf(st)[r] == AccountOf(st.users[r]);
    hide AccountOf;
    if ok { assert st'.users == st.users - {Normalize(u)}; }
  }

  lemma RenamedByTheBook(st: State, o: string, n: string, r: string)
    ensures var (st', ok) := RenameUser(st, o, n, r); var book := BookOf(st);
      ok == (Normalize(o) != "" && Normalize(o) in book && Free(book, Normalize(n)) && Manages(book, Normalize(r)))
      && BookOf(st') == if ok then (book - {Normalize(o)})[Normalize(n) := book[Normalize(o)]] else book
  {
    hide Normalize, Renamed, Names;
    var (st', ok) := RenameUser(st, o, n, r);
    var actor, was, to := Normalize(r), Normalize(o), Normalize(n);
    assert actor in st.users ==> BookOf(st)[actor] == AccountOf(st.users[actor]);
    hide AccountOf;
    if ok { assert st'.users == (st.users - {was})[to := st.users[was]]; }
  }

  lemma NewByTheBook(st: State, u: string, p: string, isAdmin: bool, created: nat)
    ensures var (st', ok) := CreateUser(st, u, p, isAdmin, created);
      ok == Free(BookOf(st), Normalize(u))
      && BookOf(st') == if ok then BookOf(st)[Normalize(u) := Account(p, isAdmin, false, None, None, multiset{})]
                        else BookOf(st)
  {
    hide Normalize;
    var (st', ok) := CreateUser(st, u, p, isAdmin, created);
    if ok { EnteredOne(st, st', Normalize(u), st'.users[Normalize(u)]); }
  }

  lemma PasswordByTheBook(st: State, u: string, current: string, next: string)
    ensures var (st', ok) := ChangePassword(st, u, current, next); var book := BookOf(st);
      ok == Knows(book, Normalize(u), current)
      && BookOf(st') == if ok then book[Normalize(u) := book[Normalize(u)].(password := next)] else book
  {
    hide Normalize;
    var (st', ok) := ChangePassword(st, u, current, next);
    if ok { EnteredOne(st, st', Normalize(u), st'.users[Normalize(u)]); }
  }

  lemma FactorsByTheBook(st: State, op: Op)
    requires op.OpTotpGenerate? || op.OpTotpConfirm? || op.OpTotpVerify? || op.OpTotpDisable?
    ensures Answer(st, op) == Granted(BookOf(st), op) && BookOf(Apply(st, op)) == Kept(BookOf(st), op)
  {
    hide Normalize, BookOf, TotpGenerate, TotpConfirm, TotpVerify, TotpDisable;
    match op
    case OpTotpGenerate(u, secret) => GeneratedByTheBook(st, u, secret);
    case OpTotpConfirm(u, otpOk, codes) => ConfirmedByTheBook(st, u, otpOk, codes);
    case OpTotpVerify(u, code, otpOk) => VerifiedByTheBook(st, u, code, otpOk);
    case OpTotpDisable(u, p) => DisabledByTheBook(st, u, p);
  }

  lemma GeneratedByTheBook(st: State, u: string, secret: string)
    ensures var book, name := BookOf(st), Normalize(u);
      BookOf(TotpGenerate(st, u, secret))
      == if name in book then book[name := book[name].(pending := Some(secret))] else book
  {
    hide Normalize;
    var st' := TotpGenerate(st, u, secret);
    if Normalize(u) in st.users { EnteredOne(st, st', Normalize(u), st'.users[Normalize(u)]); }
  }

  lemma ConfirmedByTheBook(st: State, u: string, otpOk: bool, codes: seq<string>)
    ensures var (st', ok) := TotpConfirm(st, u, otpOk, codes); var book, name := BookOf(st), Normalize(u);
      ok == (name in book && book[name].pending.Some? && otpOk)
      && BookOf(st') == if ok then book[name := book[name].(on := true, secret := book[name].pending, pending := None,
                                                            codes := multiset(codes))]
                        else book
  {
    hide Normalize;
    var (st', ok) := TotpConfirm(st, u, otpOk, codes);
    if ok { EnteredOne(st, st', Normalize(u), st'.users[Normalize(u)]); }
  }

  lemma VerifiedByTheBook(st: State, u: string, code: string, otpOk: bool)
    ensures var (st', ok) := TotpVerify(st, u, code, otpOk); var book, name := BookOf(st), Normalize(u);
      ok == Passes(book, name, code, otpOk)
      && BookOf(st') == if ok && name in book && book[name].on && code in book[name].codes
                        then book[name := book[name].(codes := book[name].codes - multiset{code})] else book
  {
    hide Normalize;
    var name := Normalize(u);
    var (st', ok) := TotpVerify(st, u, code, otpOk);
    if name in st.users && ok && st.users[name].totpEnabled && code in st.users[name].backup {
      RemovedFirst(st.users[name].backup, code);
      EnteredOne(st, st', name, st.users[name].(backup := RemoveFirst(st.users[name].backup, code)));
    }
  }

  lemma RemovedFirst(s: seq<string>, x: string)
    requires x in s
    ensures multiset(RemoveFirst(s, x)) == multiset(s) - multiset{x}
  {
    RemoveFirstCount(s, x);
  }

  lemma DisabledByTheBook(st: State, u: string, p: string)
    ensures var (st', ok) := TotpDisable(st, u, p); var book, name := BookOf(st), Normalize(u);
      ok == Knows(book, name, p)
      && BookOf(st') == if ok then book[name := book[name].(on := false, secret := None, pending := None,
                                                            codes := multiset{})]
                        else book
  {
    hide Normalize;
    var (st', ok) := TotpDisable(st, u, p);
    if ok { EnteredOne(st, st', Normalize(u), st'.users[Normalize(u)]); }
  }

  lemma StepByTheBook(st: State, op: Op)
    ensures Answer(st, op) == Granted(BookOf(st), op)
    ensures BookOf(Apply(st, op)) == Kept(BookOf(st), op)
  {
    if op.OpSetup? || op.OpCreate? || op.OpDelete? || op.OpRename? || op.OpPassword? {
      AccountsByTheBook(st, op);
    } else if op.OpTotpGenerate? || op.OpTotpConfirm? || op.OpTotpVerify? || op.OpTotpDisable? {
      FactorsByTheBook(st, op);
    } else {
      hide Normalize;
      assert Apply(st, op).users == st.users;
    }
  }

  // Over every run, whatever else happens in it, every answer is the one the book
  // gives: a login succeeds exactly with the password last set for the account of
  // that name, a second factor exactly with a code issued and not yet used up or
  // a one-time password, a setup exactly on an empty server.
  lemma {:induction false} AnswersByTheBook(st: State, ops: seq<Op>, op: Op)
    ensures Answer(Run(st, ops), op) == Granted(BookRun(BookOf(st), ops), op)
    decreases |ops|
  {
    if ops == [] {
      StepByTheBook(st, op);
    } else {
      StepByTheBook(st, ops[0]);
      hide Apply, Kept, Answer, Granted;
      AnswersByTheBook(Apply(st, ops[0]), ops[1..], op);
    }
  }

  // A refused operation changes nothing.
  lemma RefusedChangesNothing(st: State, op: Op)
    ensures !Answer(st, op) ==> Apply(st, op) == st
  {
    hide Normalize;
  }

  // A login's token names the account until a week has passed and not a moment
  // longer; no other token gains or loses by it, and no account changes.
  lemma LoginRight(st: State, username: string, password: string, token: string, now: int, other: string, later: int)
    requires token != "" && CreateSession(st, username, password, token, now).1
    ensures var st' := CreateSession(st, username, password, token, now).0;
      && UsernameFor(st', token, later).1 == (if later <= now + 604800 then Some(Normalize(username)) else None)
      && (other != token ==> UsernameFor(st', other, later).1 == UsernameFor(st, other, later).1)
      && st'.users == st.users && st'.apiOwners == st.apiOwners && st'.saved == st'.sessions
  {
    hide Normalize;
  }

  // Revoking the sessions of a user takes exactly those from him, save the one to
  // be spared.
  lemma RevokedRight(st: State, username: string, spared: string, token: string, now: int)
    ensures UsernameFor(RevokeUserSessions(st, username, spared), token, now).1
         == if token != spared && UsernameFor(st, token, now).1 == Some(Normalize(username)) then None
            else UsernameFor(st, token, now).1
  {
    hide Normalize;
  }

  // ------------------------------------------------------ how long a token lasts

  // The operations that end a session: revoking it, revoking its user's sessions
  // without sparing it, deleting its account, and a check or a restart when it
  // has run out.
  predicate Ends(st: State, op: Op, token: string) {
    token in st.sessions
    && var s := st.sessions[token];
       match op
       case OpRevoke(t) => t == token
       case OpRevokeUser(u, spared) => token != spared && Normalize(u) == s.username
       case OpDelete(u, r) => Granted(BookOf(st), op) && Normalize(u) == s.username
       case OpValidate(t, now) => t == token && now > s.expiry
       case OpUsername(t, now) => t == token && now > s.expiry
       case OpRestart(now) => now >= s.expiry
       case _ => false
  }

  predicate Lasts(st: State, ops: seq<Op>, token: string)
    decreases |ops|
  {
    ops == [] || (!Ends(st, ops[0], token) && Lasts(Apply(st, ops[0]), ops[1..], token))
  }

  lemma EndsIff(st: State, op: Op, token: string)
    requires SessionsOwned(st) && st.saved == st.sessions && Admissible(st, op) && token in st.sessions
    ensures token in Apply(st, op).sessions <==> !Ends(st, op, token)
    ensures token in Apply(st, op).sessions ==> Apply(st, op).sessions[token].expiry == st.sessions[token].expiry
  {
    hide Normalize, BookOf, Granted, RenameUser, DeleteUser;
    if op.OpDelete? {
      StepByTheBook(st, op);
      DeletedTokens(st, op.username, op.requesting, token);
    } else if op.OpRename? {
      RenamedTokens(st, op.oldName, op.newName, op.requesting, token);
    } else if op.OpLogin? || op.OpValidate? || op.OpUsername? || op.OpRevoke? || op.OpRevokeUser? || op.OpRestart? {
      SessionOpEnds(st, op, token);
    } else {
      assert Apply(st, op).sessions == st.sessions;
    }
  }

  lemma SessionOpEnds(st: State, op: Op, token: string)
    requires op.OpLogin? || op.OpValidate? || op.OpUsername? || op.OpRevoke? || op.OpRevokeUser? || op.OpRestart?
    requires SessionsOwned(st) && st.saved == st.sessions && Admissible(st, op) && token in st.sessions
    ensures token in Apply(st, op).sessions <==> !Ends(st, op, token)
    ensures token in Apply(st, op).sessions ==> Apply(st, op).sessions[token].expiry == st.sessions[token].expiry
  {
    hide Normalize;
  }

  lemma DeletedTokens(st: State, u: string, r: string, token: string)
    requires token in st.sessions
    ensures var (st', ok) := DeleteUser(st, u, r);
      (token in st'.sessions <==> !(ok && Normalize(u) == st.sessions[token].username))
      && (token in st'.sessions ==> st'.sessions[token] == st.sessions[token])
  {
    hide Normalize;
  }

  lemma RenamedTokens(st: State, o: string, n: string, r: string, token: string)
    requires token in st.sessions
    ensures var st' := RenameUser(st, o, n, r).0;
      token in st'.sessions && st'.sessions[token].expiry == st.sessions[token].expiry
  {
    hide Normalize;
  }

  lemma {:induction false} GoneStaysGone(st: State, ops: seq<Op>, token: string)
    requires Inv(st) && AdmissibleRun(st, ops) && token in st.issued && token !in st.sessions
    ensures token !in Run(st, ops).sessions
    decreases |ops|
  {
    if ops != [] {
      StepKeeps(st, ops[0]);
      GoneTokenStep(st, ops[0], token);
      IssuedStep(st, ops[0], token);
      hide Apply, Admissible, Inv;
      GoneStaysGone(Apply(st, ops[0]), ops[1..], token);
    }
  }

  lemma GoneTokenStep(st: State, op: Op, token: string)
    requires st.saved == st.sessions && Admissible(st, op) && token in st.issued && token !in st.sessions
    ensures token !in Apply(st, op).sessions
  {
    hide Normalize;
  }

  // Over every run a token is good exactly as long as nothing has ended its
  // session and its week has not passed.
  lemma {:induction false} TokenLastsIff(st: State, ops: seq<Op>, token: string, later: int)
    requires Inv(st) && AdmissibleRun(st, ops) && token in st.sessions
    ensures Validate(Run(st, ops), token, later).1 <==> Lasts(st, ops, token) && later <= st.sessions[token].expiry
    decreases |ops|
  {
    if ops != [] {
      var st' := Apply(st, ops[0]);
      StepKeeps(st, ops[0]);
      EndsIff(st, ops[0], token);
      IssuedStep(st, ops[0], token);
      hide Apply, Admissible, Ends;
      if token in st'.sessions {
        TokenLastsIff(st', ops[1..], token, later);
      } else {
        GoneStaysGone(st', ops[1..], token);
      }
    }
  }

  // ---------------------------------------------------------- admins, codes

  // Creating a user leaves an administrator exactly if one is there already, it
  // is made one, or nothing happens.
  lemma AdminAfterCreateIff(st: State, username: string, password: string, isAdmin: bool, created: nat)
    requires HasAdmin(st)
    ensures HasAdmin(CreateUser(st, username, password, isAdmin, created).0)
       <==> isAdmin || st.users != map[] || Normalize(username) == "" || Normalize(username) in RESERVED_USERNAMES
  {
    hide Normalize;
    var name := Normalize(username);
    var (st', ok) := CreateUser(st, username, password, isAdmin, created);
    if ok {
      if isAdmin {
        assert IsAdmin(st', name);
      } else if st.users != map[] {
        var a :| IsAdmin(st, a);
        assert IsAdmin(st', a);
      } else {
        assert name in st'.users;
      }
    }
  }

  // Backup codes are neither lost nor spent twice: in every reachable state the
  // codes left and those accepted since they were issued are the codes issued.
  lemma BackupCodesSpentOnce(ops: seq<Op>, name: string, code: string)
    requires AdmissibleRun(Unconfigured, ops)
    requires name in Run(Unconfigured, ops).users && Run(Unconfigured, ops).users[name].totpEnabled
    ensures var st := Run(Unconfigured, ops); var u := st.users[name];
            u.created in st.log
            && multiset(u.backup)[code] + multiset(st.log[u.created].accepted)[code]
               == multiset(st.log[u.created].issued)[code]
  {
    UnconfiguredFine();
    RunKeeps(Unconfigured, ops);
    var st := Run(Unconfigured, ops);
    var u := st.users[name];
    assert CodesConserved(u, st.log);
    var log := st.log[u.created];
    assert (multiset(u.backup) + multiset(log.accepted))[code] == multiset(log.issued)[code];
  }

  // ------------------------------------------------------------ the manager

  // `AuthManager`: the same operations on its dictionaries, in place.
  class AuthManager {
    var users: map<string, User>
    var sessions: map<string, Session>
    var saved: map<string, Session>
    var apiOwners: map<string, Option<string>>
    ghost var issued: map<string, nat>
    ghost var bound: nat
    ghost var log: map<nat, CodeLog>

    ghost function View(): State
      reads this
    {
      State(users, sessions, saved, apiOwners, issued, bound, log)
    }

    constructor ()
      ensures View() == Unconfigured && Inv(View())
    {
      users, sessions, saved, apiOwners := map[], map[], map[], map[];
      issued, bound, log := map[], 0, map[];
    }

    // `_load_sessions` in a new process.
    method LoadSessions(now: int)
      modifies this`sessions, this`saved
      ensures View() == Restart(old(View()), now)
    {
      var data := saved;
      var live := Unexpired(data, now);
      SubmapSize(data, live);
      sessions := live;
      if |data| - |live| > 0 { saved := live; }
    }

    // `{k: v for k, v in data.items() if v["expiry"] > now}`
    method Unexpired(data: map<string, Session>, now: int) returns (live: map<string, Session>)
      ensures live == map t | t in data && data[t].expiry > now :: data[t]
    {
      var todo := data.Keys;
      live := map[];
      while todo != {}
        invariant todo <= data.Keys
        invariant live == map t | t in data && t !in todo && data[t].expiry > now :: data[t]
        decreases |todo|
      {
        var t :| t in todo;
        todo := todo - {t};
        if data[t].expiry > now { live := live[t := data[t]]; }
      }
    }

    method AddUser(username: string, password: string, isAdmin: bool, created: nat) returns (ok: bool)
      modifies this
      ensures (View(), ok) == CreateUser(old(View()), username, password, isAdmin, created)
    {
      var name := Normalize(username);
      if name == "" { return false; }
      if name in RESERVED_USERNAMES { return false; }
      if name in users { return false; }
      users := users[name := User(password, created, isAdmin, false, None, None, [])];
      if created >= bound { bound := created + 1; }
      return true;
    }

    method FirstRunSetup(username: string, password: string, created: nat) returns (ok: bool)
      modifies this
      ensures (View(), ok) == Setup(old(View()), username, password, created)
    {
      if |users| > 0 { return false; }
      ok := AddUser(username, password, true, created);
    }

    // Remove the sessions a predicate picks: collect the tokens, then pop them.
    method Purge(doomed: set<string>) returns (revoked: nat)
      requires doomed <= sessions.Keys
      modifies this`sessions
      ensures sessions == old(sessions) - doomed && revoked == |doomed|
      ensures old(sessions).Keys - sessions.Keys == doomed
    {
      var todo := doomed;
      revoked := 0;
      while todo != {}
        invariant todo <= doomed && sessions == old(sessions) - (doomed - todo) && revoked == |doomed| - |todo|
        decreases |todo|
      {
        var t :| t in todo;
        todo := todo - {t};
        sessions := sessions - {t};
        revoked := revoked + 1;
      }
    }

    method RemoveUser(username: string, requesting: string) returns (ok: bool)
      modifies this
      ensures (View(), ok) == DeleteUser(old(View()), username, requesting)
    {
      hide Normalize;
      var name := Normalize(username);
      if name !in users { return false; }
      if name == requesting { return false; }
      if requesting !in users || !users[requesting].isAdmin { return false; }
      users := users - {name};
      ghost var before := sessions;
      var revoked := Purge(set t | t in sessions && sessions[t].username == name);
      LeftIf(before, sessions, revoked);
      assert sessions == map t | t in before && before[t].username != name :: before[t];
      if revoked > 0 { saved := sessions; }
      apiOwners := map id | id in apiOwners && apiOwners[id] != Some(name) :: apiOwners[id];
      return true;
    }

    method MoveUser(oldName: string, newName: string, requesting: string) returns (ok: bool)
      modifies this
      ensures (View(), ok) == RenameUser(old(View()), oldName, newName, requesting)
    {
      hide Normalize, Renamed;
      var was, to, actor := Normalize(oldName), Normalize(newName), Normalize(requesting);
      if was == "" || to == "" { return false; }
      if to in RESERVED_USERNAMES { return false; }
      if was !in users { return false; }
      if to in users { return false; }
      if actor !in users || !users[actor].isAdmin { return false; }
      users := (users - {was})[to := users[was]];
      MoveSessions(was, to);
      return true;
    }

    // The loop over the live sessions, and the save if it renamed any.
    method MoveSessions(was: string, to: string)
      modifies this`sessions, this`saved
      ensures sessions == map t | t in old(sessions) :: Renamed(old(sessions)[t], was, to)
      ensures saved == if Names(old(sessions), was) then sessions else old(saved)
    {
      hide Normalize, Renamed, Partway;
      var before := sessions;
      var todo, renamed := sessions.Keys, 0;
      RenameStarts(before, was, to);
      while todo != {}
        invariant todo <= before.Keys && Partway(before, sessions, todo, was, to) && saved == old(saved)
        invariant renamed > 0 <==> exists t :: t in before && t !in todo && Normalize(before[t].username) == was
        decreases |todo|
      {
        var t :| t in todo;
        RenameStep(before, sessions, todo, was, to, t);
        todo := todo - {t};
        if Normalize(sessions[t].username) == was {
          sessions := sessions[t := sessions[t].(username := to)];
          renamed := renamed + 1;
        }
      }
      RenameEnds(before, sessions, was, to);
      if renamed > 0 { saved := sessions; }
    }

    method Login(username: string, password: string, token: string, now: int) returns (ok: bool)
      modifies this
      ensures (View(), ok) == CreateSession(old(View()), username, password, token, now)
    {
      hide Normalize;
      var name := Normalize(username);
      if name !in users || users[name].password != password { return false; }
      sessions := sessions[token := Session(name, now + TOKEN_TTL)];
      saved := sessions;
      issued := issued[token := users[name].created];
      return true;
    }

    method CheckToken(token: string, now: int) returns (valid: bool)
      modifies this`sessions, this`saved
      ensures (View(), valid) == Validate(old(View()), token, now)
    {
      if token == "" || token !in sessions { return false; }
      var s := sessions[token];
      if now > s.expiry || s.username !in users {
        sessions := sessions - {token};
        saved := sessions;
        return false;
      }
      return true;
    }

    method WhoIs(token: string, now: int) returns (name: Option<string>)
      modifies this`sessions, this`saved
      ensures (View(), name) == UsernameFor(old(View()), token, now)
    {
      if token == "" || token !in sessions { return None; }
      var s := sessions[token];
      if now <= s.expiry && s.username in users { return Some(s.username); }
      sessions := sessions - {token};
      saved := sessions;
      return None;
    }

    method RevokeAll(username: string, spared: string) returns (revoked: nat)
      modifies this`sessions, this`saved
      ensures View() == RevokeUserSessions(old(View()), username, spared)
      ensures revoked == |old(sessions)| - |sessions|
    {
      hide Normalize;
      var name := Normalize(username);
      ghost var before := sessions;
      revoked := Purge(set t | t in sessions && t != spared && sessions[t].username == name);
      assert sessions == map t | t in before && (t == spared || before[t].username != name) :: before[t];
      if revoked > 0 { saved := sessions; }
      LeftIf(before, sessions, revoked);
    }

    method VerifyCode(username: string, code: string, otpOk: bool) returns (ok: bool)
      modifies this`users, this`log
      ensures (View(), ok) == TotpVerify(old(View()), username, code, otpOk)
    {
      hide Normalize;
      var name := Normalize(username);
      if name !in users || !users[name].totpEnabled { return true; }
      if users[name].secret.None? { return false; }
      var u := users[name];
      var backup := u.backup;
      if code in backup {
        backup := TakeOut(backup, code);
        users := users[name := u.(backup := backup)];
        if u.created in log { log := log[u.created := Accepted(log[u.created], code)]; }
        return true;
      }
      return otpOk;
    }

    // `change_password`
    method SetPassword(username: string, current: string, next: string) returns (ok: bool)
      modifies this`users
      ensures (View(), ok) == ChangePassword(old(View()), username, current, next)
    {
      hide Normalize;
      var name := Normalize(username);
      if name !in users { return false; }
      if users[name].password != current { return false; }
      users := users[name := users[name].(password := next)];
      return true;
    }

    // `totp_confirm_enable`; the fresh backup codes are given.
    method ConfirmEnable(username: string, otpOk: bool, codes: seq<string>) returns (ok: bool)
      modifies this`users, this`log
      ensures (View(), ok) == TotpConfirm(old(View()), username, otpOk, codes)
    {
      hide Normalize;
      var name := Normalize(username);
      if name !in users || users[name].pending.None? { return false; }
      if !otpOk { return false; }
      var u := users[name];
      u := u.(secret := u.pending);
      u := u.(totpEnabled := true);
      u := u.(pending := None);
      users := users[name := u.(backup := codes)];
      log := log[u.created := CodeLog(codes, [])];
      return true;
    }

    // `totp_disable`
    method Disable(username: string, password: string) returns (ok: bool)
      modifies this`users
      ensures (View(), ok) == TotpDisable(old(View()), username, password)
    {
      hide Normalize;
      var name := Normalize(username);
      if name !in users || users[name].password != password { return false; }
      users := users[name := users[name].(secret := None, pending := None, backup := [], totpEnabled := false)];
      return true;
    }

    // `backup.remove(code)`
    method TakeOut(s: seq<string>, x: string) returns (r: seq<string>)
      requires x in s
      ensures r == RemoveFirst(s, x)
    {
      var i := 0;
      while s[i] != x
        invariant 0 <= i < |s| && x !in s[..i] && x in s[i..]
        decreases |s| - i
      {
        assert s[i..] == [s[i]] + s[i + 1..];
        assert s[..i + 1] == s[..i] + [s[i]];
        i := i + 1;
      }
      RemoveFirstAt(s, i, x);
      r := s[..i] + s[i + 1..];
    }
  }

  lemma {:induction false} RemoveFirstAt(s: seq<string>, i: nat, x: string)
    requires i < |s| && x !in s[..i] && s[i] == x
    ensures RemoveFirst(s, x) == s[..i] + s[i + 1..]
  {
    if i > 0 {
      assert s[0] in s[..i] && s[1..][..i - 1] == s[..i][1..];
      RemoveFirstAt(s[1..], i - 1, x);
    }
  }

  // A rename has reached every session but those in `todo`.
  predicate Partway(before: map<string, Session>, now: map<string, Session>, todo: set<string>,
                    was: string, to: string) {
    && now.Keys == before.Keys
    && forall t :: t in before ==> now[t] == if t in todo then before[t] else Renamed(before[t], was, to)
  }

  lemma RenameStarts(before: map<string, Session>, was: string, to: string)
    ensures Partway(before, before, before.Keys, was, to)
  {}

  lemma RenameStep(before: map<string, Session>, now: map<string, Session>, todo: set<string>, was: string, to: string,
                   t: string)
    requires Partway(before, now, todo, was, to) && t in todo && todo <= before.Keys
    ensures t in now && now[t] == before[t]
    ensures Normalize(now[t].username) == was
          ==> Partway(before, now[t := now[t].(username := to)], todo - {t}, was, to)
    ensures Normalize(now[t].username) != was ==> Partway(before, now, todo - {t}, was, to)
  {
    hide Normalize;
  }

  lemma RenameEnds(before: map<string, Session>, now: map<string, Session>, was: string, to: string)
    requires Partway(before, now, {}, was, to)
    ensures now == map t | t in before :: Renamed(before[t], was, to)
  {
    hide Renamed;
  }

  lemma LeftIf(before: map<string, Session>, left: map<string, Session>, removed: nat)
    requires left.Keys <= before.Keys && (forall t :: t in left ==> left[t] == before[t])
    requires removed == |before.Keys - left.Keys|
    ensures removed == |before| - |left| && (removed > 0 <==> left != before)
  {
    SubmapSize(before, left);
    assert before.Keys == left.Keys + (before.Keys - left.Keys);
    assert |before| == |before.Keys| && |left| == |left.Keys|;
  }

  lemma SubmapSize(a: map<string, Session>, b: map<string, Session>)
    requires b.Keys <= a.Keys && forall t :: t in b ==> b[t] == a[t]
    ensures |b| <= |a| && (|b| == |a| ==> a == b)
  {
    SubsetSize(b.Keys, a.Keys);
    assert |a| == |a.Keys| && |b| == |b.Keys|;
  }

  lemma SubsetSize(x: set<string>, y: set<string>)
    requires x <= y
    ensures |x| <= |y| && (|x| == |y| ==> x == y)
  {
    assert y == x + (y - x) && |y| == |x| + |y - x|;
  }
}
