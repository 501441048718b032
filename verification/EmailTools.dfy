// The mail tools: merging the newest messages of several accounts, and
// numbering the attachments of a message.

module EmailMerge {
  import opened Wrappers

  // The account a message was listed for.
  datatype Owner = Owner(name: string, email: string, id: string)

  // A message by its UID and the time of its Date header, and its account once
  // the lists are merged.
  datatype Message = Message(uid: string, time: int, owner: Option<Owner>)

  // Python's `sort(key=time, reverse=True)`: stable, largest first.
  function InsertDesc(x: Message, s: seq<Message>): seq<Message> {
    if s == [] || x.time >= s[0].time then [x] + s else [s[0]] + InsertDesc(x, s[1..])
  }

  function SortDesc(l: seq<Message>): seq<Message> {
    if l == [] then [] else InsertDesc(l[0], SortDesc(l[1..]))
  }

  predicate NewestFirst(l: seq<Message>) {
    forall i, j :: 0 <= i < j < |l| ==> l[i].time >= l[j].time
  }

  // The messages of one instant, in order.
  function AtTime(l: seq<Message>, t: int): seq<Message> {
    if l == [] then [] else (if l[0].time == t then [l[0]] else []) + AtTime(l[1..], t)
  }

  // The sort is what it should be: ordered, and stable instant by instant.
  lemma {:induction false} InsertMembers(x: Message, s: seq<Message>)
    ensures forall m :: m in InsertDesc(x, s) <==> m == x || m in s
  {
    if s != [] && x.time < s[0].time {
      InsertMembers(x, s[1..]);
      assert s == [s[0]] + s[1..];
    }
  }

  lemma {:induction false} InsertOrdered(x: Message, s: seq<Message>)
    requires NewestFirst(s)
    ensures NewestFirst(InsertDesc(x, s))
  {
    if s != [] && x.time < s[0].time {
      InsertOrdered(x, s[1..]);
      InsertMembers(x, s[1..]);
      var r := InsertDesc(x, s[1..]);
      assert forall i :: 0 <= i < |r| ==> r[i] in r && r[i].time <= s[0].time;
    }
  }

  lemma AtTimeCons(h: Message, r: seq<Message>, t: int)
    ensures AtTime([h] + r, t) == (if h.time == t then [h] else []) + AtTime(r, t)
  {
    assert ([h] + r)[1..] == r;
  }

  lemma {:induction false} InsertAtTime(x: Message, s: seq<Message>, t: int)
    ensures AtTime(InsertDesc(x, s), t) == (if x.time == t then [x] else []) + AtTime(s, t)
  {
    hide AtTime;
    if s != [] && x.time < s[0].time {
      InsertAtTime(x, s[1..], t);
      AtTimeCons(s[0], InsertDesc(x, s[1..]), t);
      AtTimeCons(s[0], s[1..], t);
      assert s == [s[0]] + s[1..];
    } else {
      AtTimeCons(x, s, t);
    }
  }

  lemma {:induction false} SortRight(l: seq<Message>)
    ensures NewestFirst(SortDesc(l))
    ensures forall t :: AtTime(SortDesc(l), t) == AtTime(l, t)
  {
    if l != [] {
      SortRight(l[1..]);
      InsertOrdered(l[0], SortDesc(l[1..]));
      forall t
        ensures AtTime(SortDesc(l), t) == AtTime(l, t)
      {
        InsertAtTime(l[0], SortDesc(l[1..]), t);
      }
    }
  }

  // Those two properties leave only one list.
  lemma {:induction false} StableSortUnique(a: seq<Message>, b: seq<Message>)
    requires NewestFirst(a) && NewestFirst(b) && forall t :: AtTime(a, t) == AtTime(b, t)
    ensures a == b
  {
    SameEmpty(a, b);
    if a != [] {
      SameHead(a, b);
      forall t
        ensures AtTime(a[1..], t) == AtTime(b[1..], t)
      {
        AtTimeTail(a, t);
        AtTimeTail(b, t);
      }
      StableSortUnique(a[1..], b[1..]);
    }
  }

  lemma AtTimeTail(l: seq<Message>, t: int)
    requires l != []
    ensures AtTime(l, t) == (if l[0].time == t then [l[0]] else []) + AtTime(l[1..], t)
    ensures AtTime(l[1..], t) == if l[0].time == t then AtTime(l, t)[1..] else AtTime(l, t)
  {}

  lemma {:induction false} AtTimeEmpty(l: seq<Message>, t: int)
    ensures AtTime(l, t) == [] <==> forall m :: m in l ==> m.time != t
  {
    if l != [] {
      assert l == [l[0]] + l[1..];
      AtTimeEmpty(l[1..], t);
    }
  }

  lemma SameEmpty(a: seq<Message>, b: seq<Message>)
    requires forall t :: AtTime(a, t) == AtTime(b, t)
    ensures a == [] <==> b == []
  {
    var x, y := if a != [] then a[0].time else 0, if b != [] then b[0].time else 0;
    assert AtTime(a, x) == AtTime(b, x) && AtTime(a, y) == AtTime(b, y);
    AtTimeEmpty(a, x);
    AtTimeEmpty(b, x);
    AtTimeEmpty(a, y);
    AtTimeEmpty(b, y);
  }

  lemma HeadFirst(l: seq<Message>)
    requires l != []
    ensures AtTime(l, l[0].time) != [] && AtTime(l, l[0].time)[0] == l[0]
  {}

  lemma SameHead(a: seq<Message>, b: seq<Message>)
    requires NewestFirst(a) && NewestFirst(b) && a != [] && b != [] && forall t :: AtTime(a, t) == AtTime(b, t)
    ensures a[0] == b[0]
  {
    hide AtTime;
    var x, y := a[0].time, b[0].time;
    HeadFirst(a);
    HeadFirst(b);
    assert AtTime(a, x) == AtTime(b, x) && AtTime(a, y) == AtTime(b, y);
    AtTimeEmpty(a, y);
    AtTimeEmpty(b, x);
    assert y <= x <= y;
  }

  function Take<T>(l: seq<T>, k: nat): seq<T> {
    if k <= |l| then l[..k] else l
  }

  // ------------------------------------------------------------ the merge

  // Sorting the messages of a before those of a sorted rest.
  function MergeIn(a: seq<Message>, s: seq<Message>): seq<Message> {
    if a == [] then s else InsertDesc(a[0], MergeIn(a[1..], s))
  }

  lemma {:induction false} SortConcat(a: seq<Message>, b: seq<Message>)
    ensures SortDesc(a + b) == MergeIn(a, SortDesc(b))
  {
    if a == [] {
      assert a + b == b;
    } else {
      assert (a + b)[1..] == a[1..] + b;
      SortConcat(a[1..], b);
    }
  }

  lemma {:induction false} MergeInConcat(a: seq<Message>, b: seq<Message>, s: seq<Message>)
    ensures MergeIn(a + b, s) == MergeIn(a, MergeIn(b, s))
  {
    if a == [] {
      assert a + b == b;
    } else {
      assert (a + b)[1..] == a[1..] + b;
      MergeInConcat(a[1..], b, s);
    }
  }

  // An insertion above the cut does not see what lies below it.
  lemma {:induction false} InsertAbove(x: Message, upper: seq<Message>, lower: seq<Message>)
    requires lower == [] || lower[0].time <= x.time
    ensures InsertDesc(x, upper + lower) == InsertDesc(x, upper) + lower
  {
    if upper == [] {
      assert upper + lower == lower;
    } else {
      assert (upper + lower)[1..] == upper[1..] + lower;
      InsertAbove(x, upper[1..], lower);
    }
  }

  lemma {:induction false} InsertSplits(x: Message, s: seq<Message>) returns (p: nat)
    ensures p <= |s| && InsertDesc(x, s) == s[..p] + ([x] + s[p..])
    ensures p < |s| ==> s[p].time <= x.time
  {
    if s == [] || x.time >= s[0].time {
      p := 0;
    } else {
      var q := InsertSplits(x, s[1..]);
      p := q + 1;
      assert s[..p] == [s[0]] + s[1..][..q] && s[1..][q..] == s[p..];
    }
  }

  // A message no newer than all of a ends up behind all of a: the merge with it
  // is the merge without it, cut open after at least |a| messages.
  lemma {:induction false} LateMessage(a: seq<Message>, x: Message, s: seq<Message>)
    returns (upper: seq<Message>, lower: seq<Message>)
    requires forall m :: m in a ==> m.time >= x.time
    ensures MergeIn(a, InsertDesc(x, s)) == upper + ([x] + lower)
    ensures MergeIn(a, s) == upper + lower
    ensures |upper| >= |a| && (lower == [] || lower[0].time <= x.time)
  {
    if a == [] {
      var p := InsertSplits(x, s);
      upper, lower := s[..p], s[p..];
      assert s == upper + lower;
    } else {
      var u, l := LateMessage(a[1..], x, s);
      assert a[0] in a;
      InsertAbove(a[0], u, [x] + l);
      InsertAbove(a[0], u, l);
      InsertLength(a[0], u);
      upper, lower := InsertDesc(a[0], u), l;
    }
  }

  lemma {:induction false} InsertLength(x: Message, s: seq<Message>)
    ensures |InsertDesc(x, s)| == |s| + 1
  {
    if s != [] { InsertLength(x, s[1..]); }
  }

  // The first k messages need no more than the first k of a sorted part.
  lemma {:induction false} PartTake(a: seq<Message>, s: seq<Message>, k: nat)
    requires NewestFirst(a)
    ensures Take(MergeIn(a, s), k) == Take(MergeIn(Take(a, k), s), k)
    decreases |a|
  {
    if |a| > k {
      var n := |a| - 1;
      var init, x := a[..n], a[n];
      assert a == init + [x];
      MergeInConcat(init, [x], s);
      assert [x][1..] == [];
      assert MergeIn([x], s) == InsertDesc(x, s);
      var upper, lower := LateMessage(init, x, s);
      assert MergeIn(a, s) == upper + ([x] + lower) && MergeIn(init, s) == upper + lower;
      assert Take(init, k) == Take(a, k);
      CutAbove(upper, [x] + lower, lower, k);
      assert Take(MergeIn(a, s), k) == Take(MergeIn(init, s), k);
      PartTake(init, s, k);
    } else {
      assert Take(a, k) == a;
    }
  }

  lemma CutAbove(upper: seq<Message>, b: seq<Message>, c: seq<Message>, k: nat)
    requires k <= |upper|
    ensures Take(upper + b, k) == Take(upper + c, k)
  {
    assert (upper + b)[..k] == upper[..k] == (upper + c)[..k];
  }

  lemma TakeCons(h: Message, r: seq<Message>, k: nat)
    requires k > 0
    ensures Take([h] + r, k) == [h] + Take(r, k - 1)
  {}

  lemma {:induction false} InsertTake(x: Message, s: seq<Message>, k: nat)
    ensures Take(InsertDesc(x, s), k) == Take(InsertDesc(x, Take(s, k)), k)
  {
    if 0 < k < |s| {
      var cut := Take(s, k);
      TakeCons(s[0], s[1..], k);
      assert s == [s[0]] + s[1..];
      assert cut[0] == s[0] && cut[1..] == Take(s[1..], k - 1);
      if x.time >= s[0].time {
        TakeCons(x, s, k);
        TakeCons(x, cut, k);
        assert Take(s, k - 1) == Take(cut, k - 1);
      } else {
        InsertTake(x, s[1..], k - 1);
        TakeCons(s[0], InsertDesc(x, s[1..]), k);
        TakeCons(s[0], InsertDesc(x, cut[1..]), k);
      }
    } else if k == 0 {
      assert Take(InsertDesc(x, s), 0) == [];
    } else {
      assert Take(s, k) == s;
    }
  }

  lemma {:induction false} RestTake(a: seq<Message>, s: seq<Message>, k: nat)
    ensures Take(MergeIn(a, s), k) == Take(MergeIn(a, Take(s, k)), k)
  {
    if a == [] {
      assert Take(Take(s, k), k) == Take(s, k);
    } else {
      RestTake(a[1..], s, k);
      InsertTake(a[0], MergeIn(a[1..], s), k);
      InsertTake(a[0], MergeIn(a[1..], Take(s, k)), k);
    }
  }

  // ------------------------------------------------------------ accounts

  // An account: what the search finds in its mailbox, oldest UID first and None
  // for a message whose header cannot be fetched, or the error it ends in.
  datatype Account = Account(owner: Owner, mailbox: Result<seq<Option<Message>>, string>)

  function Reversed<T>(l: seq<T>): (r: seq<T>)
    ensures |r| == |l| && forall i :: 0 <= i < |l| ==> r[i] == l[|l| - 1 - i]
  {
    seq(|l|, i requires 0 <= i < |l| => l[|l| - 1 - i])
  }

  // The messages that could be fetched, in order.
  function Fetched(l: seq<Option<Message>>): seq<Message> {
    if l == [] then []
    else
      var n := |l| - 1;
      Fetched(l[..n]) + if l[n].Some? then [l[n].value] else []
  }

  function Tagged(l: seq<Message>, owner: Owner): (r: seq<Message>)
    ensures |r| == |l| && forall i :: 0 <= i < |l| ==> r[i] == l[i].(owner := Some(owner))
  {
    seq(|l|, i requires 0 <= i < |l| => l[i].(owner := Some(owner)))
  }

  // The mailbox newest UID first.
  function Newest(a: Account): seq<Option<Message>> {
    if a.mailbox.Success? then Reversed(a.mailbox.value) else []
  }

  // What the account has to show, and what it shows of it for the newest k.
  function Listing(a: Account): seq<Message> { Tagged(Fetched(Newest(a)), a.owner) }

  function Shown(a: Account, k: nat): seq<Message> { Tagged(Fetched(Take(Newest(a), k)), a.owner) }

  function Combined(accounts: seq<Account>, k: nat): seq<Message> {
    if accounts == [] then [] else Shown(accounts[0], k) + Combined(accounts[1..], k)
  }

  function Everything(accounts: seq<Account>): seq<Message> {
    if accounts == [] then [] else Listing(accounts[0]) + Everything(accounts[1..])
  }

  // f"{account_name} ({account_email}): {exc}"
  function Complaint(a: Account): seq<string> {
    if a.mailbox.Failure? then [a.owner.name + " (" + a.owner.email + "): " + a.mailbox.error] else []
  }

  function Complaints(accounts: seq<Account>): seq<string> {
    if accounts == [] then [] else Complaint(accounts[0]) + Complaints(accounts[1..])
  }

  // The answer is the newest k of all that can be fetched anywhere.
  predicate Right(accounts: seq<Account>, k: nat) {
    Take(SortDesc(Combined(accounts, k)), k) == Take(SortDesc(Everything(accounts)), k)
  }

  // None of the newest k fails to be fetched, or nothing older could be.
  predicate NoLoss(a: Account, k: nat) {
    var l := Newest(a);
    (forall i :: 0 <= i < k && i < |l| ==> l[i].Some?) || (forall i :: k <= i < |l| ==> l[i].None?)
  }

  lemma {:induction false} FetchedConcat(l: seq<Option<Message>>, r: seq<Option<Message>>)
    ensures Fetched(l + r) == Fetched(l) + Fetched(r)
  {
    if r == [] {
      assert l + r == l;
    } else {
      assert (l + r)[..|l + r| - 1] == l + r[..|r| - 1];
      FetchedConcat(l, r[..|r| - 1]);
    }
  }

  lemma {:induction false} FetchedLength(l: seq<Option<Message>>)
    ensures |Fetched(l)| <= |l|
    ensures |Fetched(l)| == |l| <==> forall i :: 0 <= i < |l| ==> l[i].Some?
    ensures Fetched(l) == [] <==> forall i :: 0 <= i < |l| ==> l[i].None?
  {
    if l != [] {
      var n := |l| - 1;
      FetchedLength(l[..n]);
      assert forall i :: 0 <= i < n ==> l[..n][i] == l[i];
    }
  }

  // Fetching the newest k gives a start of all that can be fetched, and as many
  // of it as there are up to k exactly if nothing is lost.
  lemma ShownFacts(a: Account, k: nat)
    ensures Shown(a, k) <= Listing(a) && |Shown(a, k)| <= k
    ensures NoLoss(a, k) <==> |Shown(a, k)| == if k <= |Listing(a)| then k else |Listing(a)|
  {
    hide Fetched, Newest, Take;
    FetchedStart(Newest(a), k);
  }

  lemma FetchedStart(l: seq<Option<Message>>, k: nat)
    ensures Fetched(Take(l, k)) <= Fetched(l) && |Fetched(Take(l, k))| <= k
    ensures ((forall i :: 0 <= i < k && i < |l| ==> l[i].Some?) || (forall i :: k <= i < |l| ==> l[i].None?))
       <==> |Fetched(Take(l, k))| == if k <= |Fetched(l)| then k else |Fetched(l)|
  {
    FetchedLength(l);
    hide Fetched;
    if k <= |l| {
      assert l == l[..k] + l[k..];
      FetchedConcat(l[..k], l[k..]);
      FetchedLength(l[..k]);
      FetchedLength(l[k..]);
      LostParts(l, k);
    }
  }

  lemma LostParts(l: seq<Option<Message>>, k: nat)
    requires k <= |l|
    ensures (forall i :: 0 <= i < k ==> l[..k][i].Some?) <==> forall i :: 0 <= i < k && i < |l| ==> l[i].Some?
    ensures (forall i :: 0 <= i < |l| - k ==> l[k..][i].None?) <==> forall i :: k <= i < |l| ==> l[i].None?
  {
    assert forall i :: 0 <= i < k ==> l[..k][i] == l[i];
    assert forall i :: k <= i < |l| ==> l[i] == l[k..][i - k];
    assert forall i :: 0 <= i < |l| - k ==> l[k..][i] == l[i + k];
  }

  lemma ShownIsTake(a: Account, k: nat)
    ensures NoLoss(a, k) <==> Shown(a, k) == Take(Listing(a), k)
  {
    ShownFacts(a, k);
    hide Shown, Listing, NoLoss;
  }

  lemma {:induction false} TopK(accounts: seq<Account>, k: nat)
    requires forall a :: a in accounts ==> NewestFirst(Listing(a)) && NoLoss(a, k)
    ensures Right(accounts, k)
  {
    hide Listing, Shown, NoLoss;
    if accounts != [] {
      var a, rest := Listing(accounts[0]), accounts[1..];
      assert accounts[0] in accounts;
      ShownIsTake(accounts[0], k);
      TopK(rest, k);
      SortConcat(Take(a, k), Combined(rest, k));
      SortConcat(a, Everything(rest));
      var c, e := SortDesc(Combined(rest, k)), SortDesc(Everything(rest));
      RestTake(Take(a, k), c, k);
      RestTake(Take(a, k), e, k);
      PartTake(a, e, k);
    }
  }

  lemma {:induction false} CombinedAppend(accounts: seq<Account>, a: Account, k: nat)
    ensures Combined(accounts + [a], k) == Combined(accounts, k) + Shown(a, k)
    ensures Complaints(accounts + [a]) == Complaints(accounts) + Complaint(a)
  {
    hide Shown, Complaint;
    if accounts == [] {
      assert accounts + [a] == [a] && [a][1..] == [];
      assert Combined([a], k) == Shown(a, k) + Combined([], k);
      assert Complaints([a]) == Complaint(a) + Complaints([]);
    } else {
      var rest := accounts[1..];
      assert (accounts + [a])[1..] == rest + [a] && (accounts + [a])[0] == accounts[0];
      CombinedAppend(rest, a, k);
      var s, c := Shown(accounts[0], k), Complaint(accounts[0]);
      assert s + (Combined(rest, k) + Shown(a, k)) == (s + Combined(rest, k)) + Shown(a, k);
      assert c + (Complaints(rest) + Complaint(a)) == (c + Complaints(rest)) + Complaint(a);
    }
  }

  // `_list_emails`, from the search result on: of the newest k the headers are
  // fetched one by one, and a message whose header does not come is passed over.
  method ListEmails(mailbox: seq<Option<Message>>, k: nat) returns (results: seq<Message>)
    ensures results == Fetched(Take(Reversed(mailbox), k))
  {
    var uids := Take(Reversed(mailbox), k);
    results := [];
    for i := 0 to |uids|
      invariant results == Fetched(uids[..i])
    {
      assert uids[..i + 1][..i] == uids[..i];
      if uids[i].None? { continue; }
      results := results + [uids[i].value];
    }
    assert uids[..|uids|] == uids;
  }

  // `for item in account_results: item["_account"] = ...`
  method Annotate(results: seq<Message>, owner: Owner) returns (tagged: seq<Message>)
    ensures tagged == Tagged(results, owner)
  {
    tagged := [];
    for i := 0 to |results|
      invariant |tagged| == i && forall k :: 0 <= k < i ==> tagged[k] == results[k].(owner := Some(owner))
    {
      tagged := tagged + [results[i].(owner := Some(owner))];
    }
  }

  // `_list_emails_across_accounts`
  method ListAcrossAccounts(accounts: seq<Account>, k: nat) returns (top: seq<Message>, errors: seq<string>)
    ensures top == Take(SortDesc(Combined(accounts, k)), k) && errors == Complaints(accounts)
    ensures (forall a :: a in accounts ==> NewestFirst(Listing(a)) && NoLoss(a, k)) ==>
      top == Take(SortDesc(Everything(accounts)), k)
  {
    hide Take, Reversed, Combined, NewestFirst, SortDesc, Fetched, Listing, NoLoss, Complaints;
    var combined: seq<Message> := [];
    errors := [];
    NoAccounts(k);
    for i := 0 to |accounts|
      invariant combined == Combined(accounts[..i], k) && errors == Complaints(accounts[..i])
    {
      var row := accounts[i];
      assert accounts[..i + 1] == accounts[..i] + [row];
      CombinedAppend(accounts[..i], row, k);
      if row.mailbox.Failure? {
        NothingShown(row, k);
        errors := errors + [row.owner.name + " (" + row.owner.email + "): " + row.mailbox.error];
      } else {
        var results := ListEmails(row.mailbox.value, k);
        results := Annotate(results, row.owner);
        combined := combined + results;
      }
    }
    assert accounts[..|accounts|] == accounts;
    top := Take(SortDesc(combined), k);
    if forall a :: a in accounts ==> NewestFirst(Listing(a)) && NoLoss(a, k) { TopK(accounts, k); }
  }

  lemma NoAccounts(k: nat)
    ensures Combined([], k) == [] && Complaints([]) == []
  {}

  lemma NothingShown(a: Account, k: nat)
    requires a.mailbox.Failure?
    ensures Shown(a, k) == []
  {}

  // -------------------------------------------------- the conditions are exact

  // An account that can be merged with any other: listed newest-first, and no
  // fetch fails in front of one that succeeds.
  ghost predicate Reliable(a: Account) {
    NewestFirst(Listing(a)) && forall k: nat :: NoLoss(a, k)
  }

  // The others are reliable and the answer is right, wherever they stand.
  ghost predicate RightAmong(a: Account, k: nat) {
    forall before: seq<Account>, after: seq<Account> ::
      (forall o :: o in before + after ==> Reliable(o)) ==> Right(before + [a] + after, k)
  }

  lemma RightAlone(a: Account, k: nat)
    requires RightAmong(a, k)
    ensures Take(SortDesc(Shown(a, k)), k) == Take(SortDesc(Listing(a)), k)
  {
    LoneAccount(a, k);
    assert [] + [a] + [] == [a];
    hide SortDesc, Take, Shown, Listing, Combined, Everything;
    assert Right([] + [a] + [], k);
  }

  lemma LoneAccount(a: Account, k: nat)
    ensures Combined([a], k) == Shown(a, k) && Everything([a]) == Listing(a)
  {
    hide Shown, Listing;
    assert [a][1..] == [];
    assert Shown(a, k) + [] == Shown(a, k) && Listing(a) + [] == Listing(a);
  }

  lemma RightWithOthers(a: Account, k: nat)
    requires NewestFirst(Listing(a)) && NoLoss(a, k)
    ensures RightAmong(a, k)
  {
    hide Listing, NoLoss;
    forall before: seq<Account>, after: seq<Account> | forall o :: o in before + after ==> Reliable(o)
      ensures Right(before + [a] + after, k)
    {
      forall o | o in before + [a] + after
        ensures NewestFirst(Listing(o)) && NoLoss(o, k)
      {
        if o != a { assert o in before + after; }
      }
      TopK(before + [a] + after, k);
    }
  }

  // A failed fetch spoils the newest k of a newest-first mailbox exactly if it
  // is among its newest k and something older can be fetched.
  lemma FailureIff(a: Account, k: nat)
    requires NewestFirst(Listing(a))
    ensures RightAmong(a, k) <==> NoLoss(a, k)
  {
    if NoLoss(a, k) { RightWithOthers(a, k); }
    if RightAmong(a, k) { RightCount(a, k); }
  }

  lemma RightCount(a: Account, k: nat)
    requires RightAmong(a, k)
    ensures NoLoss(a, k)
  {
    RightAlone(a, k);
    ShownFacts(a, k);
    SortLength(Shown(a, k));
    SortLength(Listing(a));
    hide Shown, Listing, NoLoss, RightAmong, SortDesc;
  }

  // The answer is right for every k and in whatever company of reliable
  // accounts, exactly if the account itself is reliable.
  lemma ReliableIff(a: Account)
    ensures (forall k: nat :: RightAmong(a, k)) <==> Reliable(a)
  {
    hide Listing, NoLoss, RightAmong;
    if Reliable(a) {
      forall k: nat
        ensures RightAmong(a, k)
      {
        RightWithOthers(a, k);
      }
    } else if forall k: nat :: RightAmong(a, k) {
      forall k: nat
        ensures NoLoss(a, k) && Take(SortDesc(Take(Listing(a), k)), k) == Take(SortDesc(Listing(a)), k)
      {
        RightCount(a, k);
        RightAlone(a, k);
        ShownIsTake(a, k);
      }
      SortedIfPrefixesAre(Listing(a));
    }
  }

  lemma SortedIfPrefixesAre(l: seq<Message>)
    requires forall k: nat :: Take(SortDesc(Take(l, k)), k) == Take(SortDesc(l), k)
    ensures NewestFirst(l)
  {
    SortLength(l);
    PrefixesSorted(l, |l|);
    assert l[..|l|] == l && SortDesc(l)[..|l|] == SortDesc(l);
    SortRight(l);
  }

  lemma {:induction false} SortLength(l: seq<Message>)
    ensures |SortDesc(l)| == |l| && multiset(SortDesc(l)) == multiset(l)
  {
    if l != [] {
      SortLength(l[1..]);
      InsertMultiset(l[0], SortDesc(l[1..]));
      assert l == [l[0]] + l[1..];
      InsertLength(l[0], SortDesc(l[1..]));
    }
  }

  lemma {:induction false} InsertMultiset(x: Message, s: seq<Message>)
    ensures multiset(InsertDesc(x, s)) == multiset(s) + multiset{x}
  {
    if s != [] && x.time < s[0].time {
      InsertMultiset(x, s[1..]);
      assert s == [s[0]] + s[1..];
    }
  }

  lemma {:induction false} PrefixesSorted(l: seq<Message>, n: nat)
    requires n <= |l| == |SortDesc(l)|
    requires forall k: nat :: Take(SortDesc(Take(l, k)), k) == Take(SortDesc(l), k)
    ensures l[..n] == SortDesc(l)[..n]
  {
    hide SortDesc;
    if n > 0 {
      PrefixesSorted(l, n - 1);
      var s := SortDesc(l);
      assert Take(l, n) == l[..n];
      SortLength(l[..n]);
      assert SortDesc(l[..n]) == Take(SortDesc(l[..n]), n) == Take(s, n) == s[..n];
      LastByCount(l[..n - 1], l[n - 1], s[n - 1], l[..n], s[..n]);
    }
  }

  lemma LastByCount(init: seq<Message>, x: Message, y: Message, a: seq<Message>, b: seq<Message>)
    requires a == init + [x] && b == init + [y] && multiset(a) == multiset(b)
    ensures x == y
  {
    assert multiset(a) == multiset(init) + multiset{x};
    assert multiset(b) == multiset(init) + multiset{y};
    assert (multiset(init) + multiset{x})[x] == multiset(init)[x] + 1;
    assert (multiset(init) + multiset{y})[x] == multiset(init)[x] + if x == y then 1 else 0;
  }
}

module Attachments {
  import opened Wrappers
  import opened Strings

  // A MIME part: a leaf with its payload, or a multipart.
  datatype Part =
    | Leaf(contentType: string, disposition: string, filename: string, payload: seq<bv8>)
    | Multipart(children: seq<Part>)

  type Single = p: Part | p.Leaf? witness Leaf("", "", "", [])

  // `part.walk()`: the part itself, then its children in order.
  function Walk(p: Part): seq<Part>
    decreases p, 0
  {
    [p] + if p.Multipart? then WalkAll(p.children) else []
  }

  function WalkAll(ps: seq<Part>): seq<Part>
    decreases ps, 0
  {
    if ps == [] then [] else Walk(ps[0]) + WalkAll(ps[1..])
  }

  // The part that a path of child numbers leads to.
  function PartAt(p: Part, path: seq<nat>): Option<Part>
    decreases |path|
  {
    if path == [] then Some(p)
    else if p.Multipart? && path[0] < |p.children| then PartAt(p.children[path[0]], path[1..])
    else None
  }

  // The walk reaches every part, however deep it is nested, and nothing else.
  lemma {:induction false} WalkReaches(p: Part, path: seq<nat>)
    requires PartAt(p, path).Some?
    ensures PartAt(p, path).value in Walk(p)
    decreases |path|
  {
    if path != [] {
      WalkReaches(p.children[path[0]], path[1..]);
      WalkAllHas(p.children, path[0], PartAt(p, path).value);
    }
  }

  lemma {:induction false} WalkAllHas(ps: seq<Part>, i: nat, q: Part)
    requires i < |ps| && q in Walk(ps[i])
    ensures q in WalkAll(ps)
  {
    if i > 0 { WalkAllHas(ps[1..], i - 1, q); }
  }

  lemma {:induction false} WalkedFrom(p: Part, q: Part) returns (path: seq<nat>)
    requires q in Walk(p)
    ensures PartAt(p, path) == Some(q)
    decreases p, 0
  {
    if q == p {
      path := [];
    } else {
      var i, rest := WalkedFromAll(p.children, q);
      path := [i] + rest;
      assert path[1..] == rest;
    }
  }

  lemma {:induction false} WalkedFromAll(ps: seq<Part>, q: Part) returns (i: nat, rest: seq<nat>)
    requires q in WalkAll(ps)
    ensures i < |ps| && PartAt(ps[i], rest) == Some(q)
    decreases ps, 0
  {
    if q in Walk(ps[0]) {
      i := 0;
      rest := WalkedFrom(ps[0], q);
    } else {
      i, rest := WalkedFromAll(ps[1..], q);
      i := i + 1;
    }
  }

  // What both loops skip: multiparts, and text that is not marked as attached.
  predicate Kept(p: Part) {
    p.Leaf? && !(p.contentType in {"text/plain", "text/html"} && !Contains(p.disposition, "attachment"))
  }

  function NameOf(p: Single, index: nat): string {
    if p.filename != "" then p.filename else "attachment_" + Decimal(index)
  }

  datatype Entry = Entry(index: nat, filename: string, contentType: string, size: nat)
  datatype Extracted = Extracted(filename: string, payload: seq<bv8>)

  // The attachments of a message, in the order they are numbered.
  function Numbered(parts: seq<Part>): (r: seq<Single>)
    ensures forall p :: p in r ==> Kept(p)
  {
    if parts == [] then []
    else
      var n := |parts| - 1;
      Numbered(parts[..n]) + if Kept(parts[n]) then [parts[n]] else []
  }

  function AttachmentsOf(msg: Part): (r: seq<Single>)
    ensures forall p :: p in r ==> Kept(p)
  {
    if msg.Multipart? then Numbered(Walk(msg)) else []
  }

  lemma {:induction false} NumberedIff(parts: seq<Part>, q: Part)
    ensures q in Numbered(parts) <==> q in parts && Kept(q)
  {
    if parts != [] {
      var n := |parts| - 1;
      NumberedIff(parts[..n], q);
      assert parts == parts[..n] + [parts[n]];
    }
  }

  // The attachments of a multipart message are the leaves anywhere in it that are
  // marked as attached or are not text.
  lemma AttachmentIff(msg: Part, q: Part)
    ensures q in AttachmentsOf(msg) <==>
      msg.Multipart? && (exists path :: PartAt(msg, path) == Some(q)) && q.Leaf?
      && (Contains(q.disposition, "attachment") || q.contentType !in {"text/plain", "text/html"})
  {
    if msg.Multipart? {
      NumberedIff(Walk(msg), q);
      if q in Walk(msg) { var path := WalkedFrom(msg, q); }
      if path :| PartAt(msg, path) == Some(q) { WalkReaches(msg, path); }
    }
  }

  // `_list_attachments_from_msg`
  method ListAttachments(msg: Part) returns (entries: seq<Entry>)
    ensures |entries| == |AttachmentsOf(msg)|
    ensures forall i :: 0 <= i < |entries| ==>
      var p := AttachmentsOf(msg)[i];
      && entries[i].index == i && entries[i].contentType == p.contentType && entries[i].size == |p.payload|
      && entries[i].filename == if p.filename != "" then p.filename else "attachment_" + Decimal(i)
  {
    if !msg.Multipart? { return []; }
    entries := [];
    var idx := 0;
    var parts := Walk(msg);
    for i := 0 to |parts|
      invariant idx == |entries| == |Numbered(parts[..i])|
      invariant forall k :: 0 <= k < idx ==>
        var p := Numbered(parts[..i])[k];
        entries[k] == Entry(k, NameOf(p, k), p.contentType, |p.payload|)
    {
      var part := parts[i];
      assert parts[..i + 1][..i] == parts[..i];
      if part.Multipart? { continue; }
      if part.contentType in {"text/plain", "text/html"} && !Contains(part.disposition, "attachment") { continue; }
      entries := entries + [Entry(idx, NameOf(part, idx), part.contentType, |part.payload|)];
      idx := idx + 1;
    }
    assert parts[..|parts|] == parts;
  }

  // `_extract_attachment_to_disk`, up to the writing of the file.
  method ExtractAttachment(msg: Part, index: int) returns (found: Option<Extracted>)
    ensures var all := AttachmentsOf(msg);
      && (found.Some? <==> 0 <= index < |all| && all[index].payload != [])
      && (found.Some? ==> found.value.payload == all[index].payload)
      && (found.Some? ==>
            found.value.filename
            == if all[index].filename != "" then all[index].filename else "attachment_" + Decimal(index))
  {
    if !msg.Multipart? { return None; }
    var idx := 0;
    var parts := Walk(msg);
    for i := 0 to |parts|
      invariant idx == |Numbered(parts[..i])| && (idx <= index || index < 0)
    {
      var part := parts[i];
      assert parts[..i + 1][..i] == parts[..i];
      if part.Multipart? { continue; }
      if part.contentType in {"text/plain", "text/html"} && !Contains(part.disposition, "attachment") { continue; }
      if idx == index {
        NumberedPrefix(parts, i + 1);
        if part.payload == [] { return None; }
        return Some(Extracted(NameOf(part, idx), part.payload));
      }
      idx := idx + 1;
    }
    assert parts[..|parts|] == parts;
    return None;
  }

  lemma {:induction false} NumberedPrefix(parts: seq<Part>, i: nat)
    requires i <= |parts|
    ensures Numbered(parts[..i]) <= Numbered(parts)
    decreases |parts| - i
  {
    if i == |parts| {
      assert parts[..i] == parts;
    } else {
      assert parts[..i + 1][..i] == parts[..i];
      NumberedPrefix(parts, i + 1);
    }
  }

  // The two numberings agree: an index extracts something exactly when the
  // listing has an entry for it that is not empty, and then it extracts that
  // entry's name and as many bytes.
  method ListThenExtract(msg: Part, index: int) returns (entries: seq<Entry>, found: Option<Extracted>)
    ensures found.Some? <==> exists i :: 0 <= i < |entries| && entries[i].index == index && entries[i].size > 0
    ensures found.Some? ==> 0 <= index < |entries| && found.value.filename == entries[index].filename
    ensures found.Some? ==> |found.value.payload| == entries[index].size
    ensures forall i :: 0 <= i < |entries| ==> entries[i].index == i
  {
    entries := ListAttachments(msg);
    found := ExtractAttachment(msg, index);
    if found.Some? { assert entries[index].index == index; }
  }
}
