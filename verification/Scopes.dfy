// API token scopes: what a request asks for, closed under the read scopes its
// write scopes need, and the comma-separated form it is stored in.

module Scopes {
  import opened Wrappers
  import opened Strings

  const DEFAULT_SCOPES := "chat"

  const ALLOWED_SCOPES: set<string> := {
    "chat", "todos:read", "todos:write", "documents:read", "documents:write", "email:read", "email:draft",
    "email:send", "calendar:read", "calendar:write", "memory:read", "memory:write"}

  const TOKEN_PROFILES: map<string, seq<string>> := map[
    "chat" := ["chat"],
    "codex_todos" := ["todos:read", "todos:write"],
    "codex_email_drafts" := ["email:read", "email:draft", "documents:read", "documents:write"]]

  // A scope that writes and the scope that has to come with it.
  datatype Pair = Pair(write: string, read: string)

  // In the order they are ensured.
  const PAIRS: seq<Pair> := [
    Pair("todos:write", "todos:read"), Pair("documents:write", "documents:read"),
    Pair("calendar:write", "calendar:read"), Pair("memory:write", "memory:read"), Pair("email:draft", "email:read")]

  datatype Argument = NoScopes | ScopeText(text: string) | ScopeList(items: seq<string>)
  datatype Error = UnknownProfile | UnknownScope(scope: string)

  // `[s.strip() for s in parts if s.strip()]`
  function Cleaned(parts: seq<string>): (r: seq<string>)
    ensures forall s :: s in r ==> s != "" && Trimmed(s)
  {
    if parts == [] then []
    else
      StripTrims(parts[0]);
      (if Strip(parts[0]) != "" then [Strip(parts[0])] else []) + Cleaned(parts[1..])
  }

  // `[s.strip() for s in text.replace(" ", ",").split(",") if s.strip()]`
  function Read(text: string): seq<string> {
    Cleaned(Split(Replace(text, " ", ","), ','))
  }

  function Requested(scopes: Argument, profile: string): Result<seq<string>, Error> {
    var key := Strip(profile);
    if key != "" then
      if key in TOKEN_PROFILES then Success(TOKEN_PROFILES[key]) else Failure(UnknownProfile)
    else
      match scopes
      case ScopeList(items) => Success(Cleaned(items))
      case ScopeText(text) =>
        if text != "" then Success(Read(text)) else Success([DEFAULT_SCOPES])
      case NoScopes => Success([DEFAULT_SCOPES])
  }

  // A profile decides by itself; without one, and without scopes, it is "chat".
  lemma ProfileFirst(scopes: Argument, other: Argument, profile: string)
    ensures Strip(profile) != "" ==>
      Requested(scopes, profile) == Requested(other, profile)
      && (Requested(scopes, profile).Success? <==> Strip(profile) in {"chat", "codex_todos", "codex_email_drafts"})
    ensures Strip(profile) == "" ==>
      Requested(NoScopes, profile) == Requested(ScopeText(""), profile) == Success(["chat"])
      && Requested(ScopeList([]), profile) == Success([])
  {}

  // The requested text: words set apart by blanks and commas.
  predicate Word(w: string) {
    w != "" && ' ' !in w && ',' !in w && Trimmed(w)
  }

  predicate Gap(g: string) {
    forall c :: c in g ==> c in {' ', ','}
  }

  function WrittenOut(words: seq<string>, gaps: seq<string>): string
    requires |gaps| == |words| + 1
  {
    if words == [] then gaps[0] else gaps[0] + words[0] + WrittenOut(words[1..], gaps[1..])
  }

  lemma {:induction false} ReadGap(g: string, text: string)
    requires Gap(g)
    ensures Read(g + text) == Read(text)
  {
    if g == "" {
      assert g + text == text;
    } else {
      var rest := g[1..] + text;
      assert g + text == [g[0]] + rest;
      ReplaceCharConcat([g[0]], rest, ' ', ",");
      ReplaceOne(g[0], ' ', ",");
      assert g[0] in g;
      SplitWord("", Replace(rest, " ", ","), ',');
      assert "" + [','] + Replace(rest, " ", ",") == "," + Replace(rest, " ", ",");
      CleanedOne("", Split(Replace(rest, " ", ","), ','));
      hide Replace, Split, Cleaned;
      assert forall c :: c in g[1..] ==> c in g;
      ReadGap(g[1..], text);
    }
  }

  lemma CleanedOne(part: string, parts: seq<string>)
    ensures Cleaned([part] + parts) == (if Strip(part) != "" then [Strip(part)] else []) + Cleaned(parts)
  {
    assert ([part] + parts)[1..] == parts;
  }

  lemma ReadWord(w: string, c: char, text: string)
    requires Word(w) && c in {' ', ','}
    ensures Read(w + [c] + text) == [w] + Read(text) && Read(w) == [w]
  {
    var rest := Replace(text, " ", ",");
    ReplaceSkips(w, [c] + text, " ", ",");
    ReplaceCharConcat([c], text, ' ', ",");
    ReplaceOne(c, ' ', ",");
    assert w + [c] + text == w + ([c] + text) && w + ("," + rest) == w + [','] + rest;
    ReplaceSkips(w, "", " ", ",");
    assert w + "" == w && Replace("", " ", ",") == "";
    SplitWord(w, rest, ',');
    StripFixes(w);
    CleanedOne(w, Split(rest, ','));
    CleanedOne(w, []);
    assert [w] + [] == [w];
  }

  lemma {:induction false} ReadsWords(words: seq<string>, gaps: seq<string>)
    requires |gaps| == |words| + 1 && (forall w :: w in words ==> Word(w)) && (forall g :: g in gaps ==> Gap(g))
    requires forall i :: 0 < i < |words| ==> gaps[i] != ""
    ensures Read(WrittenOut(words, gaps)) == words
    decreases |words|
  {
    hide Word, Gap, Read;
    if words == [] {
      ReadGap(gaps[0], "");
      assert gaps[0] + "" == gaps[0];
      NothingRead();
    } else {
      var w, rest := words[0], WrittenOut(words[1..], gaps[1..]);
      assert WrittenOut(words, gaps) == gaps[0] + (w + rest);
      ReadGap(gaps[0], w + rest);
      SomethingWritten(words[1..], gaps[1..]);
      assert |words| > 1 ==> words[1..][0] in words;
      if rest == "" {
        ReadWord(w, ' ', "");
        assert w + rest == w;
      } else {
        ReadsWords(words[1..], gaps[1..]);
        StartsWithGap(words[1..], gaps[1..]);
        ReadWord(w, rest[0], rest[1..]);
        assert rest == [rest[0]] + rest[1..] && w + rest == w + [rest[0]] + rest[1..];
        ReadGap([rest[0]], rest[1..]) by { OneGap(rest[0]); }
      }
    }
  }

  // However the words are set apart, they are what is requested.
  lemma RequestedWords(words: seq<string>, gaps: seq<string>, profile: string)
    requires |gaps| == |words| + 1 && (forall w :: w in words ==> Word(w)) && (forall g :: g in gaps ==> Gap(g))
    requires (forall i :: 0 < i < |words| ==> gaps[i] != "") && words != [] && Strip(profile) == ""
    ensures Requested(ScopeText(WrittenOut(words, gaps)), profile) == Success(words)
  {
    ReadsWords(words, gaps);
    SomethingWritten(words, gaps);
    hide Read, WrittenOut, Strip;
  }

  lemma OneGap(c: char)
    requires c in {' ', ','}
    ensures Gap([c])
  {}

  lemma NothingRead()
    ensures Read("") == []
  {
    assert Split("", ',') == [""] && [""][1..] == [];
  }

  lemma SomethingWritten(words: seq<string>, gaps: seq<string>)
    requires |gaps| == |words| + 1
    ensures words != [] && Word(words[0]) ==> WrittenOut(words, gaps) != ""
  {}

  // What follows a word starts with a blank or a comma, if anything follows.
  lemma StartsWithGap(words: seq<string>, gaps: seq<string>)
    requires |gaps| == |words| + 1 && WrittenOut(words, gaps) != "" && (forall g :: g in gaps ==> Gap(g))
    requires words != [] ==> gaps[0] != ""
    ensures WrittenOut(words, gaps)[0] in {' ', ','}
  {
    assert gaps[0] in gaps;
    assert gaps[0] != "" && WrittenOut(words, gaps)[0] == gaps[0][0] && gaps[0][0] in gaps[0];
  }

  // First occurrences, in order.
  function Dedupe(l: seq<string>): seq<string> {
    if l == [] then []
    else
      var n := |l| - 1;
      if l[n] in l[..n] then Dedupe(l[..n]) else Dedupe(l[..n]) + [l[n]]
  }

  function IndexOf(l: seq<string>, x: string): (i: nat)
    requires x in l
    ensures i < |l| && l[i] == x && x !in l[..i]
  {
    if l[0] == x then 0 else 1 + IndexOf(l[1..], x)
  }

  // `ensure_before`
  function EnsureBefore(l: seq<string>, p: Pair): seq<string> {
    if p.write !in l || p.read in l then l
    else
      var i := IndexOf(l, p.write);
      l[..i] + [p.read] + l[i..]
  }

  function Close(l: seq<string>, pairs: seq<Pair>): seq<string> {
    if pairs == [] then l else EnsureBefore(Close(l, pairs[..|pairs| - 1]), pairs[|pairs| - 1])
  }

  predicate Allowed(s: string) { s in ALLOWED_SCOPES }

  predicate AllAllowed(l: seq<string>) {
    forall s :: s in l ==> Allowed(s)
  }

  // What a list of requested scopes becomes.
  function Normalized(requested: seq<string>): seq<string> {
    if requested == [] then [DEFAULT_SCOPES] else Close(Dedupe(requested), PAIRS)
  }

  // `_normalize_scopes`
  method NormalizeScopes(scopes: Argument, profile: string) returns (r: Result<seq<string>, Error>)
    ensures Requested(scopes, profile).Failure? ==> r == Failure(UnknownProfile)
    ensures Requested(scopes, profile).Success? ==> Answers(Requested(scopes, profile).value, r)
  {
    hide Requested, Answers;
    var requested := Requested(scopes, profile);
    if requested.Failure? { return Failure(UnknownProfile); }
    r := NormalizeList(requested.value);
  }

  // The normal form, or the first scope that is not allowed.
  ghost predicate Answers(requested: seq<string>, r: Result<seq<string>, Error>) {
    (r.Success? <==> AllAllowed(requested))
    && (r.Success? ==> r.value == Normalized(requested))
    && (r.Failure? ==> exists i :: 0 <= i < |requested| && r == Failure(UnknownScope(requested[i]))
                         && !Allowed(requested[i]) && AllAllowed(requested[..i]))
  }

  method NormalizeList(requested: seq<string>) returns (r: Result<seq<string>, Error>)
    ensures Answers(requested, r)
  {
    hide Allowed;
    var normalized: seq<string> := [];
    for i := 0 to |requested|
      invariant normalized == Dedupe(requested[..i]) && AllAllowed(requested[..i])
    {
      assert requested[..i + 1][..i] == requested[..i] && requested[..i + 1] == requested[..i] + [requested[i]];
      if !Allowed(requested[i]) { return Failure(UnknownScope(requested[i])); }
      DedupeSame(requested[..i]);
      if requested[i] !in normalized { normalized := normalized + [requested[i]]; }
    }
    assert requested[..|requested|] == requested;
    normalized := EnsureReads(normalized, PAIRS);
    NormalizedIs(requested);
    return Success(if normalized == [] then [DEFAULT_SCOPES] else normalized);
  }

  lemma NormalizedIs(requested: seq<string>)
    ensures var l := Close(Dedupe(requested), PAIRS);
            Normalized(requested) == if l == [] then [DEFAULT_SCOPES] else l
  {
    if requested != [] {
      DedupeSame(requested);
      CloseHas(Dedupe(requested), PAIRS, requested[0]);
    } else {
      CloseEmpty(PAIRS);
    }
  }

  // `ensure_before`, once for each pair, in place.
  method EnsureReads(scopes: seq<string>, pairs: seq<Pair>) returns (normalized: seq<string>)
    ensures normalized == Close(scopes, pairs)
  {
    normalized := scopes;
    for k := 0 to |pairs|
      invariant normalized == Close(scopes, pairs[..k])
    {
      assert pairs[..k + 1][..k] == pairs[..k];
      var p := pairs[k];
      if p.write in normalized && p.read !in normalized {
        var idx := IndexOf(normalized, p.write);
        normalized := normalized[..idx] + [p.read] + normalized[idx..];
      }
    }
    assert pairs[..|pairs|] == pairs;
  }

  // ------------------------------------------------------------ properties

  predicate Distinct(l: seq<string>) {
    forall i, j :: 0 <= i < j < |l| ==> l[i] != l[j]
  }

  lemma {:induction false} DedupeSame(l: seq<string>)
    ensures forall x :: x in Dedupe(l) <==> x in l
    ensures Distinct(Dedupe(l))
  {
    if l != [] {
      var n := |l| - 1;
      DedupeSame(l[..n]);
      assert l == l[..n] + [l[n]];
      assert l[n] !in l[..n] ==> l[n] !in Dedupe(l[..n]);
    }
  }

  lemma IndexOfUnique(l: seq<string>, x: string, i: nat)
    requires i < |l| && l[i] == x && x !in l[..i]
    ensures IndexOf(l, x) == i
  {
    var k := IndexOf(l, x);
    assert forall m :: 0 <= m < i ==> l[..i][m] == l[m];
    assert forall m :: 0 <= m < k ==> l[..k][m] == l[m];
  }

  lemma IndexOfAppend(l: seq<string>, z: string, x: string)
    ensures x in l ==> IndexOf(l + [z], x) == IndexOf(l, x)
    ensures x !in l && x == z ==> IndexOf(l + [z], x) == |l|
  {
    if x in l {
      var i := IndexOf(l, x);
      assert (l + [z])[..i] == l[..i];
      IndexOfUnique(l + [z], x, i);
    } else if x == z {
      assert (l + [z])[..|l|] == l;
      IndexOfUnique(l + [z], x, |l|);
    }
  }

  // Of two scopes the one asked for first comes first.
  lemma {:induction false} DedupeOrder(l: seq<string>, x: string, y: string)
    requires x in l && y in l
    ensures x in Dedupe(l) && y in Dedupe(l)
    ensures IndexOf(Dedupe(l), x) < IndexOf(Dedupe(l), y) <==> IndexOf(l, x) < IndexOf(l, y)
  {
    DedupeSame(l);
    var n := |l| - 1;
    var init := l[..n];
    assert l == init + [l[n]];
    DedupeSame(init);
    IndexOfAppend(init, l[n], x);
    IndexOfAppend(init, l[n], y);
    IndexOfAppend(Dedupe(init), l[n], x);
    IndexOfAppend(Dedupe(init), l[n], y);
    hide IndexOf;
    if x in init && y in init { DedupeOrder(init, x, y); }
  }

  lemma {:induction false} DedupeFixes(l: seq<string>)
    requires Distinct(l)
    ensures Dedupe(l) == l
  {
    if l != [] {
      DedupeFixes(l[..|l| - 1]);
    }
  }

  // The scopes of l that are in s, in order.
  function Keep(l: seq<string>, s: set<string>): seq<string> {
    if l == [] then [] else (if l[0] in s then [l[0]] else []) + Keep(l[1..], s)
  }

  lemma {:induction false} KeepConcat(a: seq<string>, b: seq<string>, s: set<string>)
    ensures Keep(a + b, s) == Keep(a, s) + Keep(b, s)
  {
    if a == [] {
      assert a + b == b;
    } else {
      assert (a + b)[1..] == a[1..] + b;
      KeepConcat(a[1..], b, s);
    }
  }

  lemma {:induction false} KeepAll(l: seq<string>, s: set<string>)
    requires forall x :: x in l ==> x in s
    ensures Keep(l, s) == l
  {
    if l != [] {
      assert l == [l[0]] + l[1..];
      KeepAll(l[1..], s);
    }
  }

  ghost predicate Adjacent(l: seq<string>, r: string, w: string) {
    exists i :: 0 <= i < |l| - 1 && l[i] == r && l[i + 1] == w
  }

  function InsertAt(l: seq<string>, i: nat, x: string): seq<string>
    requires i <= |l|
  {
    l[..i] + [x] + l[i..]
  }

  lemma InsertFacts(l: seq<string>, i: nat, x: string)
    requires Distinct(l) && i <= |l| && x !in l
    ensures Distinct(InsertAt(l, i, x))
    ensures forall y :: y in InsertAt(l, i, x) <==> y in l || y == x
  {
    assert l == l[..i] + l[i..];
  }

  lemma InsertKeeps(l: seq<string>, i: nat, x: string, s: set<string>)
    requires i <= |l| && x !in s
    ensures Keep(InsertAt(l, i, x), s) == Keep(l, s)
  {
    assert Keep([x], s) == [];
    hide Keep;
    var a, b := l[..i], l[i..];
    assert l == a + b;
    KeepConcat(a, b, s);
    KeepConcat(a, [x], s);
    KeepConcat(a + [x], b, s);
    assert Keep(a, s) + [] == Keep(a, s);
  }

  lemma EnsureBeforeFacts(l: seq<string>, p: Pair, s: set<string>)
    requires Distinct(l) && forall x :: x in s ==> x in l
    ensures var l' := EnsureBefore(l, p);
      Distinct(l') && (forall x :: x in l' <==> x in l || (x == p.read && p.write in l)) && Keep(l', s) == Keep(l, s)
    ensures p.write in l && p.read !in l ==> Adjacent(EnsureBefore(l, p), p.read, p.write)
  {
    if p.write in l && p.read !in l {
      var i := IndexOf(l, p.write);
      var l' := EnsureBefore(l, p);
      assert l' == InsertAt(l, i, p.read);
      InsertFacts(l, i, p.read);
      InsertKeeps(l, i, p.read, s);
      assert l'[i] == p.read && l'[i + 1] == p.write;
      hide Keep, Distinct;
    }
  }

  // A pair that sits together is not parted by an insertion for another one.
  lemma AdjacencyKept(l: seq<string>, p: Pair, r: string, w: string)
    requires Adjacent(l, r, w) && w != p.write
    ensures Adjacent(EnsureBefore(l, p), r, w)
  {
    if p.write in l && p.read !in l {
      var i := IndexOf(l, p.write);
      var l' := EnsureBefore(l, p);
      var k :| 0 <= k < |l| - 1 && l[k] == r && l[k + 1] == w;
      if k + 1 < i {
        assert l'[k] == r && l'[k + 1] == w;
      } else {
        assert k + 1 != i;
        assert l'[k + 1] == r && l'[k + 2] == w;
      }
    }
  }

  // The pairs have nothing in common.
  predicate Separate(pairs: seq<Pair>) {
    (forall i, j :: 0 <= i < j < |pairs| ==> pairs[i].write != pairs[j].write && pairs[i].read != pairs[j].read)
    && forall i, j :: 0 <= i < |pairs| && 0 <= j < |pairs| ==> pairs[i].read != pairs[j].write
  }

  ghost predicate Needed(l: seq<string>, pairs: seq<Pair>, x: string) {
    exists i :: 0 <= i < |pairs| && pairs[i].read == x && pairs[i].write in l
  }

  ghost predicate Closed(l: seq<string>, l': seq<string>, pairs: seq<Pair>) {
    && Distinct(l')
    && (forall x :: x in l' <==> x in l || Needed(l, pairs, x))
    && Keep(l', set x <- l) == l
    && forall i :: 0 <= i < |pairs| && pairs[i].write in l && pairs[i].read !in l
                ==> Adjacent(l', pairs[i].read, pairs[i].write)
  }

  // The result has no duplicates and holds what was there, in order, and
  // exactly the missing read scopes, each immediately before its write scope.
  lemma {:induction false} CloseRight(l: seq<string>, pairs: seq<Pair>)
    requires Distinct(l) && Separate(pairs)
    ensures Closed(l, Close(l, pairs), pairs)
  {
    if pairs == [] {
      KeepAll(l, set x <- l);
    } else {
      var n := |pairs| - 1;
      var p := pairs[n];
      assert Separate(pairs[..n]);
      CloseRight(l, pairs[..n]);
      CloseStep(l, Close(l, pairs[..n]), pairs);
    }
  }

  lemma CloseStep(l: seq<string>, mid: seq<string>, pairs: seq<Pair>)
    requires pairs != [] && Separate(pairs) && Closed(l, mid, pairs[..|pairs| - 1])
    ensures Closed(l, EnsureBefore(mid, pairs[|pairs| - 1]), pairs)
  {
    hide Keep, Adjacent, EnsureBefore, Distinct, Needed, Separate;
    CloseMembers(l, mid, pairs);
    EnsureBeforeFacts(mid, pairs[|pairs| - 1], set x <- l);
    forall i | 0 <= i < |pairs| && pairs[i].write in l && pairs[i].read !in l
      ensures Adjacent(EnsureBefore(mid, pairs[|pairs| - 1]), pairs[i].read, pairs[i].write)
    {
      AddedStep(l, mid, pairs, i);
    }
  }

  lemma CloseMembers(l: seq<string>, mid: seq<string>, pairs: seq<Pair>)
    requires pairs != [] && Separate(pairs) && Closed(l, mid, pairs[..|pairs| - 1])
    ensures forall x :: x in EnsureBefore(mid, pairs[|pairs| - 1]) <==> x in l || Needed(l, pairs, x)
  {
    hide Keep, Adjacent, EnsureBefore, Distinct, Needed, Separate;
    var p := pairs[|pairs| - 1];
    EnsureBeforeFacts(mid, p, {});
    WritesNotAdded(l, pairs);
    forall x
      ensures x in EnsureBefore(mid, p) <==> x in l || Needed(l, pairs, x)
    {
      NeededStep(l, pairs, x);
    }
  }

  lemma WritesNotAdded(l: seq<string>, pairs: seq<Pair>)
    requires pairs != [] && Separate(pairs)
    ensures !Needed(l, pairs[..|pairs| - 1], pairs[|pairs| - 1].write)
  {
    var n := |pairs| - 1;
    assert forall i :: 0 <= i < n ==> pairs[i].read != pairs[n].write && pairs[..n][i] == pairs[i];
  }

  lemma NeededStep(l: seq<string>, pairs: seq<Pair>, x: string)
    requires pairs != []
    ensures Needed(l, pairs, x) <==>
      Needed(l, pairs[..|pairs| - 1], x) || (pairs[|pairs| - 1].read == x && pairs[|pairs| - 1].write in l)
  {
    var n := |pairs| - 1;
    if Needed(l, pairs[..n], x) {
      var i :| 0 <= i < n && pairs[..n][i].read == x && pairs[..n][i].write in l;
      assert pairs[i].read == x;
    }
    if Needed(l, pairs, x) {
      var i :| 0 <= i < |pairs| && pairs[i].read == x && pairs[i].write in l;
      if i < n { assert pairs[..n][i].read == x; }
    }
  }

  lemma AddedStep(l: seq<string>, mid: seq<string>, pairs: seq<Pair>, i: nat)
    requires pairs != [] && Separate(pairs) && Closed(l, mid, pairs[..|pairs| - 1])
    requires i < |pairs| && pairs[i].write in l && pairs[i].read !in l
    ensures Adjacent(EnsureBefore(mid, pairs[|pairs| - 1]), pairs[i].read, pairs[i].write)
  {
    hide EnsureBefore, Adjacent, Keep;
    var n := |pairs| - 1;
    var p, init := pairs[n], pairs[..n];
    if i < n {
      assert init[i] == pairs[i];
      AdjacencyKept(mid, p, pairs[i].read, pairs[i].write);
    } else {
      assert forall h :: 0 <= h < n ==> init[h].read != p.read;
      EnsureBeforeFacts(mid, p, set x <- l);
    }
  }

  lemma CloseHas(l: seq<string>, pairs: seq<Pair>, x: string)
    requires x in l
    ensures x in Close(l, pairs)
  {
    if pairs != [] { CloseHas(l, pairs[..|pairs| - 1], x); }
  }

  lemma CloseEmpty(pairs: seq<Pair>)
    ensures Close([], pairs) == []
  {
    if pairs != [] { CloseEmpty(pairs[..|pairs| - 1]); }
  }

  lemma {:induction false} CloseFixes(l: seq<string>, pairs: seq<Pair>)
    requires forall i :: 0 <= i < |pairs| && pairs[i].write in l ==> pairs[i].read in l
    ensures Close(l, pairs) == l
  {
    if pairs != [] {
      var n := |pairs| - 1;
      assert forall i :: 0 <= i < n ==> pairs[..n][i] == pairs[i];
      CloseFixes(l, pairs[..n]);
    }
  }

  // Different pairs differ in their first letter, and the two scopes of a pair
  // in their length.
  lemma SeparateByInitials(pairs: seq<Pair>, initials: string)
    requires |initials| == |pairs| && Distinct(seq(|initials|, i requires 0 <= i < |initials| => [initials[i]]))
    requires forall i :: 0 <= i < |pairs| ==>
      pairs[i].write != "" && pairs[i].read != "" && pairs[i].write[0] == pairs[i].read[0] == initials[i]
      && |pairs[i].read| + 1 == |pairs[i].write|
    ensures Separate(pairs)
  {
    var letters := seq(|initials|, i requires 0 <= i < |initials| => [initials[i]]);
    forall i, j | 0 <= i < |pairs| && 0 <= j < |pairs| && i != j
      ensures initials[i] != initials[j]
    {
      assert letters[i] != letters[j];
    }
  }

  lemma PairsSeparate()
    ensures Separate(PAIRS)
  {
    SeparateByInitials(PAIRS, "tdcme");
  }

  // The whole contract of the normaliser on a non-empty request.
  lemma NormalizedRight(requested: seq<string>)
    requires requested != []
    ensures Closed(Dedupe(requested), Normalized(requested), PAIRS)
  {
    DedupeSame(requested);
    PairsSeparate();
    CloseRight(Dedupe(requested), PAIRS);
  }

  // Normalising a normalised list changes nothing.
  lemma NormalizedIdempotent(requested: seq<string>)
    ensures Normalized(Normalized(requested)) == Normalized(requested)
  {
    if requested == [] {
      DefaultCloses();
    } else {
      var d, l' := Dedupe(requested), Normalized(requested);
      DedupeSame(requested);
      assert requested[0] in d;
      CloseHas(d, PAIRS, requested[0]);
      NormalizedRight(requested);
      PairsSeparate();
      DedupeFixes(l');
      forall i | 0 <= i < |PAIRS| && PAIRS[i].write in l'
        ensures PAIRS[i].read in l'
      {
        assert !Needed(d, PAIRS, PAIRS[i].write);
        assert Needed(d, PAIRS, PAIRS[i].read);
      }
      CloseFixes(l', PAIRS);
    }
  }

  lemma DefaultCloses()
    ensures Normalized([DEFAULT_SCOPES]) == [DEFAULT_SCOPES]
  {
    assert Distinct([DEFAULT_SCOPES]);
    DedupeFixes([DEFAULT_SCOPES]);
    forall i | 0 <= i < |PAIRS|
      ensures PAIRS[i].write !in [DEFAULT_SCOPES]
    {
      assert i == 0 || i == 1 || i == 2 || i == 3 || i == 4;
    }
    CloseFixes([DEFAULT_SCOPES], PAIRS);
  }

  // ------------------------------------------------------------ storage

  // `",".join(...)`, and the reading of the column in the token cache.
  function Stored(l: seq<string>): string { Join(l, ",") }

  function Loaded(column: string): seq<string> {
    Cleaned(Split(if column == "" then DEFAULT_SCOPES else column, ','))
  }

  predicate Plain(s: string) {
    s != "" && Trimmed(s) && ',' !in s
  }

  lemma {:induction false} CleanedFixes(l: seq<string>)
    requires forall s :: s in l ==> Plain(s)
    ensures Cleaned(l) == l
  {
    if l != [] {
      assert l[0] in l && l == [l[0]] + l[1..];
      StripFixes(l[0]);
      CleanedFixes(l[1..]);
    }
  }

  lemma StorageRoundTrip(l: seq<string>)
    requires l != [] && forall s :: s in l ==> Plain(s)
    ensures Loaded(Stored(l)) == l
  {
    SplitJoin(l, ',');
    assert l[0] in l;
    CleanedFixes(l);
  }

  lemma AllowedPlain(s: string)
    requires s in ALLOWED_SCOPES
    ensures Plain(s)
  {}

  lemma {:induction false} CloseAllowed(l: seq<string>, pairs: seq<Pair>)
    requires AllAllowed(l) && forall p :: p in pairs ==> p.read in ALLOWED_SCOPES
    ensures AllAllowed(Close(l, pairs))
  {
    if pairs != [] {
      CloseAllowed(l, pairs[..|pairs| - 1]);
      assert pairs[|pairs| - 1] in pairs;
    }
  }

  // What a token is granted is read back from its row as it was normalised.
  lemma NormalizedSurvivesStorage(requested: seq<string>)
    requires AllAllowed(requested)
    ensures Loaded(Stored(Normalized(requested))) == Normalized(requested)
  {
    var l := Normalized(requested);
    if requested != [] {
      DedupeSame(requested);
      assert forall p :: p in PAIRS ==> p.read in ALLOWED_SCOPES;
      CloseAllowed(Dedupe(requested), PAIRS);
      CloseHas(Dedupe(requested), PAIRS, requested[0]);
    }
    forall s | s in l
      ensures Plain(s)
    {
      AllowedPlain(s);
    }
    StorageRoundTrip(l);
  }
}
