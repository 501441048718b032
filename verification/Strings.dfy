// String operations with the meaning Python gives them, shared by the
// calendar, scope and account models.

module Wrappers {
  datatype Option<+T> = None | Some(value: T)

  datatype Result<+T, +E> = Success(value: T) | Failure(error: E)
}

module Strings {
  // `s.replace(pat, rep)`: leftmost, non-overlapping occurrences.
  function Replace(s: string, pat: string, rep: string): string
    requires pat != ""
    decreases |s|
  {
    if |s| < |pat| then s
    else if pat <= s then rep + Replace(s[|pat|..], pat, rep)
    else [s[0]] + Replace(s[1..], pat, rep)
  }

  // Replacing one character distributes over concatenation.
  lemma {:induction false} ReplaceCharConcat(a: string, b: string, c: char, rep: string)
    ensures Replace(a + b, [c], rep) == Replace(a, [c], rep) + Replace(b, [c], rep)
  {
    if a == "" {
      assert a + b == b;
    } else {
      assert (a + b)[1..] == a[1..] + b;
      ReplaceCharConcat(a[1..], b, c, rep);
    }
  }

  lemma ReplaceStep(s: string, pat: string, rep: string)
    requires pat != "" && s != "" && s[0] != pat[0]
    ensures Replace(s, pat, rep) == [s[0]] + Replace(s[1..], pat, rep)
  {
    NoMatchAt(s, pat);
    if |s| < |pat| {
      assert s == [s[0]] + s[1..];
    }
  }

  // A string without the first character of the pattern passes through.
  lemma {:induction false} ReplaceSkips(a: string, b: string, pat: string, rep: string)
    requires pat != "" && pat[0] !in a
    ensures Replace(a + b, pat, rep) == a + Replace(b, pat, rep)
  {
    hide Replace;
    if a == "" {
      assert a + b == b;
    } else {
      assert a[0] in a && (a + b)[1..] == a[1..] + b;
      ReplaceStep(a + b, pat, rep);
      ReplaceSkips(a[1..], b, pat, rep);
      assert a + Replace(b, pat, rep) == [a[0]] + (a[1..] + Replace(b, pat, rep));
    }
  }

  lemma NoMatchAt(s: string, pat: string)
    requires pat != "" && s != "" && s[0] != pat[0]
    ensures !(pat <= s)
  {}

  lemma ReplaceOne(c: char, pat: char, rep: string)
    ensures Replace([c], [pat], rep) == if c == pat then rep else [c]
  {
    assert [c][1..] == "";
    if c != pat { NoMatchAt([c], [pat]); }
  }

  // `pat in s`
  predicate Contains(s: string, pat: string) {
    pat <= s || (s != "" && Contains(s[1..], pat))
  }

  predicate IsSpace(c: char) {
    c in {' ', '\t', '\n', '\r'} || c as int == 11 || c as int == 12
  }

  function StripLeft(s: string): string {
    if s != "" && IsSpace(s[0]) then StripLeft(s[1..]) else s
  }

  function StripRight(s: string): string {
    if s != "" && IsSpace(s[|s| - 1]) then StripRight(s[..|s| - 1]) else s
  }

  // `s.strip()`
  function Strip(s: string): string { StripRight(StripLeft(s)) }

  function LowerChar(c: char): char {
    if 'A' <= c <= 'Z' then ((c as int) + 32) as char else c
  }

  // `s.lower()` on ASCII letters.
  function Lower(s: string): (r: string)
    ensures |r| == |s|
    ensures forall i :: 0 <= i < |s| ==> r[i] == LowerChar(s[i])
  {
    if s == "" then "" else [LowerChar(s[0])] + Lower(s[1..])
  }

  predicate Trimmed(s: string) {
    s != "" ==> !IsSpace(s[0]) && !IsSpace(s[|s| - 1])
  }

  lemma {:induction false} StripLeftClean(s: string)
    ensures StripLeft(s) != "" ==> !IsSpace(StripLeft(s)[0])
  {
    if s != "" && IsSpace(s[0]) { StripLeftClean(s[1..]); }
  }

  lemma {:induction false} StripRightClean(s: string)
    ensures StripRight(s) <= s
    ensures StripRight(s) != "" ==> !IsSpace(StripRight(s)[|StripRight(s)| - 1])
  {
    if s != "" && IsSpace(s[|s| - 1]) { StripRightClean(s[..|s| - 1]); }
  }

  lemma StripTrims(s: string)
    ensures Trimmed(Strip(s))
  {
    StripLeftClean(s);
    StripRightClean(StripLeft(s));
  }

  lemma StripFixes(s: string)
    requires Trimmed(s)
    ensures Strip(s) == s
  {}

  predicate AllSpace(s: string) {
    forall c :: c in s ==> IsSpace(c)
  }

  // What is stripped is the white space at both ends.
  lemma StripSplits(s: string) returns (left: string, right: string)
    ensures s == left + Strip(s) + right && AllSpace(left) && AllSpace(right)
  {
    left := StripLeftSplits(s);
    right := StripRightSplits(StripLeft(s));
  }

  lemma {:induction false} StripLeftSplits(s: string) returns (left: string)
    ensures s == left + StripLeft(s) && AllSpace(left)
  {
    left := "";
    if s != "" && IsSpace(s[0]) {
      left := StripLeftSplits(s[1..]);
      left := [s[0]] + left;
      assert s == [s[0]] + s[1..];
    }
  }

  lemma {:induction false} StripRightSplits(s: string) returns (right: string)
    ensures s == StripRight(s) + right && AllSpace(right)
  {
    right := "";
    if s != "" && IsSpace(s[|s| - 1]) {
      var n := |s| - 1;
      right := StripRightSplits(s[..n]);
      right := right + [s[n]];
      assert s == s[..n] + [s[n]];
    }
  }

  lemma {:induction false} StripLeftPadded(s: string, left: string)
    requires AllSpace(left)
    ensures StripLeft(left + s) == StripLeft(s)
  {
    if left == "" {
      assert left + s == s;
    } else {
      assert (left + s)[1..] == left[1..] + s;
      StripLeftPadded(s, left[1..]);
    }
  }

  lemma {:induction false} StripRightPadded(s: string, right: string)
    requires AllSpace(right)
    ensures StripRight(s + right) == StripRight(s)
  {
    if right == "" {
      assert s + right == s;
    } else {
      var n := |right| - 1;
      assert (s + right)[..|s + right| - 1] == s + right[..n];
      StripRightPadded(s, right[..n]);
    }
  }

  lemma {:induction false} StripAll(s: string)
    requires AllSpace(s)
    ensures StripLeft(s) == "" == StripRight(s)
  {
    StripLeftPadded("", s);
    StripRightPadded("", s);
    assert s + "" == s == "" + s;
  }

  // White space around a string makes no difference to what is left of it.
  lemma StripPadded(s: string, left: string, right: string)
    requires AllSpace(left) && AllSpace(right)
    ensures Strip(left + s + right) == Strip(s)
  {
    assert left + s + right == left + (s + right);
    StripLeftPadded(s + right, left);
    StripRightOfLeft(s, right);
  }

  lemma {:induction false} StripRightOfLeft(s: string, right: string)
    requires AllSpace(right)
    ensures StripRight(StripLeft(s + right)) == StripRight(StripLeft(s))
  {
    if s == "" {
      assert s + right == right;
      StripAll(right);
    } else if IsSpace(s[0]) {
      assert (s + right)[1..] == s[1..] + right;
      StripRightOfLeft(s[1..], right);
    } else {
      StripRightPadded(s, right);
    }
  }

  lemma SpacesHaveNoCase(c: char)
    ensures IsSpace(LowerChar(c)) == IsSpace(c)
  {}

  lemma {:induction false} LowerSlices(s: string)
    ensures s != "" ==> Lower(s)[1..] == Lower(s[1..]) && Lower(s)[..|s| - 1] == Lower(s[..|s| - 1])
  {}

  lemma {:induction false} StripLeftLower(s: string)
    ensures StripLeft(Lower(s)) == Lower(StripLeft(s))
  {
    if s != "" {
      SpacesHaveNoCase(s[0]);
      LowerSlices(s);
      hide Lower;
      StripLeftLower(s[1..]);
    }
  }

  lemma {:induction false} StripRightLower(s: string)
    ensures StripRight(Lower(s)) == Lower(StripRight(s))
  {
    if s != "" {
      SpacesHaveNoCase(s[|s| - 1]);
      LowerSlices(s);
      hide Lower;
      StripRightLower(s[..|s| - 1]);
    }
  }

  lemma StripLower(s: string)
    ensures Strip(Lower(s)) == Lower(Strip(s))
  {
    StripLeftLower(s);
    StripRightLower(StripLeft(s));
  }

  // `s < t` on strings: the first difference decides, and a prefix comes first.
  predicate Less(s: string, t: string) {
    t != "" && (s == "" || s[0] < t[0] || (s[0] == t[0] && Less(s[1..], t[1..])))
  }

  lemma {:induction false} LessAfter(p: string, s: string, t: string)
    ensures Less(p + s, p + t) <==> Less(s, t)
  {
    if p == "" {
      assert p + s == s && p + t == t;
    } else {
      assert (p + s)[1..] == p[1..] + s && (p + t)[1..] == p[1..] + t;
      LessAfter(p[1..], s, t);
    }
  }

  lemma {:induction false} LessBefore(p: string, q: string, s: string, t: string)
    requires |p| == |q| && Less(p, q)
    ensures Less(p + s, q + t)
  {
    assert (p + s)[1..] == p[1..] + s && (q + t)[1..] == q[1..] + t;
    if p[0] == q[0] { LessBefore(p[1..], q[1..], s, t); }
  }

  lemma {:induction false} LessAsymmetric(s: string, t: string)
    ensures !(Less(s, t) && Less(t, s))
  {
    if s != "" && t != "" { LessAsymmetric(s[1..], t[1..]); }
  }

  lemma {:induction false} LessTotal(s: string, t: string)
    ensures Less(s, t) || Less(t, s) || s == t
  {
    if s != "" && t != "" {
      LessTotal(s[1..], t[1..]);
      assert s == [s[0]] + s[1..] && t == [t[0]] + t[1..];
    }
  }

  lemma {:induction false} LessTransitive(s: string, t: string, u: string)
    requires !Less(t, s) && !Less(u, t)
    ensures !Less(u, s)
  {
    if s != "" && t != "" && u != "" && s[0] == t[0] == u[0] {
      LessTransitive(s[1..], t[1..], u[1..]);
    }
  }

  // `str(n)`
  function Decimal(n: nat): string {
    var d := [((n % 10) + '0' as int) as char];
    if n < 10 then d else Decimal(n / 10) + d
  }

  // `sep.join(parts)` and `s.split(sep)` for a one-character separator.
  function Join(parts: seq<string>, sep: string): string {
    if parts == [] then ""
    else if |parts| == 1 then parts[0]
    else parts[0] + sep + Join(parts[1..], sep)
  }

  function Split(s: string, c: char): (parts: seq<string>)
    ensures parts != []
  {
    if s == "" then [""]
    else
      var rest := Split(s[1..], c);
      if s[0] == c then [""] + rest else [[s[0]] + rest[0]] + rest[1..]
  }

  // Splitting a word followed by the separator peels the word off.
  lemma {:induction false} SplitWord(word: string, rest: string, c: char)
    requires c !in word
    ensures Split(word + [c] + rest, c) == [word] + Split(rest, c)
    ensures Split(word, c) == [word]
  {
    if word == "" {
      assert word + [c] + rest == [c] + rest;
    } else {
      SplitWord(word[1..], rest, c);
      assert (word + [c] + rest)[1..] == word[1..] + [c] + rest;
      assert [word[0]] + word[1..] == word;
    }
  }

  // Splitting undoes joining when no part holds the separator.
  lemma {:induction false} SplitJoin(parts: seq<string>, c: char)
    requires parts != []
    requires forall p :: p in parts ==> c !in p
    ensures Split(Join(parts, [c]), c) == parts
  {
    SplitWord(parts[0], Join(parts[1..], [c]), c);
    if |parts| > 1 {
      SplitJoin(parts[1..], c);
    }
  }
}
