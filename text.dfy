/** The JavaScript string operations the pages rely on, on `seq<char>`:
    `trim`, `split(/[\n,]/)`, `startsWith`, `replace(pattern, '')` with a
    string pattern (first occurrence only) and `toUpperCase` of one letter. */
module Text {
  import opened Base

  /** ECMAScript WhiteSpace and LineTerminator code points, the set `trim` removes. */
  predicate IsSpace(c: char) {
    || c == ' ' || c == '\t' || c == '\n' || c == '\r'
    || c == '\U{000B}' || c == '\U{000C}' || c == '\U{00A0}' || c == '\U{FEFF}'
    || c == '\U{1680}' || ('\U{2000}' <= c <= '\U{200A}')
    || c == '\U{2028}' || c == '\U{2029}' || c == '\U{202F}' || c == '\U{205F}'
    || c == '\U{3000}'
  }

  /** Every character is white space. */
  predicate AllSpace(s: string) {
    forall k :: 0 <= k < |s| ==> IsSpace(s[k])
  }

  /** Drops leading white space. */
  function TrimStart(s: string): (r: string)
    ensures |r| <= |s| && r == s[|s| - |r|..]
    ensures AllSpace(s[..|s| - |r|])
    ensures r != [] ==> !IsSpace(r[0])
  {
    if s != [] && IsSpace(s[0]) then TrimStart(s[1..]) else s
  }

  /** Drops trailing white space. */
  function TrimEnd(s: string): (r: string)
    ensures |r| <= |s| && r == s[..|r|]
    ensures AllSpace(s[|r|..])
    ensures r != [] ==> !IsSpace(r[|r| - 1])
  {
    if s != [] && IsSpace(s[|s| - 1]) then TrimEnd(s[..|s| - 1]) else s
  }

  /** A string that `trim` leaves alone: empty or without white space at either end. */
  predicate IsTrimmed(s: string) {
    s == [] || (!IsSpace(s[0]) && !IsSpace(s[|s| - 1]))
  }

  /** `s.trim()`; `TrimSlice` says which part of `s` it is. */
  function Trim(s: string): (r: string)
    ensures |r| <= |s|
    ensures IsTrimmed(r)
  {
    TrimEnd(TrimStart(s))
  }

  /** `trim` keeps one contiguous slice of the text and cuts off only white space
      before and after it. */
  lemma TrimSlice(s: string) returns (i: nat, j: nat)
    ensures i <= j <= |s| && Trim(s) == s[i..j] && AllSpace(s[..i]) && AllSpace(s[j..])
  {
    var t := TrimStart(s);
    var r := TrimEnd(t);
    i, j := |s| - |t|, |s| - |t| + |r|;
    assert r == s[i..j];
    assert s[j..] == t[|r|..];
  }

  /** Leading white space before a non-blank start is exactly what `TrimStart` drops. */
  lemma {:induction false} TrimStartPadded(a: string, x: string)
    requires AllSpace(a) && x != [] && !IsSpace(x[0])
    ensures TrimStart(a + x) == x
  {
    if a != [] {
      assert (a + x)[1..] == a[1..] + x;
      TrimStartPadded(a[1..], x);
    }
  }

  /** Trailing white space after a non-blank end is exactly what `TrimEnd` drops. */
  lemma {:induction false} TrimEndPadded(x: string, b: string)
    requires AllSpace(b) && x != [] && !IsSpace(x[|x| - 1])
    ensures TrimEnd(x + b) == x
  {
    if b != [] {
      var init := b[..|b| - 1];
      assert (x + b)[..|x + b| - 1] == x + init;
      TrimEndPadded(x, init);
    }
  }

  /** White space around a trimmed, non-empty text is exactly what `trim` removes. */
  lemma TrimPadded(a: string, m: string, b: string)
    requires AllSpace(a) && AllSpace(b)
    requires m != [] && IsTrimmed(m)
    ensures Trim(a + m + b) == m
  {
    assert a + m + b == a + (m + b);
    TrimStartPadded(a, m + b);
    TrimEndPadded(m, b);
  }

  /** `trim` is the identity exactly on trimmed strings, so it is idempotent. */
  lemma TrimFixesTrimmed(s: string)
    ensures Trim(s) == s <==> IsTrimmed(s)
    ensures Trim(Trim(s)) == Trim(s)
  {
    if IsTrimmed(s) {
      assert TrimStart(s) == s;
      assert TrimEnd(s) == s;
    }
    var t := Trim(s);
    if t != [] {
      assert TrimStart(t) == t;
      assert TrimEnd(t) == t;
    }
  }

  /** `!s.trim()`: the trimmed text is empty exactly when every character is white space. */
  lemma {:induction false} TrimEmptyIffBlank(s: string)
    ensures Trim(s) == [] <==> forall i :: 0 <= i < |s| ==> IsSpace(s[i])
  {
    var t := TrimStart(s);
    if t != [] {
      assert !IsSpace(s[|s| - |t|]);
    }
  }

  /** The separators of the legacy favourites format: newline and comma. */
  predicate IsSep(c: char) {
    c == '\n' || c == ','
  }

  predicate NoSep(s: string) {
    forall i :: 0 <= i < |s| ==> !IsSep(s[i])
  }

  /** `s.split(/[\n,]/)`: the maximal separator-free pieces, always at least one. */
  function Split(s: string): (r: seq<string>)
    ensures |r| >= 1
    ensures forall k :: 0 <= k < |r| ==> NoSep(r[k])
  {
    if s == [] then [[]]
    else if IsSep(s[0]) then [[]] + Split(s[1..])
    else
      var rest := Split(s[1..]);
      [[s[0]] + rest[0]] + rest[1..]
  }

  /** Pieces written with one separator between consecutive ones:
      `xs[0] + seps[0] + xs[1] + ... + xs[|xs| - 1]`. */
  function JoinSep(xs: seq<string>, seps: seq<char>): string
    requires |xs| == |seps| + 1
  {
    if |xs| == 1 then xs[0] else xs[0] + [seps[0]] + JoinSep(xs[1..], seps[1..])
  }

  predicate AllSeps(seps: seq<char>) {
    forall k :: 0 <= k < |seps| ==> IsSep(seps[k])
  }

  /** A separator-free text is one piece. */
  lemma {:induction false} SplitNoSep(x: string)
    requires NoSep(x)
    ensures Split(x) == [x]
  {
    if x != [] {
      SplitNoSep(x[1..]);
      assert [x[0]] + x[1..] == x;
    }
  }

  /** A separator-free piece followed by a separator splits off as its own piece. */
  lemma {:induction false} SplitPiece(x: string, t: string)
    requires NoSep(x) && t != [] && IsSep(t[0])
    ensures Split(x + t) == [x] + Split(t[1..])
  {
    if x == [] {
      assert x + t == t;
    } else {
      SplitPiece(x[1..], t);
      assert (x + t)[1..] == x[1..] + t;
      assert [x[0]] + x[1..] == x;
    }
  }

  /** Splitting undoes joining with newlines and commas, when no piece contains a
      separator. */
  lemma {:induction false} SplitJoin(xs: seq<string>, seps: seq<char>)
    requires |xs| == |seps| + 1 && AllSeps(seps)
    requires forall k :: 0 <= k < |xs| ==> NoSep(xs[k])
    ensures Split(JoinSep(xs, seps)) == xs
  {
    if |xs| == 1 {
      SplitNoSep(xs[0]);
    } else {
      var tail := JoinSep(xs[1..], seps[1..]);
      SplitJoin(xs[1..], seps[1..]);
      var t := [seps[0]] + tail;
      SplitPiece(xs[0], t);
      assert t[1..] == tail;
      assert xs[0] + [seps[0]] + tail == xs[0] + t;
      assert xs == [xs[0]] + xs[1..];
    }
  }

  /** Every text is its own pieces joined with the separators found between them. */
  lemma {:induction false} SplitCovers(s: string) returns (seps: seq<char>)
    ensures |seps| + 1 == |Split(s)| && AllSeps(seps)
    ensures JoinSep(Split(s), seps) == s
  {
    if s == [] {
      seps := [];
    } else {
      var rest := Split(s[1..]);
      var more := SplitCovers(s[1..]);
      assert s == [s[0]] + s[1..];
      if IsSep(s[0]) {
        seps := [s[0]] + more;
        var pieces := [[]] + rest;
        assert Split(s) == pieces && pieces[1..] == rest;
        assert JoinSep(pieces, seps) == [] + [s[0]] + JoinSep(rest, more);
      } else {
        seps := more;
        var pieces := [[s[0]] + rest[0]] + rest[1..];
        assert Split(s) == pieces;
        if |rest| == 1 {
          assert JoinSep(pieces, seps) == [s[0]] + rest[0];
        } else {
          assert pieces[1..] == rest[1..];
          var tail := JoinSep(rest[1..], more[1..]);
          assert JoinSep(rest, more) == rest[0] + [more[0]] + tail;
          assert JoinSep(pieces, seps) == ([s[0]] + rest[0]) + [more[0]] + tail;
          assert ([s[0]] + rest[0]) + [more[0]] + tail == [s[0]] + (rest[0] + [more[0]] + tail);
        }
      }
    }
  }

  /** `s.startsWith(p)`. */
  predicate StartsWith(s: string, p: string) {
    |p| <= |s| && s[..|p|] == p
  }

  /** `pat` occurs in `s` at position `i`. */
  predicate OccursAt(s: string, pat: string, i: int) {
    0 <= i && i + |pat| <= |s| && s[i..i + |pat|] == pat
  }

  /** `s.indexOf(pat)` from position `from` on, as an option. */
  function IndexFrom(s: string, pat: string, from: nat): (r: Option<nat>)
    requires from <= |s|
    ensures r.Some? ==> from <= r.value && OccursAt(s, pat, r.value)
    ensures r.Some? ==> forall j :: from <= j < r.value ==> !OccursAt(s, pat, j)
    ensures r.None? ==> forall j :: from <= j <= |s| ==> !OccursAt(s, pat, j)
    decreases |s| - from
  {
    if from + |pat| > |s| then None
    else if s[from..from + |pat|] == pat then Some(from)
    else if from == |s| then None
    else IndexFrom(s, pat, from + 1)
  }

  /** `s.replace(pat, rep)` with a string pattern: only the first occurrence is replaced. */
  function ReplaceFirst(s: string, pat: string, rep: string): (r: string)
  {
    match IndexFrom(s, pat, 0)
    case None => s
    case Some(i) => s[..i] + rep + s[i + |pat|..]
  }

  /** Replacing the first occurrence: the text before it is untouched and has no
      occurrence itself; with no occurrence the string is returned unchanged. */
  lemma ReplaceFirstSpec(s: string, pat: string, rep: string)
    ensures (forall j :: 0 <= j <= |s| ==> !OccursAt(s, pat, j)) ==> ReplaceFirst(s, pat, rep) == s
    ensures forall i :: OccursAt(s, pat, i) && (forall j :: 0 <= j < i ==> !OccursAt(s, pat, j)) ==>
              ReplaceFirst(s, pat, rep) == s[..i] + rep + s[i + |pat|..]
  {
    var r := IndexFrom(s, pat, 0);
    forall i | OccursAt(s, pat, i) && (forall j :: 0 <= j < i ==> !OccursAt(s, pat, j))
      ensures ReplaceFirst(s, pat, rep) == s[..i] + rep + s[i + |pat|..]
    {
      assert r.Some?;
    }
  }

  /** `s.replace(pat, '')`: the first occurrence is cut out, and with none the string
      is returned unchanged. */
  lemma RemoveFirstSpec(s: string, pat: string)
    ensures (forall j :: 0 <= j <= |s| ==> !OccursAt(s, pat, j)) ==> ReplaceFirst(s, pat, "") == s
    ensures forall i :: OccursAt(s, pat, i) && (forall j :: 0 <= j < i ==> !OccursAt(s, pat, j)) ==>
              ReplaceFirst(s, pat, "") == s[..i] + s[i + |pat|..]
  {
    ReplaceFirstSpec(s, pat, "");
    forall i | OccursAt(s, pat, i) && (forall j :: 0 <= j < i ==> !OccursAt(s, pat, j))
      ensures ReplaceFirst(s, pat, "") == s[..i] + s[i + |pat|..]
    {
      assert s[..i] + "" == s[..i];
    }
  }

  /** ASCII `toUpperCase` of one character; other characters are kept. */
  function UpperAscii(c: char): (u: char)
    ensures 'a' <= c <= 'z' ==> 'A' <= u <= 'Z' && u as int == c as int - 32
    ensures !('a' <= c <= 'z') ==> u == c
  {
    if 'a' <= c <= 'z' then (c as int - 'a' as int + 'A' as int) as char else c
  }

  /** `s.charAt(0).toUpperCase() + s.slice(1)`. */
  function Capitalize(s: string): (r: string)
    ensures |r| == |s|
    ensures s != [] ==> r[0] == UpperAscii(s[0]) && r[1..] == s[1..]
  {
    if s == [] then [] else [UpperAscii(s[0])] + s[1..]
  }
}
