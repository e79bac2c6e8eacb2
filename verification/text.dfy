/**
 * ASCII models of the Python string operations the medication lookup uses:
 * `str.lower`, `str.strip`, `str.title`, the substring test `p in s` and
 * `sep.join(xs)`, together with splitting text at a separator character,
 * which undoes a join and reads printed output back as lines.
 */
module Text {
  import opened Wrappers

  /** Python's `str.isspace` restricted to ASCII: tab, line feed, vertical
      tab, form feed, carriage return, the four information separators
      (0x1C-0x1F) and space. */
  predicate IsSpace(c: char) {
    c as int == 32 || 9 <= c as int <= 13 || 28 <= c as int <= 31
  }

  predicate IsUpperAscii(c: char) { 'A' <= c <= 'Z' }

  predicate IsLowerAscii(c: char) { 'a' <= c <= 'z' }

  /** ASCII letters are exactly the ASCII characters that have a case. */
  predicate IsLetterAscii(c: char) { IsUpperAscii(c) || IsLowerAscii(c) }

  predicate AllSpace(s: string) {
    forall i :: 0 <= i < |s| ==> IsSpace(s[i])
  }

  /** Positions `a` up to `b` of `s` hold whitespace. */
  predicate SpaceBetween(s: string, a: int, b: int)
    requires 0 <= a <= b <= |s|
  {
    forall k :: a <= k < b ==> IsSpace(s[k])
  }

  predicate NoUpper(s: string) {
    forall i :: 0 <= i < |s| ==> !IsUpperAscii(s[i])
  }

  /** A string that `str.strip()` leaves unchanged. */
  predicate IsTrimmed(s: string) {
    |s| == 0 || (!IsSpace(s[0]) && !IsSpace(s[|s| - 1]))
  }

  function LowerChar(c: char): char {
    if IsUpperAscii(c) then (c as int + 32) as char else c
  }

  function UpperChar(c: char): char {
    if IsLowerAscii(c) then (c as int - 32) as char else c
  }

  // ---------------------------------------------------------------------
  // lower

  /** `s.lower()` on ASCII: every upper-case letter becomes its lower-case
      partner and every other character is kept. */
  function Lower(s: string): (r: string)
    ensures |r| == |s|
    ensures NoUpper(r)
    ensures forall i :: 0 <= i < |s| && !IsUpperAscii(s[i]) ==> r[i] == s[i]
    ensures forall i :: 0 <= i < |s| && IsUpperAscii(s[i]) ==> IsLowerAscii(r[i]) && r[i] as int == s[i] as int + 32
  {
    seq(|s|, i requires 0 <= i < |s| => LowerChar(s[i]))
  }

  /** Lower-casing works character by character, so it distributes over
      concatenation. */
  lemma LowerAppend(a: string, b: string)
    ensures Lower(a + b) == Lower(a) + Lower(b)
  {
  }

  /** A string without upper-case letters is its own lower-case form; in
      particular lower-casing is idempotent. */
  lemma LowerOfNoUpper(s: string)
    requires NoUpper(s)
    ensures Lower(s) == s
  {
  }

  /** Lower-casing never touches whitespace. */
  lemma LowerOfSpace(s: string)
    requires AllSpace(s)
    ensures Lower(s) == s && AllSpace(Lower(s))
  {
  }

  /** From index `i` on, `q` is `b` lower-cased, character by character. */
  predicate LowerMatchesFrom(q: string, b: string, i: nat)
    requires |q| == |b| && i <= |q|
    decreases |q| - i
  {
    i == |q| || (q[i] == LowerChar(b[i]) && LowerMatchesFrom(q, b, i + 1))
  }

  /** `q == b.lower()`, decided character by character. */
  predicate IsLowerOf(q: string, b: string) {
    |q| == |b| && LowerMatchesFrom(q, b, 0)
  }

  lemma {:induction false} LowerMatchesFromIff(q: string, b: string, i: nat)
    requires |q| == |b| && i <= |q|
    ensures LowerMatchesFrom(q, b, i) <==> forall j :: i <= j < |q| ==> q[j] == LowerChar(b[j])
    decreases |q| - i
  {
    if i < |q| {
      LowerMatchesFromIff(q, b, i + 1);
    }
  }

  /** The character-wise test is equality with the lower-cased string, in
      both directions. */
  lemma IsLowerOfIff(q: string, b: string)
    ensures IsLowerOf(q, b) <==> q == Lower(b)
  {
    if |q| == |b| {
      LowerMatchesFromIff(q, b, 0);
      if IsLowerOf(q, b) {
        assert q == Lower(b);
      }
    }
  }

  // ---------------------------------------------------------------------
  // strip

  /** The first index at or after `i` that does not hold whitespace, or
      `|s|` when there is none. */
  function TextStart(s: string, i: nat): (k: nat)
    requires i <= |s|
    ensures i <= k <= |s| && SpaceBetween(s, i, k)
    ensures k == |s| || !IsSpace(s[k])
    decreases |s| - i
  {
    if i < |s| && IsSpace(s[i]) then TextStart(s, i + 1) else i
  }

  /** The smallest index `k` in `lo..j` such that everything from `k` up to
      `j` is whitespace. */
  function TextEnd(s: string, lo: nat, j: nat): (k: nat)
    requires lo <= j <= |s|
    ensures lo <= k <= j && SpaceBetween(s, k, j)
    ensures k == lo || !IsSpace(s[k - 1])
    decreases j
  {
    if lo < j && IsSpace(s[j - 1]) then TextEnd(s, lo, j - 1) else j
  }

  /** `s.strip()` on ASCII whitespace: the result is a trimmed infix of `s`
      and only whitespace was cut away on either side. */
  function Strip(s: string): (r: string)
    ensures IsTrimmed(r)
    ensures exists i, j :: 0 <= i <= j <= |s| && r == s[i..j] && SpaceBetween(s, 0, i) && SpaceBetween(s, j, |s|)
  {
    var i := TextStart(s, 0);
    var j := TextEnd(s, i, |s|);
    assert i < j ==> s[i..j][0] == s[i] && s[i..j][j - i - 1] == s[j - 1];
    s[i..j]
  }

  lemma {:induction false} TextStartIs(s: string, i: nat, k: nat)
    requires i <= k <= |s| && SpaceBetween(s, i, k)
    requires k == |s| || !IsSpace(s[k])
    ensures TextStart(s, i) == k
    decreases k - i
  {
    if i < k {
      TextStartIs(s, i + 1, k);
    }
  }

  lemma {:induction false} TextEndIs(s: string, lo: nat, j: nat, k: nat)
    requires lo <= k <= j <= |s| && SpaceBetween(s, k, j)
    requires k == lo || !IsSpace(s[k - 1])
    ensures TextEnd(s, lo, j) == k
    decreases j - k
  {
    if k < j {
      TextEndIs(s, lo, j - 1, k);
    }
  }

  /** Whatever whitespace surrounds a trimmed string, stripping recovers
      exactly that string; a string of whitespace alone strips to "". */
  lemma StripOfPadded(a: string, y: string, b: string)
    requires AllSpace(a) && AllSpace(b)
    requires IsTrimmed(y)
    ensures Strip(a + y + b) == y
  {
    var s := a + y + b;
    if |y| == 0 {
      TextStartIs(s, 0, |s|);
      TextEndIs(s, |s|, |s|, |s|);
    } else {
      assert s[|a|] == y[0];
      TextStartIs(s, 0, |a|);
      assert s[|a| + |y| - 1] == y[|y| - 1];
      TextEndIs(s, |a|, |s|, |a| + |y|);
      assert s[|a|..|a| + |y|] == y;
    }
  }

  /** Stripping cuts off exactly a whitespace prefix `a` and a whitespace
      suffix `b`. */
  lemma StripParts(s: string) returns (a: string, b: string)
    ensures s == a + Strip(s) + b
    ensures AllSpace(a) && AllSpace(b)
  {
    var i := TextStart(s, 0);
    var j := TextEnd(s, i, |s|);
    a, b := s[..i], s[j..];
    assert Strip(s) == s[i..j];
    assert s == a + s[i..j] + b;
  }

  /** Lower-casing keeps whitespace padding and keeps trimmed text trimmed. */
  lemma LowerOfPadded(a: string, y: string, b: string)
    requires AllSpace(a) && AllSpace(b)
    requires IsTrimmed(y)
    ensures Lower(a + y + b) == a + Lower(y) + b
    ensures IsTrimmed(Lower(y))
  {
    LowerAppend(a + y, b);
    LowerAppend(a, y);
    LowerOfSpace(a);
    LowerOfSpace(b);
  }

  /** Lower-casing never turns whitespace into text or text into
      whitespace, so stripping and lower-casing commute. */
  lemma StripLowerCommute(s: string)
    ensures Strip(Lower(s)) == Lower(Strip(s))
  {
    var y := Strip(s);
    var a, b := StripParts(s);
    LowerOfPadded(a, y, b);
    StripOfPadded(a, Lower(y), b);
  }

  // ---------------------------------------------------------------------
  // title

  /** True when position `i` of `s` starts a word for `str.title`: the
      previous character, if any, is not a cased letter. */
  predicate StartsWord(s: string, i: int)
    requires 0 <= i < |s|
  {
    i == 0 || !IsLetterAscii(s[i - 1])
  }

  /** `s.title()` on ASCII: a letter that starts a word is upper-cased, any
      other letter is lower-cased, and non-letters are kept. */
  function Title(s: string): (r: string)
    ensures |r| == |s|
    ensures Lower(r) == Lower(s)
    ensures forall i :: 0 <= i < |s| ==> (IsLetterAscii(r[i]) <==> IsLetterAscii(s[i]))
    ensures forall i :: 0 <= i < |s| && !IsLetterAscii(s[i]) ==> r[i] == s[i]
    ensures forall i :: 0 <= i < |s| && IsLetterAscii(s[i]) && StartsWord(s, i) ==> IsUpperAscii(r[i])
    ensures forall i :: 0 <= i < |s| && IsLetterAscii(s[i]) && !StartsWord(s, i) ==> IsLowerAscii(r[i])
  {
    seq(|s|, i requires 0 <= i < |s| =>
      if !IsLetterAscii(s[i]) then s[i]
      else if StartsWord(s, i) then UpperChar(s[i])
      else LowerChar(s[i]))
  }

  /** For a single lower-case word, such as every medication name, title
      casing only capitalises the first letter. */
  lemma TitleOfLowerWord(s: string)
    requires |s| > 0
    requires forall i :: 0 <= i < |s| ==> IsLowerAscii(s[i])
    ensures Title(s) == [UpperChar(s[0])] + s[1..]
  {
    var t := Title(s);
    forall i | 0 <= i < |s|
      ensures t[i] == ([UpperChar(s[0])] + s[1..])[i]
    {
      if i > 0 {
        assert IsLetterAscii(s[i - 1]);
      }
    }
  }

  /** Title casing never introduces a character that is not a letter. */
  lemma TitleAvoids(s: string, c: char)
    requires !IsLetterAscii(c) && c !in s
    ensures c !in Title(s)
  {
    var t := Title(s);
    forall i | 0 <= i < |t|
      ensures t[i] != c
    {
      if !IsLetterAscii(s[i]) {
        assert t[i] == s[i];
      }
    }
  }

  // ---------------------------------------------------------------------
  // substring test

  /** `p` sits in `s` starting at index `k`. */
  ghost predicate OccursAt(s: string, p: string, k: int) {
    0 <= k && k + |p| <= |s| && s[k..k + |p|] == p
  }

  /** Characters `i` onwards of `p` agree with `s` read from index `k + i`. */
  predicate MatchesAt(s: string, p: string, k: nat, i: nat)
    requires k + |p| <= |s| && i <= |p|
    decreases |p| - i
  {
    i == |p| || (s[k + i] == p[i] && MatchesAt(s, p, k, i + 1))
  }

  /** Whether `p` occurs in `s` at index `k` or later, trying positions from
      left to right. */
  function ContainsFrom(s: string, p: string, k: nat): bool
    decreases |s| - k
  {
    k + |p| <= |s| && (MatchesAt(s, p, k, 0) || ContainsFrom(s, p, k + 1))
  }

  /** Python's `p in s` for strings: `p` occurs somewhere in `s`. The empty
      string occurs in every string. */
  function Contains(s: string, p: string): (r: bool)
    ensures |p| == 0 ==> r
    ensures r ==> |p| <= |s|
  {
    ContainsFrom(s, p, 0)
  }

  lemma {:induction false} MatchesAtIff(s: string, p: string, k: nat, i: nat)
    requires k + |p| <= |s| && i <= |p|
    ensures MatchesAt(s, p, k, i) <==> forall j :: i <= j < |p| ==> s[k + j] == p[j]
    decreases |p| - i
  {
    if i < |p| {
      MatchesAtIff(s, p, k, i + 1);
    }
  }

  /** The character-wise comparison is slice equality. */
  lemma MatchesAtIsOccurrence(s: string, p: string, k: nat)
    requires k + |p| <= |s|
    ensures MatchesAt(s, p, k, 0) <==> OccursAt(s, p, k)
  {
    MatchesAtIff(s, p, k, 0);
    if forall j :: 0 <= j < |p| ==> s[k + j] == p[j] {
      assert s[k..k + |p|] == p;
    }
    if s[k..k + |p|] == p {
      forall j | 0 <= j < |p| ensures s[k + j] == p[j] {
        assert s[k..k + |p|][j] == s[k + j];
      }
    }
  }

  /** The left-to-right search from `k` finds exactly the occurrences at
      index `k` or later, in both directions. */
  lemma {:induction false} ContainsFromIff(s: string, p: string, k: nat)
    ensures ContainsFrom(s, p, k) <==> exists m :: k <= m && OccursAt(s, p, m)
    decreases |s| - k
  {
    if k + |p| <= |s| {
      ContainsFromIff(s, p, k + 1);
      MatchesAtIsOccurrence(s, p, k);
      if ContainsFrom(s, p, k) && !OccursAt(s, p, k) {
        var m :| k + 1 <= m && OccursAt(s, p, m);
        assert k <= m;
      }
      if exists m :: k <= m && OccursAt(s, p, m) {
        var m :| k <= m && OccursAt(s, p, m);
        if m != k {
          assert k + 1 <= m;
        }
      }
    }
  }

  /** The search agrees with the positional definition of a substring, in
      both directions. */
  lemma ContainsIff(s: string, p: string)
    ensures Contains(s, p) <==> exists k :: OccursAt(s, p, k)
  {
    ContainsFromIff(s, p, 0);
  }

  // ---------------------------------------------------------------------
  // prefixes

  /** The text after the prefix `p`, when `s` begins with `p`. */
  function AfterPrefix(s: string, p: string): (r: Option<string>)
    ensures r.Some? ==> |r.value| == |s| - |p|
  {
    if |p| <= |s| && s[..|p|] == p then Some(s[|p|..]) else None
  }

  /** Removing a prefix is the inverse of prepending it. */
  lemma AfterPrefixIff(s: string, p: string, v: string)
    ensures AfterPrefix(s, p) == Some(v) <==> s == p + v
  {
    if s == p + v {
      assert s[..|p|] == p && s[|p|..] == v;
    }
    if AfterPrefix(s, p) == Some(v) {
      assert s == s[..|p|] + s[|p|..];
    }
  }

  // ---------------------------------------------------------------------
  // join and split

  /** `sep.join(xs)`: the elements in order with `sep` between neighbours. */
  function Join(xs: seq<string>, sep: string): string
    decreases |xs|
  {
    if |xs| == 0 then ""
    else if |xs| == 1 then xs[0]
    else xs[0] + sep + Join(xs[1..], sep)
  }

  /** Joining two non-empty lists is joining each and putting one separator
      between the halves. */
  lemma {:induction false} JoinAppend(xs: seq<string>, ys: seq<string>, sep: string)
    requires |xs| > 0 && |ys| > 0
    ensures Join(xs + ys, sep) == Join(xs, sep) + sep + Join(ys, sep)
    decreases |xs|
  {
    if |xs| == 1 {
      assert (xs + ys)[1..] == ys;
    } else {
      assert (xs + ys)[1..] == xs[1..] + ys;
      JoinAppend(xs[1..], ys, sep);
    }
  }

  /** Ending a line with the separator is the same as following it with an
      empty line. */
  lemma BreakIsEmptyLine(a: string, ys: seq<string>, sep: string)
    requires |ys| > 0
    ensures Join([a + sep] + ys, sep) == Join([a, ""] + ys, sep)
  {
    var j := Join(ys, sep);
    var xs1 := [a + sep] + ys;
    assert xs1[0] == a + sep && xs1[1..] == ys;
    assert Join(xs1, sep) == (a + sep) + sep + j;
    var e := [""] + ys;
    assert e[0] == "" && e[1..] == ys;
    assert Join(e, sep) == "" + sep + j;
    var xs2 := [a, ""] + ys;
    assert xs2[0] == a && xs2[1..] == e;
    assert Join(xs2, sep) == a + sep + ("" + sep + j);
  }

  /** A non-empty list followed by more is its head before the rest. */
  lemma HeadOfAppend<T>(r: seq<T>, ys: seq<T>)
    requires |r| > 0
    ensures r + ys == [r[0]] + (r[1..] + ys)
  {
    assert r == [r[0]] + r[1..];
  }

  /** A first line that ends with the separator, followed by more lines,
      joins like the line and an empty line. */
  lemma JoinHeadBreak(r: seq<string>, ys: seq<string>, a: string, sep: string)
    requires |r| > 0 && |ys| > 0 && r[0] == a + sep
    ensures Join(r + ys, sep) == Join([a, ""] + (r[1..] + ys), sep)
  {
    HeadOfAppend(r, ys);
    BreakIsEmptyLine(a, r[1..] + ys, sep);
  }

  /** The character `c` occurs nowhere in any element of `xs`. */
  predicate NoneContain(xs: seq<string>, c: char) {
    forall k :: 0 <= k < |xs| ==> c !in xs[k]
  }

  /** A join introduces a character only through its separator. */
  lemma {:induction false} JoinAvoids(xs: seq<string>, sep: string, c: char)
    requires NoneContain(xs, c) && c !in sep
    ensures c !in Join(xs, sep)
    decreases |xs|
  {
    if |xs| > 1 {
      JoinAvoids(xs[1..], sep, c);
    }
  }

  /** Splits `s` at every occurrence of `c`, as `s.split(c)` does: the
      pieces are free of `c`, and there is always at least one. */
  function Split(s: string, c: char): (r: seq<string>)
    ensures |r| > 0
    ensures NoneContain(r, c)
    decreases |s|
  {
    if |s| == 0 then [""]
    else
      var rest := Split(s[1..], c);
      if s[0] == c then [""] + rest
      else [[s[0]] + rest[0]] + rest[1..]
  }

  /** Splitting after a piece that is free of the separator puts that piece
      in front of the first line of the rest. */
  lemma {:induction false} SplitPrefix(x: string, t: string, c: char)
    requires c !in x
    ensures Split(x + t, c) == [x + Split(t, c)[0]] + Split(t, c)[1..]
    decreases |x|
  {
    if |x| == 0 {
      assert x + t == t;
      assert x + Split(t, c)[0] == Split(t, c)[0];
      assert Split(t, c) == [Split(t, c)[0]] + Split(t, c)[1..];
    } else {
      assert (x + t)[0] == x[0];
      assert (x + t)[1..] == x[1..] + t;
      SplitPrefix(x[1..], t, c);
      assert [x[0]] + (x[1..] + Split(t, c)[0]) == x + Split(t, c)[0];
    }
  }

  /** Joining with `c` and splitting at `c` is the identity on any
      non-empty list of pieces free of `c`. */
  lemma {:induction false} SplitJoin(xs: seq<string>, c: char)
    requires |xs| > 0 && NoneContain(xs, c)
    ensures Split(Join(xs, [c]), c) == xs
    decreases |xs|
  {
    if |xs| == 1 {
      SplitPrefix(xs[0], "", c);
      assert xs[0] + "" == xs[0];
    } else {
      SplitJoin(xs[1..], c);
      var tail := [c] + Join(xs[1..], [c]);
      assert Join(xs, [c]) == xs[0] + tail;
      SplitPrefix(xs[0], tail, c);
      assert tail[1..] == Join(xs[1..], [c]);
      assert Split(tail, c) == [""] + xs[1..];
      assert xs[0] + "" == xs[0];
      assert xs == [xs[0]] + xs[1..];
    }
  }

  /** Splitting at `c` and joining with `c` gives back the text. */
  lemma {:induction false} JoinSplit(s: string, c: char)
    ensures Join(Split(s, c), [c]) == s
    decreases |s|
  {
    if |s| > 0 {
      var rest := Split(s[1..], c);
      JoinSplit(s[1..], c);
      if s[0] == c {
        if |rest| == 1 {
          assert Join([""] + rest, [c]) == "" + [c] + rest[0];
        } else {
          JoinAppend([""], rest, [c]);
        }
      } else {
        var r := [[s[0]] + rest[0]] + rest[1..];
        if |rest| == 1 {
          assert r == [[s[0]] + rest[0]];
        } else {
          assert r[1..] == rest[1..];
          assert Join(rest, [c]) == rest[0] + [c] + Join(rest[1..], [c]);
        }
      }
      assert s == [s[0]] + s[1..];
    }
  }
}
