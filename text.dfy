/**
 * String helpers with the semantics of the Go and JavaScript library calls
 * the core relies on: `strings.Join`, `strings.TrimSpace`, `strings.Trim`
 * with a one-character cutset, JavaScript's `String.prototype.replace` with
 * a string pattern, decimal rendering of integers, and the byte-wise string
 * order that `sort.Strings` uses.
 */
module Text {

  // ---------------------------------------------------------------------
  // strings.Join

  /** `strings.Join(parts, sep)`: the parts separated by `sep`. */
  function Join(parts: seq<string>, sep: string): (r: string)
    ensures parts == [] ==> r == []
    ensures |parts| == 1 ==> r == parts[0]
    decreases |parts|
  {
    if parts == [] then []
    else if |parts| == 1 then parts[0]
    else parts[0] + sep + Join(parts[1..], sep)
  }

  /** Joining a list that is one element longer adds the separator and that element. */
  lemma {:induction false} JoinSnoc(parts: seq<string>, x: string, sep: string)
    requires parts != []
    ensures Join(parts + [x], sep) == Join(parts, sep) + sep + x
    decreases |parts|
  {
    if |parts| == 1 {
      assert parts + [x] == [parts[0], x];
    } else {
      assert (parts + [x])[1..] == parts[1..] + [x];
      JoinSnoc(parts[1..], x, sep);
    }
  }

  // ---------------------------------------------------------------------
  // strings.TrimSpace and strings.Trim

  /** Go's `unicode.IsSpace`: the Latin-1 spaces and the Unicode White_Space property. */
  predicate IsSpace(c: char) {
    c == '\t' || c == '\n' || c == '\U{000B}' || c == '\U{000C}' || c == '\r' || c == ' '
    || c == '\U{0085}' || c == '\U{00A0}' || c == '\U{1680}'
    || ('\U{2000}' <= c <= '\U{200A}')
    || c == '\U{2028}' || c == '\U{2029}' || c == '\U{202F}' || c == '\U{205F}' || c == '\U{3000}'
  }

  /** What a trim removes: Unicode spaces (`TrimSpace`) or one given character (`Trim`). */
  datatype Cutset = Spaces | Only(c: char)

  predicate InCutset(c: char, cut: Cutset) {
    match cut
    case Spaces => IsSpace(c)
    case Only(x) => c == x
  }

  /** Every character of `s` is in the cutset. */
  predicate AllCut(s: string, cut: Cutset) {
    forall i :: 0 <= i < |s| ==> InCutset(s[i], cut)
  }

  /** Drops the leading characters that are in the cutset. */
  function TrimLeft(s: string, cut: Cutset): string
    decreases |s|
  {
    if s != [] && InCutset(s[0], cut) then TrimLeft(s[1..], cut) else s
  }

  /** Drops the trailing characters that are in the cutset. */
  function TrimRight(s: string, cut: Cutset): string
    decreases |s|
  {
    if s != [] && InCutset(s[|s| - 1], cut) then TrimRight(s[..|s| - 1], cut) else s
  }

  function Trim(s: string, cut: Cutset): string {
    TrimRight(TrimLeft(s, cut), cut)
  }

  /** `strings.TrimSpace(s)`. */
  function TrimSpace(s: string): string {
    Trim(s, Spaces)
  }

  /** `strings.Trim(s, cutset)` for a cutset of one character. */
  function TrimChar(s: string, c: char): string {
    Trim(s, Only(c))
  }

  lemma {:induction false} TrimLeftSpec(s: string, cut: Cutset)
    ensures var r := TrimLeft(s, cut);
      |r| <= |s| && r == s[|s| - |r|..] && AllCut(s[..|s| - |r|], cut)
      && (r == [] || !InCutset(r[0], cut))
    decreases |s|
  {
    if s != [] && InCutset(s[0], cut) {
      TrimLeftSpec(s[1..], cut);
      var r := TrimLeft(s, cut);
      var k := |s| - |r|;
      assert s[1..][|s| - 1 - |r|..] == s[k..];
      forall i | 0 <= i < k ensures InCutset(s[..k][i], cut) {
        if i > 0 { assert s[..k][i] == s[1..][..k - 1][i - 1]; }
      }
    }
  }

  lemma {:induction false} TrimRightSpec(s: string, cut: Cutset)
    ensures var r := TrimRight(s, cut);
      |r| <= |s| && r == s[..|r|] && AllCut(s[|r|..], cut)
      && (r == [] || !InCutset(r[|r| - 1], cut))
    decreases |s|
  {
    if s != [] && InCutset(s[|s| - 1], cut) {
      TrimRightSpec(s[..|s| - 1], cut);
      var r := TrimRight(s, cut);
      assert s[..|s| - 1][..|r|] == s[..|r|];
      forall i | |r| <= i < |s| ensures InCutset(s[i], cut) {
        if i < |s| - 1 { assert s[i] == s[..|s| - 1][|r|..][i - |r|]; }
      }
    }
  }

  /**
   * Trimming removes a prefix and a suffix made of cutset characters, and
   * what is left neither starts nor ends with one.
   */
  lemma TrimSpec(s: string, cut: Cutset)
    ensures var r := Trim(s, cut);
      exists i :: 0 <= i <= i + |r| <= |s| && r == s[i..i + |r|]
        && AllCut(s[..i], cut) && AllCut(s[i + |r|..], cut)
    ensures var r := Trim(s, cut); r == [] || (!InCutset(r[0], cut) && !InCutset(r[|r| - 1], cut))
  {
    var l := TrimLeft(s, cut);
    TrimLeftSpec(s, cut);
    TrimRightSpec(l, cut);
    var r := Trim(s, cut);
    var i := |s| - |l|;
    assert r == s[i..i + |r|];
    assert s[i + |r|..] == l[|r|..];
  }

  // ---------------------------------------------------------------------
  // String.prototype.replace with a string pattern of one character

  /** Replaces the first occurrence of `from` by `to`, as `s.replace(from, to)` does. */
  function ReplaceFirst(s: string, from: char, to: char): (r: string)
    ensures |r| == |s|
    ensures from !in s ==> r == s
    decreases |s|
  {
    if s == [] then []
    else if s[0] == from then [to] + s[1..]
    else [s[0]] + ReplaceFirst(s[1..], from, to)
  }

  /** Where `from` first occurs at `i`, exactly that character becomes `to`. */
  lemma {:induction false} ReplaceFirstAt(s: string, from: char, to: char, i: int)
    requires 0 <= i < |s| && s[i] == from && from !in s[..i]
    ensures ReplaceFirst(s, from, to) == s[..i] + [to] + s[i + 1..]
    decreases i
  {
    if i > 0 {
      assert s[0] == s[..i][0];
      assert s[1..][..i - 1] == s[1..i];
      assert from !in s[1..][..i - 1] by {
        assert s[1..][..i - 1] == s[..i][1..];
      }
      ReplaceFirstAt(s[1..], from, to, i - 1);
      assert s[..i] == [s[0]] + s[1..][..i - 1];
      assert s[i + 1..] == s[1..][i..];
    }
  }

  // ---------------------------------------------------------------------
  // Decimal text of integers

  predicate IsDigit(c: char) { '0' <= c <= '9' }

  function DigitChar(d: nat): char
    requires d < 10
  {
    ['0', '1', '2', '3', '4', '5', '6', '7', '8', '9'][d]
  }

  function DigitValue(c: char): nat
    requires IsDigit(c)
  {
    (c as int - '0' as int) as nat
  }

  predicate AllDigits(s: string) {
    forall i :: 0 <= i < |s| ==> IsDigit(s[i])
  }

  /** The number a string of decimal digits denotes. */
  function DigitsValue(s: string): nat
    requires AllDigits(s)
    decreases |s|
  {
    if s == [] then 0 else DigitsValue(s[..|s| - 1]) * 10 + DigitValue(s[|s| - 1])
  }

  /** The decimal text of a natural number, without leading zeros. */
  function NatText(n: nat): (r: string)
    ensures |r| >= 1 && AllDigits(r)
    ensures r[0] == '0' ==> n == 0 && r == "0"
    decreases n
  {
    if n < 10 then [DigitChar(n)] else NatText(n / 10) + [DigitChar(n % 10)]
  }

  /** The decimal text of an integer, with a leading `-` when negative. */
  function IntText(i: int): (r: string)
    ensures |r| >= 1
    ensures i < 0 <==> r[0] == '-'
    ensures i >= 0 ==> r == NatText(i)
    ensures i < 0 ==> r == "-" + NatText(-i)
  {
    if i < 0 then "-" + NatText(-i) else NatText(i)
  }

  lemma DigitRoundTrip(d: nat)
    requires d < 10
    ensures IsDigit(DigitChar(d)) && DigitValue(DigitChar(d)) == d
  {
  }

  /** Reading back the decimal text of `n` gives `n`. */
  lemma {:induction false} NatTextRoundTrip(n: nat)
    ensures DigitsValue(NatText(n)) == n
    decreases n
  {
    DigitRoundTrip(n % 10);
    if n >= 10 {
      NatTextRoundTrip(n / 10);
      var t := NatText(n);
      assert t[..|t| - 1] == NatText(n / 10);
    }
  }

  /** Distinct numbers have distinct decimal texts. */
  lemma NatTextInjective(m: nat, n: nat)
    requires NatText(m) == NatText(n)
    ensures m == n
  {
    NatTextRoundTrip(m);
    NatTextRoundTrip(n);
  }

  // ---------------------------------------------------------------------
  // The order of sort.Strings

  /**
   * Go compares strings byte by byte; on well-formed UTF-8 that is the
   * lexicographic order of code points, which this predicate states.
   */
  predicate Less(a: string, b: string)
    decreases |a|
  {
    if a == [] then b != []
    else if b == [] then false
    else if a[0] != b[0] then a[0] < b[0]
    else Less(a[1..], b[1..])
  }

  lemma {:induction false} LessIrreflexive(a: string)
    ensures !Less(a, a)
    decreases |a|
  {
    if a != [] { LessIrreflexive(a[1..]); }
  }

  lemma {:induction false} LessTransitive(a: string, b: string, c: string)
    requires Less(a, b) && Less(b, c)
    ensures Less(a, c)
    decreases |a|
  {
    if a != [] && b != [] && c != [] && a[0] == b[0] && b[0] == c[0] {
      LessTransitive(a[1..], b[1..], c[1..]);
    }
  }

  lemma {:induction false} LessTotal(a: string, b: string)
    ensures a == b || Less(a, b) || Less(b, a)
    decreases |a|
  {
    if a != [] && b != [] && a[0] == b[0] {
      LessTotal(a[1..], b[1..]);
      if a[1..] == b[1..] {
        assert a == [a[0]] + a[1..] && b == [b[0]] + b[1..];
      }
    }
  }

  /** Ascending and without repetitions. */
  predicate StrictlySorted(s: seq<string>) {
    forall i, j :: 0 <= i < j < |s| ==> Less(s[i], s[j])
  }

  /** Two strictly sorted lists with the same elements are the same list. */
  lemma {:induction false} StrictlySortedUnique(a: seq<string>, b: seq<string>)
    requires StrictlySorted(a) && StrictlySorted(b)
    requires forall x :: x in a <==> x in b
    ensures a == b
    decreases |a|
  {
    if a != [] && b != [] {
      // the first element of each is the least element of the common set
      if a[0] != b[0] {
        assert a[0] in b && b[0] in a;
        var i :| 0 <= i < |a| && a[i] == b[0];
        var j :| 0 <= j < |b| && b[j] == a[0];
        assert Less(a[0], b[0]) && Less(b[0], a[0]);
        LessTransitive(a[0], b[0], a[0]);
        LessIrreflexive(a[0]);
      }
      forall x ensures x in a[1..] <==> x in b[1..] {
        if x in a[1..] {
          var i :| 1 <= i < |a| && a[i] == x;
          assert Less(a[0], x);
          if x == b[0] { LessIrreflexive(x); }
          assert x in b;
          var j :| 0 <= j < |b| && b[j] == x;
          assert j != 0;
          assert b[1..][j - 1] == x;
        }
        if x in b[1..] {
          var j :| 1 <= j < |b| && b[j] == x;
          assert Less(b[0], x);
          if x == a[0] { LessIrreflexive(x); }
          assert x in a;
          var i :| 0 <= i < |a| && a[i] == x;
          assert i != 0;
          assert a[1..][i - 1] == x;
        }
      }
      StrictlySortedUnique(a[1..], b[1..]);
      assert a == [a[0]] + a[1..] && b == [b[0]] + b[1..];
    } else {
      HeadIsMember(a);
      HeadIsMember(b);
    }
  }

  lemma HeadIsMember(s: seq<string>)
    ensures s != [] ==> s[0] in s
  {
  }

  // ---------------------------------------------------------------------
  // sort.Strings

  predicate LessEq(a: string, b: string) { a == b || Less(a, b) }

  lemma LessEqTransitive(a: string, b: string, c: string)
    requires LessEq(a, b) && LessEq(b, c)
    ensures LessEq(a, c)
  {
    if Less(a, b) && Less(b, c) { LessTransitive(a, b, c); }
  }

  /** Ascending, repetitions allowed. */
  predicate Sorted(s: seq<string>) {
    forall i, j :: 0 <= i < j < |s| ==> LessEq(s[i], s[j])
  }

  /** No string occurs twice. */
  predicate NoDup(s: seq<string>) {
    forall i, j :: 0 <= i < j < |s| ==> s[i] != s[j]
  }

  /** Inserts `x` before the first element it does not exceed. */
  function Insert(x: string, s: seq<string>): seq<string>
    decreases |s|
  {
    if s == [] || LessEq(x, s[0]) then [x] + s else [s[0]] + Insert(x, s[1..])
  }

  /** `sort.Strings`: the strings in ascending order (an insertion sort). */
  function SortStrings(s: seq<string>): seq<string>
    decreases |s|
  {
    if s == [] then [] else Insert(s[0], SortStrings(s[1..]))
  }

  lemma {:induction false} InsertMultiset(x: string, s: seq<string>)
    ensures multiset(Insert(x, s)) == multiset(s) + multiset{x}
    decreases |s|
  {
    if s != [] && !LessEq(x, s[0]) {
      InsertMultiset(x, s[1..]);
      assert s == [s[0]] + s[1..];
    }
  }

  lemma {:induction false} InsertSorted(x: string, s: seq<string>)
    requires Sorted(s)
    ensures Sorted(Insert(x, s))
    decreases |s|
  {
    var r := Insert(x, s);
    if s == [] || LessEq(x, s[0]) {
      forall i, j | 0 <= i < j < |r| ensures LessEq(r[i], r[j]) {
        if i == 0 && j > 1 { LessEqTransitive(x, s[0], s[j - 1]); }
      }
    } else {
      LessTotal(x, s[0]);
      var t := Insert(x, s[1..]);
      InsertSorted(x, s[1..]);
      InsertMultiset(x, s[1..]);
      forall k | 0 <= k < |t| ensures LessEq(s[0], t[k]) {
        assert t[k] in multiset(t);
        if t[k] != x {
          assert t[k] in multiset(s[1..]);
          var m :| 0 <= m < |s[1..]| && s[1..][m] == t[k];
          assert s[m + 1] == t[k];
        }
      }
      assert r == [s[0]] + t;
    }
  }

  /** Sorting keeps every string with its number of occurrences. */
  lemma {:induction false} SortMultiset(s: seq<string>)
    ensures multiset(SortStrings(s)) == multiset(s)
    decreases |s|
  {
    if s != [] {
      SortMultiset(s[1..]);
      InsertMultiset(s[0], SortStrings(s[1..]));
      assert s == [s[0]] + s[1..];
    }
  }

  /** Sorting yields an ascending list. */
  lemma {:induction false} SortSorted(s: seq<string>)
    ensures Sorted(SortStrings(s))
    decreases |s|
  {
    if s != [] {
      SortSorted(s[1..]);
      InsertSorted(s[0], SortStrings(s[1..]));
    }
  }

  lemma {:induction false} NoDupCount(s: seq<string>, x: string)
    requires NoDup(s)
    ensures multiset(s)[x] <= 1
    decreases |s|
  {
    if s != [] {
      var init := s[..|s| - 1];
      assert s == init + [s[|s| - 1]];
      assert NoDup(init) by {
        forall i, j | 0 <= i < j < |init| ensures init[i] != init[j] {
          assert init[i] == s[i] && init[j] == s[j];
        }
      }
      NoDupCount(init, x);
      assert s[|s| - 1] !in init by {
        forall i | 0 <= i < |init| ensures init[i] != s[|s| - 1] {
          assert init[i] == s[i];
        }
      }
    }
  }

  lemma DupCount(s: seq<string>, i: int, j: int)
    requires 0 <= i < j < |s| && s[i] == s[j]
    ensures multiset(s)[s[i]] >= 2
  {
    assert s == s[..j] + s[j..];
    assert s[..j][i] == s[i];
    assert s[j..][0] == s[j];
  }

  /** A rearrangement of a list without repetitions has none. */
  lemma NoDupPermutation(s: seq<string>, t: seq<string>)
    requires NoDup(s) && multiset(s) == multiset(t)
    ensures NoDup(t)
  {
    forall i, j | 0 <= i < j < |t| ensures t[i] != t[j] {
      if t[i] == t[j] {
        DupCount(t, i, j);
        NoDupCount(s, t[i]);
      }
    }
  }

  /** Sorting a list without repetitions gives the strictly ascending list of its elements. */
  lemma SortStrictly(s: seq<string>)
    requires NoDup(s)
    ensures StrictlySorted(SortStrings(s))
    ensures forall x :: x in SortStrings(s) <==> x in s
  {
    SortMultiset(s);
    SortSorted(s);
    NoDupPermutation(s, SortStrings(s));
    forall x ensures x in SortStrings(s) <==> x in s {
      assert x in SortStrings(s) <==> x in multiset(SortStrings(s));
      assert x in s <==> x in multiset(s);
    }
  }

  /** The elements of `s`, each once, in order of last occurrence. */
  function Distinct(s: seq<string>): (r: seq<string>)
    ensures NoDup(r)
    ensures forall x :: x in r <==> x in s
    decreases |s|
  {
    if s == [] then []
    else if s[0] in s[1..] then Distinct(s[1..])
    else [s[0]] + Distinct(s[1..])
  }
}
