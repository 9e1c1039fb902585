/**
 * The JavaScript string built-ins the scraper leans on, written over `seq<char>`:
 * `String.prototype.split` with a non-empty separator, `trim`, `parseInt` in base 10,
 * `replace(/[^0-9]/g, "")` and the decimal rendering of a non-negative integer.
 */
module JsText {
  import opened Wrappers

  predicate IsDigit(c: char) { '0' <= c <= '9' }

  /** The white-space characters that `trim` and `parseInt` skip (ASCII subset). */
  predicate IsSpace(c: char) { c == ' ' || c == '\t' || c == '\n' || c == '\r' }

  predicate AllDigits(s: string) { forall i :: 0 <= i < |s| ==> IsDigit(s[i]) }

  predicate NoSpaces(s: string) { forall i :: 0 <= i < |s| ==> !IsSpace(s[i]) }

  predicate HasDigit(s: string) { exists i :: 0 <= i < |s| && IsDigit(s[i]) }

  function DigitValue(c: char): (d: nat)
    requires IsDigit(c)
    ensures d < 10
  {
    c as int - '0' as int
  }

  function DigitChar(d: nat): (c: char)
    requires d < 10
    ensures IsDigit(c) && DigitValue(c) == d
  {
    ('0' as int + d) as char
  }

  /** The value of a string of decimal digits, most significant digit first. */
  function DigitsValue(ds: string): nat
    requires AllDigits(ds)
  {
    if ds == [] then 0 else 10 * DigitsValue(ds[..|ds| - 1]) + DigitValue(ds[|ds| - 1])
  }

  /** `n.toString()` for a non-negative integer. */
  function NatToString(n: nat): (s: string)
    ensures |s| > 0 && AllDigits(s)
  {
    if n < 10 then [DigitChar(n)] else NatToString(n / 10) + [DigitChar(n % 10)]
  }

  lemma {:induction false} DigitsValueOfNatToString(n: nat)
    ensures DigitsValue(NatToString(n)) == n
  {
    var s := NatToString(n);
    if n >= 10 {
      assert s[..|s| - 1] == NatToString(n / 10);
      DigitsValueOfNatToString(n / 10);
    }
  }

  // ---------------------------------------------------------------------------
  // replace(/[^0-9]/g, "")

  /** Every digit of `s`, in order; every other character is dropped. */
  function StripNonDigits(s: string): (r: string)
    ensures AllDigits(r) && |r| <= |s|
  {
    if s == [] then []
    else (if IsDigit(s[0]) then [s[0]] else []) + StripNonDigits(s[1..])
  }

  /** The characters kept are exactly the digits of `s`. */
  lemma {:induction false} StripNonDigitsKeepsDigits(s: string)
    ensures forall c :: c in StripNonDigits(s) <==> c in s && IsDigit(c)
  {
    if s != [] {
      StripNonDigitsKeepsDigits(s[1..]);
      assert s == [s[0]] + s[1..];
    }
  }

  lemma {:induction false} StripNonDigitsAppend(a: string, b: string)
    ensures StripNonDigits(a + b) == StripNonDigits(a) + StripNonDigits(b)
  {
    if a != [] {
      assert (a + b)[1..] == a[1..] + b;
      StripNonDigitsAppend(a[1..], b);
    } else {
      assert a + b == b;
    }
  }

  lemma {:induction false} StripNonDigitsOfDigits(s: string)
    requires AllDigits(s)
    ensures StripNonDigits(s) == s
  {
    if s != [] {
      StripNonDigitsOfDigits(s[1..]);
    }
  }

  lemma {:induction false} StripNonDigitsOfNoDigit(s: string)
    requires forall i :: 0 <= i < |s| ==> !IsDigit(s[i])
    ensures StripNonDigits(s) == []
  {
    if s != [] {
      StripNonDigitsOfNoDigit(s[1..]);
    }
  }

  // ---------------------------------------------------------------------------
  // parseInt(s) in base 10

  /** `s` without its leading white space. */
  function TrimStart(s: string): (r: string)
    ensures |r| <= |s| && r == s[|s| - |r|..]
    ensures |r| > 0 ==> !IsSpace(r[0])
    ensures forall i :: 0 <= i < |s| - |r| ==> IsSpace(s[i])
  {
    if s != [] && IsSpace(s[0]) then TrimStart(s[1..]) else s
  }

  /** `s` without its trailing white space. */
  function TrimEnd(s: string): (r: string)
    ensures |r| <= |s| && r == s[..|r|]
    ensures |r| > 0 ==> !IsSpace(r[|r| - 1])
    ensures forall i :: |r| <= i < |s| ==> IsSpace(s[i])
  {
    if s != [] && IsSpace(s[|s| - 1]) then TrimEnd(s[..|s| - 1]) else s
  }

  /** `s.trim()`: no white space is left at either end, and the text only shrinks. */
  function Trim(s: string): (r: string)
    ensures |r| <= |s|
    ensures |r| > 0 ==> !IsSpace(r[0]) && !IsSpace(r[|r| - 1])
  {
    TrimEnd(TrimStart(s))
  }

  lemma TrimOfNoSpaces(s: string)
    requires NoSpaces(s)
    ensures Trim(s) == s
  {
    assert |s| > 0 ==> !IsSpace(s[0]) && !IsSpace(s[|s| - 1]);
  }

  lemma StripNonDigitsOfTrimStart(s: string)
    ensures StripNonDigits(TrimStart(s)) == StripNonDigits(s)
  {
    var t := TrimStart(s);
    var front := s[..|s| - |t|];
    assert s == front + t;
    assert forall i :: 0 <= i < |front| ==> IsSpace(front[i]);
    StripNonDigitsOfNoDigit(front);
    StripNonDigitsAppend(front, t);
  }

  lemma StripNonDigitsOfTrimEnd(s: string)
    ensures StripNonDigits(TrimEnd(s)) == StripNonDigits(s)
  {
    var t := TrimEnd(s);
    var back := s[|t|..];
    assert s == t + back;
    assert forall i :: 0 <= i < |back| ==> IsSpace(back[i]);
    StripNonDigitsOfNoDigit(back);
    StripNonDigitsAppend(t, back);
  }

  /** Trimming drops only white space, so it keeps every digit. */
  lemma StripNonDigitsOfTrim(s: string)
    ensures StripNonDigits(Trim(s)) == StripNonDigits(s)
  {
    StripNonDigitsOfTrimStart(s);
    StripNonDigitsOfTrimEnd(TrimStart(s));
  }

  /** The length of the longest prefix of `s` made of digits. */
  function DigitPrefixLength(s: string): (k: nat)
    ensures k <= |s| && AllDigits(s[..k])
    ensures k < |s| ==> !IsDigit(s[k])
  {
    if s != [] && IsDigit(s[0]) then
      var k := 1 + DigitPrefixLength(s[1..]);
      assert s[..k] == [s[0]] + s[1..][..k - 1];
      k
    else 0
  }

  /**
   * `parseInt(s)`: skip leading white space, take an optional sign, then the longest
   * run of digits; no digit at all gives NaN, here `None`.
   */
  function ParseInt(s: string): (r: Option<int>)
    ensures r.Some? ==> HasDigit(s)
    ensures r.Some? && r.value < 0 ==> TrimStart(s)[0] == '-'
  {
    var t := TrimStart(s);
    var negative := |t| > 0 && t[0] == '-';
    var u := if |t| > 0 && (t[0] == '-' || t[0] == '+') then t[1..] else t;
    var k := DigitPrefixLength(u);
    if k == 0 then None
    else
      var magnitude: int := DigitsValue(u[..k]);
      var j := |s| - |t| + (if u == t then 0 else 1);
      assert u[0] == s[j] && IsDigit(u[..k][0]);
      Some(if negative then -magnitude else magnitude)
  }

  lemma ParseIntOfDigits(s: string)
    requires |s| > 0 && AllDigits(s)
    ensures ParseInt(s) == Some(DigitsValue(s))
  {
    assert !IsSpace(s[0]);
    assert TrimStart(s) == s;
    assert s[0] != '-' && s[0] != '+';
    var k := DigitPrefixLength(s);
    assert k == |s|;
    assert s[..k] == s;
  }

  lemma ParseIntOfNatToString(n: nat)
    ensures ParseInt(NatToString(n)) == Some(n)
  {
    ParseIntOfDigits(NatToString(n));
    DigitsValueOfNatToString(n);
  }

  lemma ParseIntOfNoDigit(s: string)
    requires forall i :: 0 <= i < |s| ==> !IsDigit(s[i])
    ensures ParseInt(s) == None
  {
    var t := TrimStart(s);
    assert forall i :: 0 <= i < |t| ==> t[i] == s[|s| - |t| + i];
  }

  // ---------------------------------------------------------------------------
  // split(sep) with a non-empty separator, and its inverse join(sep)

  predicate OccursAt(s: string, sep: string, j: nat)
  {
    j + |sep| <= |s| && s[j..j + |sep|] == sep
  }

  /** `s.indexOf(sep)`, with `None` for -1. */
  function IndexOf(s: string, sep: string): (r: Option<nat>)
    requires |sep| > 0
    ensures r.Some? ==> OccursAt(s, sep, r.value)
    decreases |s|
  {
    if |s| < |sep| then None
    else if s[..|sep|] == sep then assert s[0..|sep|] == s[..|sep|]; Some(0)
    else match IndexOf(s[1..], sep)
         case None => None
         case Some(i) => OccursAtTail(s, sep, i); Some(i + 1)
  }

  /** `indexOf` finds the first occurrence, and -1 means there is none. */
  lemma {:induction false} IndexOfSpec(s: string, sep: string)
    requires |sep| > 0
    ensures var r := IndexOf(s, sep);
      (r.Some? ==> forall j: nat :: j < r.value ==> !OccursAt(s, sep, j))
      && (r.None? ==> forall j: nat :: !OccursAt(s, sep, j))
    decreases |s|
  {
    if |s| < |sep| {
    } else if s[..|sep|] == sep {
    } else {
      assert !OccursAt(s, sep, 0) by { assert s[0..|sep|] == s[..|sep|]; }
      IndexOfSpec(s[1..], sep);
      match IndexOf(s[1..], sep)
      case None =>
        forall j: nat ensures !OccursAt(s, sep, j) {
          if j > 0 { OccursAtTail(s, sep, j - 1); }
        }
      case Some(i) =>
        forall j: nat | j < i + 1 ensures !OccursAt(s, sep, j) {
          if j > 0 { OccursAtTail(s, sep, j - 1); }
        }
    }
  }

  lemma OccursAtTail(s: string, sep: string, j: nat)
    requires |s| > 0
    ensures OccursAt(s, sep, j + 1) <==> OccursAt(s[1..], sep, j)
  {
    if j + 1 + |sep| <= |s| {
      assert s[1..][j..j + |sep|] == s[j + 1..j + 1 + |sep|];
    }
  }

  lemma OccursAtPrefix(s: string, sep: string, i: nat, j: nat)
    requires i <= |s|
    ensures OccursAt(s[..i], sep, j) ==> OccursAt(s, sep, j)
  {
    if OccursAt(s[..i], sep, j) {
      assert s[..i][j..j + |sep|] == s[j..j + |sep|];
    }
  }

  /** `s.split(sep)`: the pieces between successive first occurrences of `sep`. */
  function Split(s: string, sep: string): (parts: seq<string>)
    requires |sep| > 0
    ensures |parts| >= 1
    decreases |s|
  {
    match IndexOf(s, sep)
    case None => [s]
    case Some(i) => [s[..i]] + Split(s[i + |sep|..], sep)
  }

  /** No piece of a split contains the separator. */
  lemma {:induction false} SplitPiecesFree(s: string, sep: string)
    requires |sep| > 0
    ensures forall k: nat, j: nat :: k < |Split(s, sep)| ==> !OccursAt(Split(s, sep)[k], sep, j)
    decreases |s|
  {
    IndexOfSpec(s, sep);
    match IndexOf(s, sep)
    case None =>
    case Some(i) =>
      var head := s[..i];
      assert forall j: nat :: OccursAt(head, sep, j) ==> OccursAt(s, sep, j) by {
        forall j: nat ensures OccursAt(head, sep, j) ==> OccursAt(s, sep, j) {
          OccursAtPrefix(s, sep, i, j);
        }
      }
      SplitPiecesFree(s[i + |sep|..], sep);
      assert Split(s, sep) == [head] + Split(s[i + |sep|..], sep);
  }

  /** `parts.join(sep)`: the first piece comes first, and the separator right after it. */
  function Join(parts: seq<string>, sep: string): (r: string)
    requires |parts| >= 1
    ensures parts[0] <= r
    ensures |parts| > 1 ==> OccursAt(r, sep, |parts[0]|)
  {
    if |parts| == 1 then parts[0] else parts[0] + sep + Join(parts[1..], sep)
  }

  lemma {:induction false} JoinSplit(s: string, sep: string)
    requires |sep| > 0
    ensures Join(Split(s, sep), sep) == s
    decreases |s|
  {
    match IndexOf(s, sep)
    case None =>
    case Some(i) =>
      var rest := s[i + |sep|..];
      var tail := Split(rest, sep);
      JoinSplit(rest, sep);
      JoinCons(s[..i], tail, sep);
      assert s[i..i + |sep|] == sep;
      assert s == s[..i] + s[i..i + |sep|] + rest;
  }

  lemma JoinCons(x: string, parts: seq<string>, sep: string)
    requires |parts| >= 1
    ensures Join([x] + parts, sep) == x + sep + Join(parts, sep)
  {
    assert ([x] + parts)[1..] == parts;
  }

  /** When `x` cannot start an occurrence of `sep`, the first piece of `x + sep + y` is `x`. */
  lemma SplitAtFirst(x: string, sep: string, y: string)
    requires |sep| > 0 && sep[0] !in x
    ensures Split(x + sep + y, sep) == [x] + Split(y, sep)
  {
    var s := x + sep + y;
    assert OccursAt(s, sep, |x|) by { assert s[|x|..|x| + |sep|] == sep; }
    assert forall j: nat :: j < |x| ==> !OccursAt(s, sep, j) by {
      forall j: nat | j < |x| ensures !OccursAt(s, sep, j) {

      }
    }
    IndexOfSpec(s, sep);
    assert IndexOf(s, sep) == Some(|x|);
    assert s[..|x|] == x;
    assert s[|x| + |sep|..] == y;
  }

  lemma SplitOfNoSeparatorChar(y: string, sep: string)
    requires |sep| > 0 && sep[0] !in y
    ensures Split(y, sep) == [y]
  {
    forall j: nat ensures !OccursAt(y, sep, j) {
      if j + |sep| <= |y| {
        assert y[j..j + |sep|][0] == y[j];
      }
    }
    IndexOfSpec(y, sep);
  }
}
