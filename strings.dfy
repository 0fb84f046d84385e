/**
 * The JavaScript string operations the proxy relies on: `startsWith`,
 * `includes`/`indexOf`, `replace` with a string pattern, `split` on one
 * character, decimal formatting of integers and the global `parseInt`.
 */
module Strings {
  import opened Wrappers

  predicate StartsWith(s: string, prefix: string) {
    |prefix| <= |s| && s[..|prefix|] == prefix
  }

  /** `t` occurs in `s` starting at index `i`. */
  predicate OccursAt(s: string, t: string, i: int) {
    0 <= i && i + |t| <= |s| && s[i..i + |t|] == t
  }

  /** `s.indexOf(t, i)` for `i <= |s|`: the first occurrence at or after `i`, or -1. */
  function IndexFrom(s: string, t: string, i: nat): (r: int)
    requires i <= |s|
    decreases |s| - i
    ensures r == -1 || (i <= r <= |s| && OccursAt(s, t, r))
    ensures r == -1 ==> forall j :: i <= j <= |s| ==> !OccursAt(s, t, j)
    ensures r != -1 ==> forall j :: i <= j < r ==> !OccursAt(s, t, j)
  {
    if OccursAt(s, t, i) then i
    else if i == |s| then -1
    else IndexFrom(s, t, i + 1)
  }

  /** `s.indexOf(t)` */
  function IndexOf(s: string, t: string): int {
    IndexFrom(s, t, 0)
  }

  /** `s.includes(t)` */
  predicate Contains(s: string, t: string) {
    exists i :: 0 <= i <= |s| && OccursAt(s, t, i)
  }

  /** `includes` agrees with `indexOf`: the text occurs exactly when `indexOf` finds it. */
  lemma ContainsIff(s: string, t: string)
    ensures Contains(s, t) <==> IndexOf(s, t) != -1
  {
  }

  /** A string that lacks some character of `t` does not include `t`. */
  lemma {:induction false} NotContainsByCharAt(s: string, t: string, k: nat)
    ensures k < |t| && t[k] !in s ==> !Contains(s, t)
  {
    if k < |t| && Contains(s, t) {
      var r :| 0 <= r <= |s| && OccursAt(s, t, r);
      assert s[r..r + |t|][k] == s[r + k];
    }
  }

  /** `t` occurs at `i` when each of its characters is found there. */
  lemma ContainsAt(s: string, t: string, i: nat)
    requires i + |t| <= |s| && forall k :: 0 <= k < |t| ==> s[i + k] == t[k]
    ensures Contains(s, t)
  {
    forall k | 0 <= k < |t| ensures s[i..i + |t|][k] == t[k] {
      assert s[i..i + |t|][k] == s[i + k];
    }
    assert s[i..i + |t|] == t;
    assert OccursAt(s, t, i);
  }

  /** `s.replace(pattern, rep)` with a string pattern: only the first occurrence is replaced
      (`rep` is taken literally; the `$` replacement patterns are not modelled). */
  function ReplaceFirst(s: string, pattern: string, rep: string): (r: string)
    ensures !Contains(s, pattern) ==> r == s
    ensures Contains(s, pattern) ==>
      exists i :: 0 <= i <= |s| && OccursAt(s, pattern, i) && r == s[..i] + rep + s[i + |pattern|..]
  {
    var i := IndexOf(s, pattern);
    if i == -1 then s else s[..i] + rep + s[i + |pattern|..]
  }

  /** Replacing a prefix that the string starts with removes exactly that prefix. */
  lemma {:induction false} ReplacePrefix(s: string, prefix: string)
    requires StartsWith(s, prefix)
    ensures ReplaceFirst(s, prefix, "") == s[|prefix|..]
  {
    assert OccursAt(s, prefix, 0);
    assert IndexOf(s, prefix) == 0;
  }

  // ---------------------------------------------------------------------------
  // split and join on one separator character

  /** `s.split(c)` for a one-character separator: "" gives [""], "a,,b" gives ["a", "", "b"]. */
  function Split(s: string, c: char): (parts: seq<string>)
    decreases |s|
    ensures |parts| >= 1
  {
    if |s| == 0 then [""]
    else if s[0] == c then [""] + Split(s[1..], c)
    else
      var rest := Split(s[1..], c);
      [[s[0]] + rest[0]] + rest[1..]
  }

  /** `parts.join(c)` */
  function Join(parts: seq<string>, c: char): string
    decreases |parts|
  {
    if |parts| == 0 then ""
    else if |parts| == 1 then parts[0]
    else parts[0] + [c] + Join(parts[1..], c)
  }

  lemma JoinCons(x: string, rest: seq<string>, c: char)
    requires |rest| >= 1
    ensures Join([x] + rest, c) == x + [c] + Join(rest, c)
  {
    assert ([x] + rest)[1..] == rest;
  }

  /** No part contains the separator. */
  predicate Free(parts: seq<string>, c: char) {
    forall i :: 0 <= i < |parts| ==> c !in parts[i]
  }

  /** Prepending a character other than the separator to the first piece. */
  lemma JoinExtendFirst(x: char, rest: seq<string>, c: char)
    requires |rest| >= 1 && x != c && Free(rest, c)
    ensures Join([[x] + rest[0]] + rest[1..], c) == [x] + Join(rest, c)
    ensures Free([[x] + rest[0]] + rest[1..], c)
  {
    var parts := [[x] + rest[0]] + rest[1..];
    if |rest| == 1 {
      assert Join(parts, c) == [x] + rest[0];
    } else {
      assert parts[1..] == rest[1..];
      assert Join(parts, c) == [x] + rest[0] + [c] + Join(rest[1..], c);
    }
    forall i | 0 <= i < |parts| ensures c !in parts[i] {
      if i == 0 {
        assert c !in rest[0];
      } else {
        assert parts[i] == rest[i];
      }
    }
  }

  /** Joining the pieces of a split gives back the string, and no piece holds the separator. */
  lemma {:induction false} JoinSplit(s: string, c: char)
    decreases |s|
    ensures Join(Split(s, c), c) == s
    ensures Free(Split(s, c), c)
  {
    if |s| == 0 {
    } else if s[0] == c {
      JoinSplit(s[1..], c);
      var rest := Split(s[1..], c);
      assert Split(s, c) == [""] + rest;
      assert Join([""] + rest, c) == "" + [c] + Join(rest, c);
    } else {
      JoinSplit(s[1..], c);
      var rest := Split(s[1..], c);
      assert Split(s, c) == [[s[0]] + rest[0]] + rest[1..];
      JoinExtendFirst(s[0], rest, c);
      assert s == [s[0]] + s[1..];
    }
  }

  /** Splitting the join of separator-free parts gives back the parts. */
  lemma {:induction false} SplitJoin(parts: seq<string>, c: char)
    requires |parts| >= 1 && Free(parts, c)
    decreases |parts|, |parts[0]|
    ensures Split(Join(parts, c), c) == parts
  {
    var p := parts[0];
    if |p| == 0 {
      if |parts| == 1 {
      } else {
        var tail := parts[1..];
        assert Free(tail, c) by {
          forall i | 0 <= i < |tail| ensures c !in tail[i] { assert tail[i] == parts[i + 1]; }
        }
        SplitJoin(tail, c);
        var s := Join(parts, c);
        assert s == [c] + Join(tail, c);
        assert s[1..] == Join(tail, c);
        assert parts == [""] + tail;
      }
    } else {
      var shorter := [p[1..]] + parts[1..];
      assert Free(shorter, c) by {
        forall i | 0 <= i < |shorter| ensures c !in shorter[i] {
          if i == 0 {
            assert c !in p;
          } else {
            assert shorter[i] == parts[i];
          }
        }
      }
      SplitJoin(shorter, c);
      var s := Join(parts, c);
      assert c !in p;
      if |parts| == 1 {
        assert s == p;
        assert s[1..] == Join(shorter, c);
      } else {
        assert shorter[1..] == parts[1..];
        assert s == p + [c] + Join(parts[1..], c);
        assert Join(shorter, c) == p[1..] + [c] + Join(parts[1..], c);
        assert s[1..] == Join(shorter, c);
      }
      assert s[0] == p[0];
      var rest := Split(s[1..], c);
      assert rest == shorter;
      assert [p[0]] + p[1..] == p;
      assert parts == [p] + parts[1..];
    }
  }

  /** Joining separator-free parts of one length is injective. */
  lemma JoinInjective(a: seq<string>, b: seq<string>, c: char)
    requires |a| >= 1 && |b| >= 1 && Free(a, c) && Free(b, c)
    requires Join(a, c) == Join(b, c)
    ensures a == b
  {
    SplitJoin(a, c);
    SplitJoin(b, c);
  }

  // ---------------------------------------------------------------------------
  // integers as decimal text

  function DigitChar(d: nat): (c: char)
    requires d < 10
  {
    "0123456789"[d]
  }

  /** The decimal digits of `n`, most significant first, without leading zeros. */
  function NatToString(n: nat): (s: string)
    decreases n
    ensures |s| >= 1
    ensures forall i :: 0 <= i < |s| ==> '0' <= s[i] <= '9'
    ensures n >= 10 ==> s[0] != '0'
  {
    if n < 10 then [DigitChar(n)] else NatToString(n / 10) + [DigitChar(n % 10)]
  }

  /** `String(n)` for an integer `n`. */
  function IntToString(n: int): string {
    if n < 0 then "-" + NatToString(-n) else NatToString(n)
  }

  /** The white space `parseInt` skips: ECMAScript's WhiteSpace and LineTerminator characters. */
  predicate IsJsSpace(c: char) {
    || c == '\t' || c == '\n' || c == '\r' || c == ' '
    || c == '\U{0B}' || c == '\U{0C}' || c == '\U{A0}' || c == '\U{1680}'
    || ('\U{2000}' <= c <= '\U{200A}')
    || c == '\U{2028}' || c == '\U{2029}' || c == '\U{202F}' || c == '\U{205F}'
    || c == '\U{3000}' || c == '\U{FEFF}'
  }

  function TrimStart(s: string): (r: string)
    decreases |s|
    ensures |r| <= |s| && r == s[|s| - |r|..]
    ensures |r| > 0 ==> !IsJsSpace(r[0])
  {
    if |s| > 0 && IsJsSpace(s[0]) then TrimStart(s[1..]) else s
  }

  /** The value of `c` as a digit in base `radix` (10 or 16), or -1. */
  function DigitValue(c: char, radix: nat): int {
    if '0' <= c <= '9' then (c as int) - ('0' as int)
    else if radix == 16 && 'a' <= c <= 'f' then (c as int) - ('a' as int) + 10
    else if radix == 16 && 'A' <= c <= 'F' then (c as int) - ('A' as int) + 10
    else -1
  }

  /** The longest prefix of `s` made of digits of base `radix`. */
  function DigitPrefix(s: string, radix: nat): (d: string)
    decreases |s|
    ensures StartsWith(s, d)
    ensures forall i :: 0 <= i < |d| ==> DigitValue(d[i], radix) >= 0
    ensures |d| < |s| ==> DigitValue(s[|d|], radix) < 0
  {
    if |s| > 0 && DigitValue(s[0], radix) >= 0 then [s[0]] + DigitPrefix(s[1..], radix) else ""
  }

  /** The number a string of digits denotes in base `radix`. */
  function DigitsValue(d: string, radix: nat): nat
    decreases |d|
  {
    if |d| == 0 then 0
    else
      var v := DigitValue(d[|d| - 1], radix);
      DigitsValue(d[..|d| - 1], radix) * radix + (if v < 0 then 0 else v)
  }

  /** The unsigned part of `parseInt`: a `0x`/`0X` prefix selects base 16, then the longest
      run of digits is read; `None` when there is no digit. */
  function ParseDigits(u: string): Option<nat> {
    var hex := |u| >= 2 && u[0] == '0' && (u[1] == 'x' || u[1] == 'X');
    var radix := if hex then 16 else 10;
    var d := DigitPrefix(if hex then u[2..] else u, radix);
    if |d| == 0 then None else Some(DigitsValue(d, radix))
  }

  /**
   * The global `parseInt(s)` with no radix: leading white space is skipped, one sign
   * is read, then the digits as in `ParseDigits`. `None` stands for NaN. Precision
   * loss on very long numbers is not modelled.
   */
  function ParseInt(s: string): Option<int> {
    var t := TrimStart(s);
    if |t| > 0 && (t[0] == '-' || t[0] == '+') then
      match ParseDigits(t[1..])
      case None => None
      case Some(v) => var n: int := v; Some(if t[0] == '-' then -n else n)
    else
      match ParseDigits(t)
      case None => None
      case Some(v) => Some(v)
  }

  lemma {:induction false} DigitsOfNat(n: nat)
    decreases n
    ensures DigitsValue(NatToString(n), 10) == n
  {
    var s := NatToString(n);
    if n < 10 {
      assert s[..0] == "";
    } else {
      DigitsOfNat(n / 10);
      assert s[..|s| - 1] == NatToString(n / 10);
      assert s[|s| - 1] == DigitChar(n % 10);
    }
  }

  lemma {:induction false} AllDigitsPrefix(s: string)
    decreases |s|
    requires forall i :: 0 <= i < |s| ==> '0' <= s[i] <= '9'
    ensures DigitPrefix(s, 10) == s
  {
    if |s| > 0 {
      AllDigitsPrefix(s[1..]);
    }
  }

  lemma {:induction false} ParseDigitsOfNat(n: nat)
    ensures ParseDigits(NatToString(n)) == Some(n)
  {
    var u := NatToString(n);
    if |u| >= 2 {
      assert '0' <= u[1] <= '9';
    }
    AllDigitsPrefix(u);
    DigitsOfNat(n);
  }

  lemma TrimNoSpace(s: string)
    requires |s| > 0 && !IsJsSpace(s[0])
    ensures TrimStart(s) == s
  {
  }

  /** `parseInt` reads a minus sign followed by the digits of `m` as `-m`. */
  lemma NegativeText(s: string, m: nat)
    requires m > 0 && s == "-" + NatToString(m)
    ensures ParseInt(s) == Some(-(m as int))
  {
    var u := NatToString(m);
    TrimNoSpace(s);
    assert s[1..] == u;
    ParseDigitsOfNat(m);
  }

  lemma NegativeString(n: int)
    requires n < 0
    ensures IntToString(n) == "-" + NatToString(-n)
  {
  }

  /** `parseInt(String(n))` for a negative `n`. */
  lemma NegativeCase(n: int)
    requires n < 0
    ensures ParseInt(IntToString(n)) == Some(n)
  {
    NegativeString(n);
    NegativeText(IntToString(n), -n);
  }

  /** `parseInt(String(n))` for `n >= 0`: the digits have no sign and no leading space. */
  lemma NonNegativeText(n: nat)
    ensures ParseInt(IntToString(n)) == Some(n)
  {
    assert IntToString(n) == NatToString(n);
    var s := NatToString(n);
    assert '0' <= s[0] <= '9';
    TrimNoSpace(s);
    ParseDigitsOfNat(n);
  }

  /** `parseInt(String(n))` gives back `n`. */
  lemma {:induction false} ParseIntOfString(n: int)
    ensures ParseInt(IntToString(n)) == Some(n)
  {
    if n < 0 {
      NegativeCase(n);
    } else {
      NonNegativeText(n);
    }
  }

}
