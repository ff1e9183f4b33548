/** String operations the client relies on, with the semantics of the
    JavaScript built-ins it calls (Array.prototype.join, String.prototype.charAt,
    String.prototype.slice, and Number.prototype.toString on integers below
    10^21 in magnitude, which it writes as plain decimal digits), plus the
    parenthesis-aware reading of the filter wire format used to state what the
    serializer produces. */
module Strings {

  /** Array.prototype.join on an array of strings: the elements with `sep`
      between neighbours; the empty array gives the empty string. */
  function Join(xs: seq<string>, sep: string): string
  {
    if |xs| == 0 then ""
    else if |xs| == 1 then xs[0]
    else xs[0] + sep + Join(xs[1..], sep)
  }

  lemma JoinPair(a: string, b: string, sep: string)
    ensures Join([a, b], sep) == a + sep + b
  {
    assert [a, b][1..] == [b];
  }

  /** Joining two non-empty lists is joining their joins. */
  lemma {:induction false} JoinAppend(xs: seq<string>, ys: seq<string>, sep: string)
    requires |xs| > 0 && |ys| > 0
    ensures Join(xs + ys, sep) == Join(xs, sep) + sep + Join(ys, sep)
  {
    if |xs| == 1 {
      assert (xs + ys)[1..] == ys;
    } else {
      assert (xs + ys)[1..] == xs[1..] + ys;
      JoinAppend(xs[1..], ys, sep);
    }
  }

  /** String.prototype.charAt: the one-character string at `i`, or "" when
      `i` is out of range. */
  function CharAt(s: string, i: int): string
  {
    if 0 <= i < |s| then [s[i]] else ""
  }

  /** String.prototype.slice(0, -1): everything but the last character. */
  function DropLast(s: string): (r: string)
    ensures |s| > 0 ==> r + [s[|s| - 1]] == s
    ensures |s| == 0 ==> r == ""
  {
    if |s| == 0 then "" else s[..|s| - 1]
  }

  // ---------------------------------------------------------------------
  // Parenthesis depth

  function Delta(ch: char): int
  {
    if ch == '(' then 1 else if ch == ')' then -1 else 0
  }

  /** Opening minus closing parentheses in `s`. */
  function Depth(s: string): int
  {
    if s == [] then 0 else Delta(s[0]) + Depth(s[1..])
  }

  lemma {:induction false} DepthConcat(a: string, b: string)
    ensures Depth(a + b) == Depth(a) + Depth(b)
  {
    if a == [] {
      assert a + b == b;
    } else {
      assert (a + b)[1..] == a[1..] + b;
      DepthConcat(a[1..], b);
    }
  }

  /** Depth of a prefix that reaches one character further. */
  lemma PrefixStep(s: string, k: nat)
    requires 0 < k <= |s|
    ensures Depth(s[..k]) == Delta(s[0]) + Depth(s[1..][..k - 1])
  {
    assert s[..k][1..] == s[1..][..k - 1];
  }

  ghost predicate NoParens(s: string)
  {
    forall i :: 0 <= i < |s| ==> s[i] != '(' && s[i] != ')'
  }

  lemma {:induction false} NoParensDepth(s: string)
    requires NoParens(s)
    ensures Depth(s) == 0
  {
    if s != [] {
      assert forall i :: 0 <= i < |s[1..]| ==> s[1..][i] == s[i + 1];
      NoParensDepth(s[1..]);
    }
  }

  /** Every opening parenthesis of `s` is closed in `s`, and none closes
      before it was opened. */
  ghost predicate Balanced(s: string)
  {
    Depth(s) == 0 && forall k :: 0 <= k <= |s| ==> Depth(s[..k]) >= 0
  }

  lemma NoParensBalanced(s: string)
    requires NoParens(s)
    ensures Balanced(s)
  {
    NoParensDepth(s);
    forall k | 0 <= k <= |s|
      ensures Depth(s[..k]) >= 0
    {
      assert NoParens(s[..k]);
      NoParensDepth(s[..k]);
    }
  }

  lemma BalancedConcat(a: string, b: string)
    requires Balanced(a) && Balanced(b)
    ensures Balanced(a + b)
  {
    DepthConcat(a, b);
    forall k | 0 <= k <= |a + b|
      ensures Depth((a + b)[..k]) >= 0
    {
      if k <= |a| {
        assert (a + b)[..k] == a[..k];
      } else {
        assert (a + b)[..k] == a + b[..k - |a|];
        DepthConcat(a, b[..k - |a|]);
      }
    }
  }

  lemma {:induction false} JoinBalanced(xs: seq<string>, sep: string)
    requires NoParens(sep)
    requires forall i :: 0 <= i < |xs| ==> Balanced(xs[i])
    ensures Balanced(Join(xs, sep))
  {
    if |xs| == 0 {
      assert NoParens("");
      NoParensBalanced("");
    } else if |xs| > 1 {
      JoinBalanced(xs[1..], sep);
      NoParensBalanced(sep);
      BalancedConcat(xs[0], sep);
      BalancedConcat(xs[0] + sep, Join(xs[1..], sep));
    }
  }

  /** Wrapping a balanced string in one pair of parentheses gives a string
      whose first parenthesis is closed by its last character and by no
      earlier one. */
  lemma Wrapped(s: string)
    requires Balanced(s)
    ensures Balanced("(" + s + ")")
    ensures forall k :: 0 < k < |s| + 2 ==> Depth(("(" + s + ")")[..k]) > 0
  {
    var t := "(" + s + ")";
    DepthConcat("(" + s, ")");
    DepthConcat("(", s);
    forall k | 0 < k < |t|
      ensures Depth(t[..k]) > 0
    {
      assert t[..k] == "(" + s[..k - 1];
      DepthConcat("(", s[..k - 1]);
    }
    assert t[..0] == [];
    assert t[..|t|] == t;
  }

  // ---------------------------------------------------------------------
  // Splitting at separators outside parentheses

  /** `s` has no `c` at nesting depth zero, reading from depth `d`. */
  ghost predicate NoTopLevel(s: string, c: char, d: int)
  {
    forall k :: 0 <= k < |s| && s[k] == c ==> d + Depth(s[..k]) != 0
  }

  /** Splits `s` at every `c` met at nesting depth zero; `d` is the current
      depth and `cur` the piece read so far. */
  function SplitTopFrom(s: string, c: char, d: int, cur: string): (r: seq<string>)
    ensures |r| > 0
    decreases |s|
  {
    if s == [] then [cur]
    else if s[0] == c && d == 0 then [cur] + SplitTopFrom(s[1..], c, 0, "")
    else SplitTopFrom(s[1..], c, d + Delta(s[0]), cur + [s[0]])
  }

  /** The pieces of `s` between its depth-zero occurrences of `c`. */
  function SplitTop(s: string, c: char): seq<string>
  {
    SplitTopFrom(s, c, 0, "")
  }

  /** Reading a piece with no depth-zero separator appends it to the
      current piece and moves the depth by its own depth. */
  lemma {:induction false} ScanPiece(x: string, rest: string, c: char, d: int, cur: string)
    requires NoTopLevel(x, c, d)
    ensures SplitTopFrom(x + rest, c, d, cur) == SplitTopFrom(rest, c, d + Depth(x), cur + x)
    decreases |x|
  {
    if x == [] {
      assert x + rest == rest;
      assert cur + x == cur;
    } else {
      assert (x + rest)[0] == x[0];
      assert x[..0] == [];
      assert (x + rest)[1..] == x[1..] + rest;
      var d' := d + Delta(x[0]);
      forall k | 0 <= k < |x[1..]| && x[1..][k] == c
        ensures d' + Depth(x[1..][..k]) != 0
      {
        PrefixStep(x, k + 1);
      }
      ScanPiece(x[1..], rest, c, d', cur + [x[0]]);
      assert cur + [x[0]] + x[1..] == cur + x;
    }
  }

  /** Splitting a join at its separator gives the list back, provided no
      element is unbalanced or holds the separator at depth zero. */
  lemma {:induction false} SplitTopJoin(xs: seq<string>, c: char)
    requires |xs| > 0
    requires forall i :: 0 <= i < |xs| ==> Depth(xs[i]) == 0 && NoTopLevel(xs[i], c, 0)
    ensures SplitTop(Join(xs, [c]), c) == xs
  {
    if |xs| == 1 {
      ScanPiece(xs[0], [], c, 0, "");
      assert xs[0] + [] == xs[0];
      assert "" + xs[0] == xs[0];
    } else {
      var rest := Join(xs[1..], [c]);
      assert Join(xs, [c]) == xs[0] + ([c] + rest);
      ScanPiece(xs[0], [c] + rest, c, 0, "");
      assert "" + xs[0] == xs[0];
      assert ([c] + rest)[1..] == rest;
      SplitTopJoin(xs[1..], c);
      assert [xs[0]] + xs[1..] == xs;
    }
  }

  /** A string without parentheses and without `c` is never split at `c`. */
  lemma PlainNoTopLevel(s: string, c: char)
    requires NoParens(s)
    requires forall i :: 0 <= i < |s| ==> s[i] != c
    ensures Depth(s) == 0 && NoTopLevel(s, c, 0)
  {
    NoParensDepth(s);
  }

  // ---------------------------------------------------------------------
  // Decimal rendering of integers (Number.prototype.toString, radix 10)

  function DigitChar(d: nat): (ch: char)
    requires d < 10
    ensures '0' <= ch <= '9'
  {
    "0123456789"[d]
  }

  function DigitValue(ch: char): (d: nat)
    requires '0' <= ch <= '9'
    ensures d < 10
  {
    (ch as int - '0' as int) as nat
  }

  /** Decimal digits of `n`, most significant first, with no leading zero. */
  function NatToString(n: nat): (r: string)
    ensures |r| > 0
    ensures forall i :: 0 <= i < |r| ==> '0' <= r[i] <= '9'
    ensures |r| > 1 ==> r[0] != '0'
  {
    if n < 10 then [DigitChar(n)] else NatToString(n / 10) + [DigitChar(n % 10)]
  }

  /** String(n) for an integer `n` with |n| < 10^21 that a double holds
      exactly: a minus sign before the digits of a negative number. Beyond
      that range JavaScript switches to exponent form, which this does not
      model. */
  function IntToString(n: int): (r: string)
    ensures |r| > 0
  {
    if n < 0 then "-" + NatToString(-n) else NatToString(n)
  }

  /** The value of a non-empty string of decimal digits. */
  function DigitsValue(s: string): nat
    requires forall i :: 0 <= i < |s| ==> '0' <= s[i] <= '9'
  {
    if s == [] then 0 else DigitsValue(s[..|s| - 1]) * 10 + DigitValue(s[|s| - 1])
  }

  /** Reads a decimal integer with an optional leading minus sign. */
  function ParseInt(s: string): (r: int)
    requires |s| > 0
    requires forall i :: (if s[0] == '-' then 1 else 0) <= i < |s| ==> '0' <= s[i] <= '9'
  {
    if s[0] == '-' then -(DigitsValue(s[1..]) as int) else DigitsValue(s)
  }

  lemma {:induction false} NatToStringValue(n: nat)
    ensures DigitsValue(NatToString(n)) == n
  {
    var r := NatToString(n);
    if n < 10 {
      assert r[..0] == [];
      assert "0123456789"[n] as int - '0' as int == n;
    } else {
      NatToStringValue(n / 10);
      assert r[..|r| - 1] == NatToString(n / 10);
      assert "0123456789"[n % 10] as int - '0' as int == n % 10;
    }
  }

  /** The rendering of an integer is a minus sign, for a negative one,
      followed by decimal digits only. */
  lemma IntToStringDigits(n: int)
    ensures forall i :: (if IntToString(n)[0] == '-' then 1 else 0) <= i < |IntToString(n)| ==>
              '0' <= IntToString(n)[i] <= '9'
    ensures IntToString(n)[0] == '-' <==> n < 0
  {
    var r := IntToString(n);
    if n < 0 {
      var d := NatToString(-n);
      assert r == "-" + d;
      forall i | 1 <= i < |r|
        ensures '0' <= r[i] <= '9'
      {
        assert r[i] == d[i - 1];
      }
    } else {
      assert '0' <= r[0] <= '9';
    }
  }

  /** Reading back the decimal rendering of an integer gives the integer. */
  lemma IntToStringRoundTrip(n: int)
    ensures forall i :: (if IntToString(n)[0] == '-' then 1 else 0) <= i < |IntToString(n)| ==>
              '0' <= IntToString(n)[i] <= '9'
    ensures ParseInt(IntToString(n)) == n
  {
    IntToStringDigits(n);
    var r := IntToString(n);
    if n < 0 {
      var d := NatToString(-n);
      assert r[0] == '-' && r[1..] == d;
      NatToStringValue(-n);
      assert ParseInt(r) == -(DigitsValue(d) as int);
    } else {
      assert r[0] != '-';
      NatToStringValue(n);
    }
  }
}
