/** Small value types and string helpers shared by the booth modules. */
module Common {

  datatype Option<+T> = None | Some(value: T)

  datatype Result<+T> = Ok(value: T) | Err(message: string)
  {
    predicate IsFailure() { Err? }

    function PropagateFailure<U>(): Result<U>
      requires Err?
    {
      Err(message)
    }

    function Extract(): T
      requires Ok?
    {
      value
    }
  }

  /** One byte of image data. */
  type Byte = b: int | 0 <= b < 256

  type Bytes = seq<Byte>

  /** Decimal digits of a natural number, as Python's `str` prints it. */
  function NatToString(n: nat): (s: string)
    ensures |s| >= 1
    ensures forall i :: 0 <= i < |s| ==> '0' <= s[i] <= '9'
    ensures (s[0] == '0') <==> n == 0
    decreases n
  {
    if n < 10 then [DigitChar(n)] else NatToString(n / 10) + [DigitChar(n % 10)]
  }

  function DigitChar(d: nat): (c: char)
    requires d < 10
    ensures '0' <= c <= '9'
    ensures DigitValue(c) == d
  {
    (('0' as int) + d) as char
  }

  /** The value of a decimal digit; any other character counts as 0. */
  function DigitValue(c: char): (d: nat)
    ensures d < 10
  {
    if '0' <= c <= '9' then (c as int) - ('0' as int) else 0
  }

  /** The number a string of decimal digits spells, most significant digit first. */
  function DigitsValue(s: string): nat
  {
    if s == [] then 0 else 10 * DigitsValue(s[..|s| - 1]) + DigitValue(s[|s| - 1])
  }

  /** Reading the decimal digits of `n` back gives `n`. */
  lemma {:induction false} NatToStringValue(n: nat)
    ensures DigitsValue(NatToString(n)) == n
    decreases n
  {
    var s := NatToString(n);
    if n >= 10 {
      NatToStringValue(n / 10);
      assert s[..|s| - 1] == NatToString(n / 10);
    } else {
      assert s[..|s| - 1] == [];
    }
  }

  /** Python's `str` of an integer: a minus sign before the digits of a negative value. */
  function IntToString(n: int): (s: string)
    ensures |s| >= 1
    ensures (s[0] == '-') <==> n < 0
  {
    if n < 0 then "-" + NatToString(-n) else NatToString(n)
  }

  /** Reading the printed integer back: the digits give `n`, after the sign when negative. */
  lemma IntToStringValue(n: int)
    ensures n >= 0 ==> DigitsValue(IntToString(n)) == n
    ensures n < 0 ==> DigitsValue(IntToString(n)[1..]) == -n
  {
    if n < 0 {
      assert IntToString(n)[1..] == NatToString(-n);
      NatToStringValue(-n);
    } else {
      NatToStringValue(n);
    }
  }

  /** Python's `//`: rounds toward negative infinity (Dafny's `/` is Euclidean). */
  function FloorDiv(a: int, b: int): (q: int)
    requires b != 0
    ensures b > 0 ==> q * b <= a < q * b + b
    ensures b < 0 ==> q * b + b < a <= q * b
  {
    if b > 0 then a / b else (-a) / (-b)
  }

  predicate IsPrefix(p: string, s: string)
  {
    |p| <= |s| && s[..|p|] == p
  }

  /** True when `pat` occurs in `s` starting at index `i`. */
  predicate OccursAt(s: string, pat: string, i: int)
  {
    0 <= i <= |s| - |pat| && s[i..i + |pat|] == pat
  }

  /** True when `pat` occurs somewhere in `s`. */
  ghost predicate Contains(s: string, pat: string)
  {
    exists i :: OccursAt(s, pat, i)
  }

  /** `s.split("/")[-1]`: the text after the last slash, or all of `s` when it has none. */
  function LastSegment(s: string): (r: string)
    ensures '/' !in r
    ensures |r| <= |s| && s[|s| - |r|..] == r
    ensures |r| < |s| ==> s[|s| - |r| - 1] == '/'
    ensures '/' !in s ==> r == s
    decreases |s|
  {
    if s == [] then []
    else if s[|s| - 1] == '/' then []
    else LastSegment(s[..|s| - 1]) + [s[|s| - 1]]
  }

  /** Python's `s.replace(pat, rep)`: every non-overlapping occurrence, left to right. */
  function Replace(s: string, pat: string, rep: string): (r: string)
    requires |pat| > 0
    decreases |s|
  {
    if |s| < |pat| then s
    else if s[..|pat|] == pat then rep + Replace(s[|pat|..], pat, rep)
    else [s[0]] + Replace(s[1..], pat, rep)
  }

  /** A prefix that does not hold the pattern's first character passes through `Replace`. */
  lemma {:induction false} ReplaceKeepsPrefix(pre: string, s: string, pat: string, rep: string)
    requires |pat| > 0 && pat[0] !in pre
    ensures Replace(pre + s, pat, rep) == pre + Replace(s, pat, rep)
    decreases |pre|
  {
    var x := pre + s;
    if pre == [] {
      assert x == s;
    } else if |x| < |pat| {
      assert Replace(s, pat, rep) == s;
    } else {
      var rest := pre[1..] + s;
      assert x[0] == pre[0] && pre[0] != pat[0];
      assert x[..|pat|] != pat by {
        assert x[..|pat|][0] == x[0];
      }
      assert x[1..] == rest;
      assert Replace(x, pat, rep) == [pre[0]] + Replace(rest, pat, rep);
      ReplaceKeepsPrefix(pre[1..], s, pat, rep);
      assert [pre[0]] + (pre[1..] + Replace(s, pat, rep)) == pre + Replace(s, pat, rep);
    }
  }

  /** A string without the pattern comes back from `Replace` unchanged. */
  lemma {:induction false} ReplaceAbsent(s: string, pat: string, rep: string)
    requires |pat| > 0
    requires !Contains(s, pat)
    ensures Replace(s, pat, rep) == s
    decreases |s|
  {
    if |s| >= |pat| {
      assert !OccursAt(s, pat, 0);
      assert !Contains(s[1..], pat) by {
        forall i | 0 <= i <= |s| - 1 - |pat|
          ensures !OccursAt(s[1..], pat, i)
        {
          assert s[1..][i..i + |pat|] == s[i + 1..i + 1 + |pat|];
          assert !OccursAt(s, pat, i + 1);
        }
      }
      ReplaceAbsent(s[1..], pat, rep);
      assert [s[0]] + s[1..] == s;
    }
  }

  /** Replacing a pattern by itself is the identity. */
  lemma {:induction false} ReplaceSelf(s: string, pat: string)
    requires |pat| > 0
    ensures Replace(s, pat, pat) == s
    decreases |s|
  {
    if |s| < |pat| {
    } else if s[..|pat|] == pat {
      ReplaceSelf(s[|pat|..], pat);
      assert s[..|pat|] + s[|pat|..] == s;
    } else {
      ReplaceSelf(s[1..], pat);
      assert [s[0]] + s[1..] == s;
    }
  }

  /** No character of `rep` occurs in `pat`. */
  predicate Disjoint(rep: string, pat: string)
  {
    forall i :: 0 <= i < |rep| ==> rep[i] !in pat
  }

  /** A prefix of the result made only of pattern characters was copied unchanged from `t`. */
  lemma {:induction false} ReplacePrefixCopied(t: string, pat: string, rep: string, k: nat)
    requires |pat| > 0 && |rep| > 0 && Disjoint(rep, pat)
    requires k <= |Replace(t, pat, rep)|
    ensures (forall m :: 0 <= m < k ==> Replace(t, pat, rep)[m] in pat) ==>
              k <= |t| && t[..k] == Replace(t, pat, rep)[..k]
    decreases |t|
  {
    var r := Replace(t, pat, rep);
    if k == 0 || |t| < |pat| {
    } else if t[..|pat|] == pat {
      assert r[0] == rep[0] && rep[0] !in pat;
    } else {
      var rest := Replace(t[1..], pat, rep);
      assert r == [t[0]] + rest;
      ReplacePrefixCopied(t[1..], pat, rep, k - 1);
      if forall m :: 0 <= m < k ==> r[m] in pat {
        forall m | 0 <= m < k - 1
          ensures rest[m] in pat
        {
          assert rest[m] == r[m + 1];
        }
        assert t[..k] == [t[0]] + t[1..][..k - 1];
      }
    }
  }

  /** A replacement that shares no character with the pattern cannot start an occurrence. */
  lemma NoMatchAfterReplacement(rep: string, rest: string, pat: string)
    requires |pat| > 0 && Disjoint(rep, pat) && !Contains(rest, pat)
    ensures !Contains(rep + rest, pat)
  {
    var r := rep + rest;
    forall i
      ensures !OccursAt(r, pat, i)
    {
      if 0 <= i <= |r| - |pat| && i < |rep| {
        assert r[i..i + |pat|][0] == rep[i];
        assert rep[i] !in pat;
      } else if 0 <= i <= |r| - |pat| {
        assert r[i..i + |pat|] == rest[i - |rep|..i - |rep| + |pat|];
        assert !OccursAt(rest, pat, i - |rep|);
      }
    }
  }

  /** A character that did not start a match still does not, once the rest is replaced. */
  lemma NoMatchAfterCopiedChar(s: string, pat: string, rep: string)
    requires |pat| > 0 && |rep| > 0 && Disjoint(rep, pat)
    requires |s| >= |pat| && s[..|pat|] != pat
    requires !Contains(Replace(s[1..], pat, rep), pat)
    ensures !Contains([s[0]] + Replace(s[1..], pat, rep), pat)
  {
    var rest := Replace(s[1..], pat, rep);
    var r := [s[0]] + rest;
    var k := |pat| - 1;
    forall i
      ensures !OccursAt(r, pat, i)
    {
      if i == 0 && |r| >= |pat| {
        assert r[..|pat|] == [s[0]] + rest[..k];
        if rest[..k] == pat[1..] {
          forall m | 0 <= m < k
            ensures rest[m] in pat
          {
            assert rest[m] == rest[..k][m] == pat[m + 1];
          }
          ReplacePrefixCopied(s[1..], pat, rep, k);
          assert s[..|pat|] == [s[0]] + s[1..][..k];
          assert pat == [pat[0]] + pat[1..];
        }
      } else if 0 < i <= |r| - |pat| {
        assert r[i..i + |pat|] == rest[i - 1..i - 1 + |pat|];
        assert !OccursAt(rest, pat, i - 1);
      }
    }
  }

  /** When the replacement shares no character with the pattern and is not empty, no
      occurrence of the pattern is left. */
  lemma {:induction false} ReplaceRemovesAll(s: string, pat: string, rep: string)
    requires |pat| > 0 && |rep| > 0 && Disjoint(rep, pat)
    ensures !Contains(Replace(s, pat, rep), pat)
    decreases |s|
  {
    if |s| < |pat| {
      assert Replace(s, pat, rep) == s;
    } else if s[..|pat|] == pat {
      ReplaceRemovesAll(s[|pat|..], pat, rep);
      NoMatchAfterReplacement(rep, Replace(s[|pat|..], pat, rep), pat);
    } else {
      ReplaceRemovesAll(s[1..], pat, rep);
      NoMatchAfterCopiedChar(s, pat, rep);
    }
  }
}
