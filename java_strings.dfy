/**
 * The few java.lang.String and java.lang.Boolean/Integer behaviours the
 * plugin relies on: String.trim, Boolean.parseBoolean and
 * Integer.toString.
 */
module JavaStrings {

  /** String.trim removes every character whose code is at most U+0020. */
  predicate IsTrimmable(c: char)
  {
    c <= ' '
  }

  predicate AllTrimmable(s: string)
  {
    forall i :: 0 <= i < |s| ==> IsTrimmable(s[i])
  }

  /** Drops the leading trimmable characters. */
  function TrimStart(s: string): (r: string)
    ensures |r| <= |s| && r == s[|s| - |r|..]
    ensures AllTrimmable(s[..|s| - |r|])
    ensures |r| > 0 ==> !IsTrimmable(r[0])
  {
    if |s| > 0 && IsTrimmable(s[0]) then
      var r := TrimStart(s[1..]);
      var k := |s| - |r|;
      assert r == s[k..];
      assert AllTrimmable(s[..k]) by {
        forall i | 0 <= i < k ensures IsTrimmable(s[..k][i]) {
          if i > 0 {
            assert s[..k][i] == s[1..][..k - 1][i - 1];
          }
        }
      }
      r
    else
      s
  }

  /** Drops the trailing trimmable characters. */
  function TrimEnd(s: string): (r: string)
    ensures |r| <= |s| && r == s[..|r|]
    ensures AllTrimmable(s[|r|..])
    ensures |r| > 0 ==> !IsTrimmable(r[|r| - 1])
  {
    if |s| > 0 && IsTrimmable(s[|s| - 1]) then
      var r := TrimEnd(s[..|s| - 1]);
      assert s[..|s| - 1][..|r|] == s[..|r|];
      assert s[|r|..] == s[..|s| - 1][|r|..] + [s[|s| - 1]];
      r
    else
      s
  }

  /** String.trim. */
  function Trim(s: string): string
  {
    TrimEnd(TrimStart(s))
  }

  lemma {:induction false} TrimStartOfPadded(pre: string, w: string)
    requires AllTrimmable(pre)
    requires |w| > 0 ==> !IsTrimmable(w[0])
    ensures TrimStart(pre + w) == w
    decreases |pre|
  {
    if |pre| > 0 {
      assert (pre + w)[1..] == pre[1..] + w;
      TrimStartOfPadded(pre[1..], w);
    } else {
      assert pre + w == w;
    }
  }

  lemma {:induction false} TrimEndOfPadded(w: string, post: string)
    requires AllTrimmable(post)
    requires |w| > 0 ==> !IsTrimmable(w[|w| - 1])
    ensures TrimEnd(w + post) == w
    decreases |post|
  {
    if |post| > 0 {
      assert (w + post)[..|w + post| - 1] == w + post[..|post| - 1];
      TrimEndOfPadded(w, post[..|post| - 1]);
    } else {
      assert w + post == w;
    }
  }

  /**
   * Trim removes exactly the padding: a word whose first and last characters
   * are not trimmable comes back unchanged from any padding around it, so
   * " install " trims to "install".
   */
  lemma TrimOfPadded(pre: string, w: string, post: string)
    requires AllTrimmable(pre) && AllTrimmable(post)
    requires |w| > 0 ==> !IsTrimmable(w[0]) && !IsTrimmable(w[|w| - 1])
    ensures Trim(pre + w + post) == w
  {
    if |w| > 0 {
      assert pre + w + post == pre + (w + post);
      TrimStartOfPadded(pre, w + post);
      TrimEndOfPadded(w, post);
    } else {
      assert pre + w + post == pre + post;
      assert AllTrimmable(pre + post);
      BlankTrimsToEmpty(pre + post);
    }
  }

  /** A string trims to empty exactly when every character is trimmable. */
  lemma BlankTrimsToEmpty(s: string)
    ensures Trim(s) == "" <==> AllTrimmable(s)
  {
    var t := TrimStart(s);
    if !AllTrimmable(s) {
      var i :| 0 <= i < |s| && !IsTrimmable(s[i]);
      assert TrimEnd(t) != "";
    }
  }

  /** Character.toLowerCase restricted to the ASCII letters. */
  function LowerAscii(c: char): char
  {
    if 'A' <= c <= 'Z' then (c as int + 32) as char else c
  }

  function LowerAsciiString(s: string): (r: string)
    ensures |r| == |s|
    ensures forall i :: 0 <= i < |s| ==> r[i] == LowerAscii(s[i])
  {
    if s == [] then [] else [LowerAscii(s[0])] + LowerAsciiString(s[1..])
  }

  /** String.equalsIgnoreCase, comparing character by character. */
  predicate EqualsIgnoreCase(a: string, b: string)
  {
    |a| == |b| && forall i :: 0 <= i < |a| ==> LowerAscii(a[i]) == LowerAscii(b[i])
  }

  /**
   * Boolean.parseBoolean: true exactly for "true" in any mix of cases.
   * The reference definition is "lower-casing gives true".
   */
  function ParseBoolean(s: string): (b: bool)
    ensures b <==> LowerAsciiString(s) == "true"
  {
    var r := EqualsIgnoreCase(s, "true");
    assert r ==> LowerAsciiString(s) == "true";
    assert LowerAsciiString(s) == "true" ==> r by {
      if LowerAsciiString(s) == "true" {
        forall i | 0 <= i < |s| ensures LowerAscii(s[i]) == LowerAscii("true"[i]) {
          assert LowerAsciiString(s)[i] == "true"[i];
        }
      }
    }
    r
  }

  function Digit(d: nat): (c: char)
    requires d < 10
    ensures '0' <= c <= '9'
  {
    ('0' as int + d) as char
  }

  /** Integer.toString for a value that is not negative. */
  function NatToString(n: nat): (s: string)
    ensures |s| > 0
    ensures forall i :: 0 <= i < |s| ==> '0' <= s[i] <= '9'
    ensures s[0] == '0' ==> n == 0 && s == "0"
  {
    if n < 10 then [Digit(n)] else NatToString(n / 10) + [Digit(n % 10)]
  }

  /** Integer.toString: a minus sign before the magnitude of a negative value. */
  function IntToString(n: int): (s: string)
    ensures |s| > 0
    ensures n >= 0 ==> s == NatToString(n)
    ensures n < 0 ==> s == "-" + NatToString(-n)
  {
    if n < 0 then "-" + NatToString(-n) else NatToString(n)
  }

  /** The value of a string of decimal digits, read as Integer.parseInt would. */
  function DecimalValue(s: string): nat
    requires forall i :: 0 <= i < |s| ==> '0' <= s[i] <= '9'
  {
    if s == [] then 0 else 10 * DecimalValue(s[..|s| - 1]) + (s[|s| - 1] as int - '0' as int)
  }

  /** Reading back what Integer.toString wrote gives the number again. */
  lemma {:induction false} DecimalRoundTrip(n: nat)
    ensures DecimalValue(NatToString(n)) == n
  {
    if n >= 10 {
      var s := NatToString(n);
      assert s[..|s| - 1] == NatToString(n / 10);
      DecimalRoundTrip(n / 10);
    }
  }

  /** Distinct numbers are written differently. */
  lemma NatToStringInjective(a: nat, b: nat)
    ensures NatToString(a) == NatToString(b) ==> a == b
  {
    DecimalRoundTrip(a);
    DecimalRoundTrip(b);
  }
}
