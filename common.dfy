/**
 * Shared vocabulary of the model: optional values, the random draws and the
 * number and text operations of the TypeScript and Java runtimes that the
 * console's services rely on, written out on exact reals and on `seq<char>`.
 */
module Common {

  datatype Option<+T> = None | Some(value: T)

  /** A draw of `Math.random()` (or of `nextDouble()` scaled to [0,1)): a real in [0,1). */
  type Unit = r: real | 0.0 <= r < 1.0

  /** `Math.min` and `Math.max` on two numbers. */
  function Min(a: real, b: real): (r: real)
    ensures r <= a && r <= b && (r == a || r == b)
  {
    if a <= b then a else b
  }

  function Max(a: real, b: real): (r: real)
    ensures r >= a && r >= b && (r == a || r == b)
  {
    if a >= b then a else b
  }

  /** Rounds toward zero, as the remainder operator of both runtimes does. */
  function Trunc(x: real): (t: int)
    ensures x >= 0.0 ==> t as real <= x < t as real + 1.0
    ensures x < 0.0 ==> t as real - 1.0 < x <= t as real
  {
    if x >= 0.0 then x.Floor else -((-x).Floor)
  }

  /**
   * The remainder `x % 360` of JavaScript numbers and Java doubles: the result
   * has the sign of the dividend (unlike Dafny's Euclidean `%`) and differs
   * from `x` by a whole number of turns.
   */
  function Mod360(x: real): (r: real)
    ensures x >= 0.0 ==> 0.0 <= r < 360.0
    ensures x < 0.0 ==> -360.0 < r <= 0.0
    ensures x - r == Trunc(x / 360.0) as real * 360.0
  {
    x - Trunc(x / 360.0) as real * 360.0
  }

  /**
   * The remainder corrected by one turn when negative is the Euclidean
   * remainder: `x` minus the whole turns below it.
   */
  lemma NonNegativeRemainder(x: real)
    ensures var n := Mod360(x);
      (if n < 0.0 then n + 360.0 else n) == x - (x / 360.0).Floor as real * 360.0
  {
    var n := Mod360(x);
    var q := x / 360.0;
    var t := Trunc(q);
    assert n == (q - t as real) * 360.0;
    if n < 0.0 {
      assert t as real - 1.0 < q < t as real;
    } else if x < 0.0 {
      assert q == t as real;
    }
  }

  lemma MulNonNegative(a: real, b: real)
    requires a >= 0.0 && b >= 0.0
    ensures a * b >= 0.0
  {
  }

  /** A fraction of [0,1) of a positive span lies below the span. */
  lemma ScaledBelow(fraction: real, span: real, scaled: real)
    requires 0.0 <= fraction < 1.0 && span > 0.0 && scaled == fraction * span
    ensures 0.0 <= scaled < span
  {
    assert span - scaled == (1.0 - fraction) * span;
    assert (1.0 - fraction) * span > 0.0;
  }

  /** `Math.round` of JavaScript and Java: rounds half toward positive infinity. */
  function HalfUp(x: real): (n: int)
    ensures x - 0.5 < n as real <= x + 0.5
  {
    (x + 0.5).Floor
  }

  lemma {:induction false} HalfUpOfInt(k: int)
    ensures HalfUp(k as real) == k
  {
    assert (k as real + 0.5).Floor == k;
  }

  // ---------------------------------------------------------------------
  // Text

  /** Characters that `String.prototype.trim` removes (WhiteSpace and LineTerminator of ECMAScript). */
  predicate IsJsWhitespace(c: char)
  {
    c == ' ' || c == '\t' || c == '\n' || c == '\r' || c == '\U{000B}' || c == '\U{000C}'
    || c == '\U{00A0}' || c == '\U{1680}' || ('\U{2000}' <= c <= '\U{200A}')
    || c == '\U{2028}' || c == '\U{2029}' || c == '\U{202F}' || c == '\U{205F}'
    || c == '\U{3000}' || c == '\U{FEFF}'
  }

  /** Characters for which Java's `Character.isWhitespace` holds. */
  predicate IsJavaWhitespace(c: char)
  {
    c == ' ' || ('\t' <= c <= '\r') || ('\U{001C}' <= c <= '\U{001F}')
    || c == '\U{1680}' || ('\U{2000}' <= c <= '\U{2006}') || ('\U{2008}' <= c <= '\U{200A}')
    || c == '\U{2028}' || c == '\U{2029}' || c == '\U{205F}' || c == '\U{3000}'
  }

  function TrimStart(s: string): (r: string)
    ensures |r| <= |s| && r == s[|s| - |r|..]
    ensures r == [] || !IsJsWhitespace(r[0])
    ensures forall i :: 0 <= i < |s| - |r| ==> IsJsWhitespace(s[i])
  {
    if s == [] || !IsJsWhitespace(s[0]) then s else TrimStart(s[1..])
  }

  function TrimEnd(s: string): (r: string)
    ensures |r| <= |s| && r == s[..|r|]
    ensures r == [] || !IsJsWhitespace(r[|r| - 1])
    ensures forall i :: |r| <= i < |s| ==> IsJsWhitespace(s[i])
  {
    if s == [] || !IsJsWhitespace(s[|s| - 1]) then s else TrimEnd(s[..|s| - 1])
  }

  /** `s.trim()`: drops leading and trailing JavaScript whitespace. */
  function Trim(s: string): (r: string)
    ensures r == [] <==> forall i :: 0 <= i < |s| ==> IsJsWhitespace(s[i])
    ensures r != [] ==> !IsJsWhitespace(r[0]) && !IsJsWhitespace(r[|r| - 1])
  {
    var r := TrimEnd(TrimStart(s));
    assert r == [] ==> forall i :: 0 <= i < |s| ==> IsJsWhitespace(s[i]) by {
      var t := TrimStart(s);
      assert r == [] ==> t == [];
    }
    r
  }

  /** Trimming twice is trimming once. */
  lemma {:induction false} TrimIdempotent(s: string)
    ensures Trim(Trim(s)) == Trim(s)
  {
    var r := Trim(s);
    if r != [] {
      assert TrimStart(r) == r;
      assert TrimEnd(r) == r;
    }
  }

  /** Text that starts with a non-whitespace character keeps, after trimming, every prefix that ends in one. */
  lemma {:induction false} TrimKeepsPrefix(s: string, prefix: string)
    requires prefix != [] && prefix <= s
    requires !IsJsWhitespace(prefix[0]) && !IsJsWhitespace(prefix[|prefix| - 1])
    ensures prefix <= Trim(s)
  {
    assert s[0] == prefix[0];
    assert TrimStart(s) == s;
    var r := TrimEnd(s);
    assert s[|prefix| - 1] == prefix[|prefix| - 1];
    assert |r| >= |prefix|;
    assert r[..|prefix|] == s[..|prefix|];
  }

  /** Leading whitespace does not survive `TrimStart`. */
  lemma {:induction false} TrimStartSkipsPadding(w: string, s: string)
    requires forall i :: 0 <= i < |w| ==> IsJsWhitespace(w[i])
    ensures TrimStart(w + s) == TrimStart(s)
    decreases |w|
  {
    if w != [] {
      assert (w + s)[0] == w[0] && (w + s)[1..] == w[1..] + s;
      TrimStartSkipsPadding(w[1..], s);
    } else {
      assert w + s == s;
    }
  }

  /** Trailing whitespace does not survive `TrimEnd`. */
  lemma {:induction false} TrimEndSkipsPadding(s: string, w: string)
    requires forall i :: 0 <= i < |w| ==> IsJsWhitespace(w[i])
    ensures TrimEnd(s + w) == TrimEnd(s)
    decreases |w|
  {
    if w != [] {
      var last := |w| - 1;
      assert (s + w)[|s + w| - 1] == w[last] && (s + w)[..|s + w| - 1] == s + w[..last];
      TrimEndSkipsPadding(s, w[..last]);
    } else {
      assert s + w == s;
    }
  }

  /** Text holding a non-whitespace character keeps whatever follows it through `TrimStart`. */
  lemma {:induction false} TrimStartKeepsTail(s: string, w: string)
    requires exists i :: 0 <= i < |s| && !IsJsWhitespace(s[i])
    ensures TrimStart(s + w) == TrimStart(s) + w
    decreases |s|
  {
    assert (s + w)[0] == s[0];
    if IsJsWhitespace(s[0]) {
      var i :| 0 <= i < |s| && !IsJsWhitespace(s[i]);
      assert s[1..][i - 1] == s[i];
      assert (s + w)[1..] == s[1..] + w;
      TrimStartKeepsTail(s[1..], w);
    }
  }

  /** `trim` ignores whitespace padding on either side. */
  lemma TrimIgnoresPadding(before: string, s: string, after: string)
    requires forall i :: 0 <= i < |before| ==> IsJsWhitespace(before[i])
    requires forall i :: 0 <= i < |after| ==> IsJsWhitespace(after[i])
    ensures Trim(before + s + after) == Trim(s)
  {
    var padded := before + s + after;
    if exists i :: 0 <= i < |s| && !IsJsWhitespace(s[i]) {
      assert padded == before + (s + after);
      TrimStartSkipsPadding(before, s + after);
      TrimStartKeepsTail(s, after);
      TrimEndSkipsPadding(TrimStart(s), after);
    } else {
      forall i | 0 <= i < |padded| ensures IsJsWhitespace(padded[i]) {
        if i < |before| {
          assert padded[i] == before[i];
        } else if i < |before| + |s| {
          assert padded[i] == s[i - |before|];
        } else {
          assert padded[i] == after[i - |before| - |s|];
        }
      }
    }
  }

  /** Spring's `StringUtils.hasText`: some character is not Java whitespace. */
  predicate HasText(s: string)
  {
    exists i :: 0 <= i < |s| && !IsJavaWhitespace(s[i])
  }

  function LowerChar(c: char): (d: char)
    ensures 'A' <= c <= 'Z' ==> 'a' <= d <= 'z'
    ensures !('A' <= c <= 'Z') ==> d == c
  {
    if 'A' <= c <= 'Z' then (c as int + 32) as char else c
  }

  /** `s.toLowerCase()` on the ASCII letters. */
  function ToLower(s: string): (r: string)
    ensures |r| == |s|
    ensures forall i :: 0 <= i < |s| ==> r[i] == LowerChar(s[i])
  {
    seq(|s|, i requires 0 <= i < |s| => LowerChar(s[i]))
  }

  lemma ToLowerIdempotent(s: string)
    ensures ToLower(ToLower(s)) == ToLower(s)
  {
    assert forall i :: 0 <= i < |s| ==> LowerChar(LowerChar(s[i])) == LowerChar(s[i]);
  }

  /** Lowercasing never turns a character into whitespace or whitespace into something else. */
  lemma LowerCharKeepsWhitespace(c: char)
    ensures IsJsWhitespace(LowerChar(c)) <==> IsJsWhitespace(c)
  {
  }

  lemma {:induction false} TrimStartToLower(s: string)
    ensures TrimStart(ToLower(s)) == ToLower(TrimStart(s))
    decreases |s|
  {
    if s != [] {
      LowerCharKeepsWhitespace(s[0]);
      assert ToLower(s)[1..] == ToLower(s[1..]);
      TrimStartToLower(s[1..]);
    }
  }

  lemma {:induction false} TrimEndToLower(s: string)
    ensures TrimEnd(ToLower(s)) == ToLower(TrimEnd(s))
    decreases |s|
  {
    if s != [] {
      var last := |s| - 1;
      var lowered := ToLower(s);
      LowerCharKeepsWhitespace(s[last]);
      assert lowered[last] == LowerChar(s[last]);
      assert lowered[..last] == ToLower(s[..last]);
      TrimEndToLower(s[..last]);
      if IsJsWhitespace(s[last]) {
        assert TrimEnd(lowered) == TrimEnd(lowered[..last]);
        assert TrimEnd(s) == TrimEnd(s[..last]);
      } else {
        assert TrimEnd(lowered) == lowered;
        assert TrimEnd(s) == s;
      }
    }
  }

  /** Trimming and lowercasing can be done in either order. */
  lemma TrimToLower(s: string)
    ensures Trim(ToLower(s)) == ToLower(Trim(s))
  {
    TrimStartToLower(s);
    TrimEndToLower(TrimStart(s));
  }

  /** `parts.join(sep)`. */
  function Join(parts: seq<string>, sep: string): (r: string)
    ensures parts == [] ==> r == []
    ensures |parts| == 1 ==> r == parts[0]
  {
    if parts == [] then []
    else if |parts| == 1 then parts[0]
    else Join(parts[..|parts| - 1], sep) + sep + parts[|parts| - 1]
  }

  /** A joined list starts with its first part. */
  lemma {:induction false} JoinStartsWithFirst(parts: seq<string>, sep: string)
    requires parts != []
    ensures parts[0] <= Join(parts, sep)
    decreases |parts|
  {
    if |parts| > 1 {
      var init := parts[..|parts| - 1];
      JoinStartsWithFirst(init, sep);
      assert init[0] == parts[0];
    }
  }

  function DigitChar(d: int): char
    requires 0 <= d < 10
  {
    "0123456789"[d]
  }

  /** The decimal text of a natural number, as `String(n)` writes it. */
  function NatToString(n: nat): (r: string)
    ensures |r| >= 1
    ensures forall i :: 0 <= i < |r| ==> '0' <= r[i] <= '9'
  {
    if n < 10 then [DigitChar(n)] else NatToString(n / 10) + [DigitChar(n % 10)]
  }

  function IntToString(n: int): (r: string)
    ensures |r| >= 1
  {
    if n < 0 then "-" + NatToString(-n) else NatToString(n)
  }

  /** True when no value occurs twice in `s`. */
  ghost predicate NoDuplicates<T>(s: seq<T>)
  {
    forall i, j :: 0 <= i < j < |s| ==> s[i] != s[j]
  }
}
