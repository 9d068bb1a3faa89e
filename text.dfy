/**
 * The string operations the mesh loader relies on, with the behaviour of the Java library
 * calls it makes: `startsWith`, `split` on a one-character separator (trailing empty pieces
 * dropped) and `Integer.parseInt` (optional sign, decimal digits, 32-bit range), plus the
 * 32-bit wrap-around of `int` subtraction.
 */
module Text {
  import opened Wrappers

  const MinInt: int := -0x8000_0000
  const MaxInt: int := 0x7FFF_FFFF
  const Modulus: int := 0x1_0000_0000

  predicate StartsWith(s: string, prefix: string)
  {
    |prefix| <= |s| && s[..|prefix|] == prefix
  }

  // ---------------------------------------------------------------------------
  // Splitting

  /** The pieces of s between occurrences of sep, empty pieces included. */
  function SplitAll(s: string, sep: char): (pieces: seq<string>)
    ensures |pieces| >= 1
  {
    if |s| == 0 then [""]
    else
      var rest := SplitAll(s[1..], sep);
      if s[0] == sep then [""] + rest else [[s[0]] + rest[0]] + rest[1..]
  }

  /** The pieces glued back together with sep between neighbours. */
  function Join(pieces: seq<string>, sep: char): string
    requires |pieces| >= 1
  {
    if |pieces| == 1 then pieces[0] else pieces[0] + [sep] + Join(pieces[1..], sep)
  }

  /** Drops empty pieces from the end. */
  function DropTrailingEmpty(pieces: seq<string>): (kept: seq<string>)
    ensures kept <= pieces
    ensures kept == [] || kept[|kept| - 1] != ""
    ensures forall k :: |kept| <= k < |pieces| ==> pieces[k] == ""
  {
    if |pieces| == 0 || pieces[|pieces| - 1] != "" then pieces
    else DropTrailingEmpty(pieces[..|pieces| - 1])
  }

  /**
   * `s.split(sep)` in Java: with no occurrence of sep the whole string is the one piece;
   * otherwise every piece between separators, with the trailing empty ones removed.
   */
  function Split(s: string, sep: char): seq<string>
  {
    if sep !in s then [s] else DropTrailingEmpty(SplitAll(s, sep))
  }

  /** The part of s before the first sep (all of s when there is none). */
  function TakeUntil(s: string, sep: char): string
  {
    if |s| == 0 || s[0] == sep then "" else [s[0]] + TakeUntil(s[1..], sep)
  }

  /** Splitting and joining again gives back the string. */
  lemma {:induction false} JoinSplitAll(s: string, sep: char)
    ensures Join(SplitAll(s, sep), sep) == s
    ensures forall k :: 0 <= k < |SplitAll(s, sep)| ==> sep !in SplitAll(s, sep)[k]
  {
    if |s| > 0 {
      var rest := SplitAll(s[1..], sep);
      JoinSplitAll(s[1..], sep);
      if s[0] == sep {
        assert SplitAll(s, sep) == [""] + rest;
        assert ([""] + rest)[1..] == rest;
        calc {
          Join([""] + rest, sep);
          "" + [sep] + Join(rest, sep);
          [s[0]] + s[1..];
          s;
        }
      } else {
        var pieces := [[s[0]] + rest[0]] + rest[1..];
        assert SplitAll(s, sep) == pieces;
        if |rest| == 1 {
          assert Join(pieces, sep) == [s[0]] + rest[0];
          assert rest[0] == Join(rest, sep) == s[1..];
        } else {
          assert pieces[1..] == rest[1..];
          assert Join(rest, sep) == rest[0] + [sep] + Join(rest[1..], sep);
          calc {
            Join(pieces, sep);
            [s[0]] + rest[0] + [sep] + Join(rest[1..], sep);
            [s[0]] + (rest[0] + [sep] + Join(rest[1..], sep));
            [s[0]] + s[1..];
            s;
          }
        }
        forall k | 0 <= k < |pieces| ensures sep !in pieces[k] {
          if k == 0 {
            assert sep !in rest[0];
            assert pieces[0] == [s[0]] + rest[0];
          } else {
            assert pieces[k] == rest[k];
          }
        }
      }
    }
  }

  /** A string without sep is a single piece. */
  lemma {:induction false} SplitAllSingle(s: string, sep: char)
    requires sep !in s
    ensures SplitAll(s, sep) == [s]
  {
    if |s| > 0 {
      assert sep !in s[1..] by {
        forall k | 0 <= k < |s[1..]| ensures s[1..][k] != sep { assert s[1..][k] == s[k + 1]; }
      }
      SplitAllSingle(s[1..], sep);
      assert [s[0]] + s[1..] == s;
    }
  }

  /** A sep-free head followed by sep splits off as the first piece. */
  lemma {:induction false} SplitAllCons(a: string, sep: char, b: string)
    requires sep !in a
    ensures SplitAll(a + [sep] + b, sep) == [a] + SplitAll(b, sep)
  {
    var s := a + [sep] + b;
    if |a| == 0 {
      assert s[0] == sep && s[1..] == b;
    } else {
      assert s[0] == a[0];
      assert s[1..] == a[1..] + [sep] + b;
      assert sep !in a[1..] by {
        forall k | 0 <= k < |a[1..]| ensures a[1..][k] != sep { assert a[1..][k] == a[k + 1]; }
      }
      SplitAllCons(a[1..], sep, b);
      assert [a[0]] + a[1..] == a;
    }
  }

  /** Joining sep-free pieces and splitting again gives back the pieces. */
  lemma {:induction false} SplitAllJoin(pieces: seq<string>, sep: char)
    requires |pieces| >= 1
    requires forall k :: 0 <= k < |pieces| ==> sep !in pieces[k]
    ensures SplitAll(Join(pieces, sep), sep) == pieces
  {
    if |pieces| == 1 {
      SplitAllSingle(pieces[0], sep);
    } else {
      SplitAllJoin(pieces[1..], sep);
      SplitAllCons(pieces[0], sep, Join(pieces[1..], sep));
      assert [pieces[0]] + pieces[1..] == pieces;
    }
  }

  /**
   * Java's split inverts joining: pieces that are free of the separator, the last of them
   * nonempty, come back unchanged.
   */
  lemma SplitJoin(pieces: seq<string>, sep: char)
    requires |pieces| >= 1 && pieces[|pieces| - 1] != ""
    requires forall k :: 0 <= k < |pieces| ==> sep !in pieces[k]
    ensures Split(Join(pieces, sep), sep) == pieces
  {
    SplitAllJoin(pieces, sep);
    if |pieces| == 1 {
      assert Join(pieces, sep) == pieces[0];
    } else {
      var s := Join(pieces, sep);
      assert s == pieces[0] + [sep] + Join(pieces[1..], sep);
      assert s[|pieces[0]|] == sep;
    }
  }

  /** The first piece of SplitAll is the text before the first separator. */
  lemma {:induction false} SplitAllHead(s: string, sep: char)
    ensures SplitAll(s, sep)[0] == TakeUntil(s, sep)
  {
    if |s| > 0 {
      SplitAllHead(s[1..], sep);
    }
  }

  /** The text before the first separator of a sep-free string is all of it. */
  lemma {:induction false} TakeUntilAll(s: string, sep: char)
    requires sep !in s
    ensures TakeUntil(s, sep) == s
  {
    if |s| > 0 {
      assert sep !in s[1..] by {
        forall k | 0 <= k < |s[1..]| ensures s[1..][k] != sep { assert s[1..][k] == s[k + 1]; }
      }
      TakeUntilAll(s[1..], sep);
      assert [s[0]] + s[1..] == s;
    }
  }

  /** The text before the first separator of a + b is a when a has none and b starts with one (or is empty). */
  lemma {:induction false} TakeUntilPrefix(a: string, b: string, sep: char)
    requires sep !in a && (b == "" || b[0] == sep)
    ensures TakeUntil(a + b, sep) == a
  {
    if |a| == 0 {
      assert a + b == b;
    } else {
      assert sep !in a[1..] by {
        forall k | 0 <= k < |a[1..]| ensures a[1..][k] != sep { assert a[1..][k] == a[k + 1]; }
      }
      TakeUntilPrefix(a[1..], b, sep);
      assert (a + b)[0] == a[0] && (a + b)[1..] == a[1..] + b;
      assert [a[0]] + a[1..] == a;
    }
  }

  /**
   * Java's split keeps the text before the first separator as its first piece, and that
   * piece is always there when the text is nonempty.
   */
  lemma SplitHead(s: string, sep: char)
    ensures |Split(s, sep)| > 0 ==> Split(s, sep)[0] == TakeUntil(s, sep)
    ensures TakeUntil(s, sep) != "" ==> |Split(s, sep)| > 0
  {
    if sep !in s {
      TakeUntilAll(s, sep);
    } else {
      SplitAllHead(s, sep);
    }
  }

  /** Every character of s is sep (vacuously so for the empty string). */
  predicate AllSeparators(s: string, sep: char)
  {
    forall k :: 0 <= k < |s| ==> s[k] == sep
  }

  /** Every piece is the empty string. */
  predicate AllEmpty(pieces: seq<string>)
  {
    forall k :: 0 <= k < |pieces| ==> pieces[k] == ""
  }

  /** A nonempty string made of nothing but sep. */
  predicate OnlySeparators(s: string, sep: char)
  {
    |s| > 0 && AllSeparators(s, sep)
  }

  /** Every piece of SplitAll is empty exactly when s holds nothing but separators. */
  lemma {:induction false} SplitAllAllEmpty(s: string, sep: char)
    ensures AllSeparators(s, sep) <==> AllEmpty(SplitAll(s, sep))
  {
    if |s| > 0 {
      var rest := SplitAll(s[1..], sep);
      SplitAllAllEmpty(s[1..], sep);
      assert AllSeparators(s, sep) <==> s[0] == sep && AllSeparators(s[1..], sep) by {
        if s[0] == sep && AllSeparators(s[1..], sep) {
          forall k | 0 <= k < |s| ensures s[k] == sep {
            if k > 0 { assert s[k] == s[1..][k - 1]; }
          }
        }
      }
      if s[0] == sep {
        var pieces := [""] + rest;
        assert SplitAll(s, sep) == pieces;
        assert AllEmpty(pieces) <==> AllEmpty(rest) by {
          if AllEmpty(rest) {
            forall k | 0 <= k < |pieces| ensures pieces[k] == "" {
              if k > 0 { assert pieces[k] == rest[k - 1]; }
            }
          }
          if AllEmpty(pieces) {
            forall k | 0 <= k < |rest| ensures rest[k] == "" { assert rest[k] == pieces[k + 1]; }
          }
        }
      } else {
        assert SplitAll(s, sep)[0] == [s[0]] + rest[0] != "";
      }
    }
  }

  /**
   * Java's split gives no pieces at all exactly when the text is nonempty and made of
   * separators only (every piece is empty, and the trailing empty pieces are dropped).
   */
  lemma SplitEmpty(s: string, sep: char)
    ensures Split(s, sep) == [] <==> OnlySeparators(s, sep)
  {
    if sep in s {
      var pieces := SplitAll(s, sep);
      var kept := DropTrailingEmpty(pieces);
      SplitAllAllEmpty(s, sep);
      if kept != [] {
        assert kept[|kept| - 1] == pieces[|kept| - 1] != "";
      }
      assert |s| > 0;
    } else if |s| > 0 {
      assert s[0] != sep;
    }
  }

  // ---------------------------------------------------------------------------
  // Integers

  predicate IsDigit(c: char)
  {
    '0' <= c <= '9'
  }

  predicate AllDigits(s: string)
  {
    forall k :: 0 <= k < |s| ==> IsDigit(s[k])
  }

  /** The value of a string of decimal digits, read from the left. */
  function DigitsValue(s: string): nat
    requires AllDigits(s)
  {
    if |s| == 0 then 0 else DigitsValue(s[..|s| - 1]) * 10 + (s[|s| - 1] as int - '0' as int)
  }

  /**
   * `Integer.parseInt(s)`: an optional '-' or '+', then one or more digits, with a value
   * in the 32-bit range; anything else is a failure.
   */
  function ParseInt(s: string): (r: Option<int>)
    ensures r.Some? ==> MinInt <= r.value <= MaxInt
  {
    if |s| == 0 then None
    else
      var digits := if s[0] == '-' || s[0] == '+' then s[1..] else s;
      if |digits| == 0 || !AllDigits(digits) then None
      else
        var n: int := if s[0] == '-' then -(DigitsValue(digits) as int) else DigitsValue(digits);
        if MinInt <= n <= MaxInt then Some(n) else None
  }

  /** The decimal digits of n, without leading zeros. */
  function DecimalString(n: nat): (s: string)
    ensures |s| >= 1
  {
    var digit := ('0' as int + n % 10) as char;
    if n < 10 then [digit] else DecimalString(n / 10) + [digit]
  }

  /** The digits of n read back give n. */
  lemma {:induction false} DecimalDigitsValue(n: nat)
    ensures AllDigits(DecimalString(n)) && DigitsValue(DecimalString(n)) == n
  {
    var s := DecimalString(n);
    if n >= 10 {
      DecimalDigitsValue(n / 10);
      assert s[..|s| - 1] == DecimalString(n / 10);
    }
  }

  /** parseInt reads back what DecimalString writes, for both signs, within the 32-bit range. */
  lemma ParseIntDecimal(n: nat)
    ensures n <= MaxInt ==> ParseInt(DecimalString(n)) == Some(n)
    ensures n <= -MinInt ==> ParseInt("-" + DecimalString(n)) == Some(-(n as int))
    ensures n <= MaxInt ==> ParseInt("+" + DecimalString(n)) == Some(n)
  {
    DecimalDigitsValue(n);
    var s := DecimalString(n);
    assert IsDigit(s[0]);
    assert ("-" + s)[1..] == s;
    assert ("+" + s)[1..] == s;
  }

  /** n wrapped into the 32-bit range, as Java int arithmetic does. */
  function Int32(n: int): (r: int)
    ensures MinInt <= r <= MaxInt
    ensures (r - n) % Modulus == 0
    ensures MinInt <= n <= MaxInt ==> r == n
  {
    (n - MinInt) % Modulus + MinInt
  }
}
