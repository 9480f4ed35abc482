/**
 * The string operations of Rust's standard library that the core relies on:
 * `str::split(char)` (for title extraction), `[&str]::join` (for the health
 * message) and decimal formatting of an id (for the "Tab {} not found" errors).
 */
module Text {

  /** Number of occurrences of `c` in `s`. */
  function Count(s: string, c: char): (n: nat)
    ensures n <= |s|
  {
    if |s| == 0 then 0 else (if s[0] == c then 1 else 0) + Count(s[1..], c)
  }

  /**
   * The pieces of `s` between occurrences of `sep`, as `s.split(sep)` yields
   * them: an empty string gives one empty piece, and a separator at either
   * end gives an empty piece there.
   */
  function Split(s: string, sep: char): (pieces: seq<string>)
    ensures |pieces| >= 1
  {
    if |s| == 0 then [""]
    else
      var rest := Split(s[1..], sep);
      if s[0] == sep then [""] + rest
      else [[s[0]] + rest[0]] + rest[1..]
  }

  /** The pieces glued together with `sep` between consecutive pieces. */
  function Join(pieces: seq<string>, sep: string): string
  {
    if |pieces| == 0 then ""
    else if |pieces| == 1 then pieces[0]
    else pieces[0] + sep + Join(pieces[1..], sep)
  }

  /** No piece contains the separator. */
  predicate SeparatorFree(pieces: seq<string>, sep: char)
  {
    forall i :: 0 <= i < |pieces| ==> sep !in pieces[i]
  }

  /** Splitting yields one more piece than there are separators, and no piece holds one. */
  lemma {:induction false} SplitShape(s: string, sep: char)
    ensures |Split(s, sep)| == Count(s, sep) + 1
    ensures SeparatorFree(Split(s, sep), sep)
  {
    if |s| > 0 {
      SplitShape(s[1..], sep);
      var rest := Split(s[1..], sep);
      if s[0] != sep {
        var p := [s[0]] + rest[0];
        assert sep !in p by {
          forall k | 0 <= k < |p| ensures p[k] != sep {
            if k > 0 { assert p[k] == rest[0][k - 1]; }
          }
        }
      }
    }
  }

  /** Joining the pieces back with the separator gives the original string. */
  lemma {:induction false} JoinSplit(s: string, sep: char)
    ensures Join(Split(s, sep), [sep]) == s
  {
    if |s| > 0 {
      JoinSplit(s[1..], sep);
      var rest := Split(s[1..], sep);
      if s[0] == sep {
        assert s == [sep] + s[1..];
      } else if |rest| == 1 {
        assert s == [s[0]] + rest[0];
      } else {
        assert Join(rest, [sep]) == rest[0] + [sep] + Join(rest[1..], [sep]);
        assert ([[s[0]] + rest[0]] + rest[1..])[1..] == rest[1..];
        assert s == [s[0]] + s[1..];
      }
    }
  }

  lemma {:induction false} SplitOfFreePiece(x: string, sep: char)
    requires sep !in x
    ensures Split(x, sep) == [x]
  {
    if |x| > 0 {
      SplitOfFreePiece(x[1..], sep);
      assert [x[0]] + x[1..] == x;
    }
  }

  lemma {:induction false} SplitAfterPiece(x: string, sep: char, y: string)
    requires sep !in x
    ensures Split(x + [sep] + y, sep) == [x] + Split(y, sep)
  {
    var s := x + [sep] + y;
    if |x| == 0 {
      assert s[1..] == y;
    } else {
      assert s[1..] == x[1..] + [sep] + y;
      SplitAfterPiece(x[1..], sep, y);
      assert [x[0]] + x[1..] == x;
    }
  }

  /** Splitting a join of separator-free pieces gives the pieces back. */
  lemma {:induction false} SplitJoin(pieces: seq<string>, sep: char)
    requires |pieces| >= 1 && SeparatorFree(pieces, sep)
    ensures Split(Join(pieces, [sep]), sep) == pieces
  {
    if |pieces| == 1 {
      SplitOfFreePiece(pieces[0], sep);
    } else {
      assert SeparatorFree(pieces[1..], sep) by {
        forall i | 0 <= i < |pieces| - 1 ensures sep !in pieces[1..][i] {
          assert pieces[1..][i] == pieces[i + 1];
        }
      }
      SplitJoin(pieces[1..], sep);
      assert sep !in pieces[0];
      SplitAfterPiece(pieces[0], sep, Join(pieces[1..], [sep]));
      assert [pieces[0]] + pieces[1..] == pieces;
    }
  }

  /** Decimal digits of `n`, as Rust's `{}` formatting of an unsigned integer. */
  function NatToString(n: nat): (s: string)
    ensures |s| >= 1
    ensures forall i :: 0 <= i < |s| ==> '0' <= s[i] <= '9'
  {
    if n < 10 then [Digit(n)] else NatToString(n / 10) + [Digit(n % 10)]
  }

  function Digit(d: nat): (c: char)
    requires d < 10
    ensures '0' <= c <= '9' && c as int - '0' as int == d
  {
    (48 + d) as char
  }

  predicate IsDecimal(s: string)
  {
    forall i :: 0 <= i < |s| ==> '0' <= s[i] <= '9'
  }

  /** The number a string of decimal digits spells, most significant digit first. */
  function DecimalValue(s: string): nat
    requires IsDecimal(s)
  {
    if |s| == 0 then 0
    else DecimalValue(s[..|s| - 1]) * 10 + (s[|s| - 1] as int - '0' as int)
  }

  /** Formatting then reading back gives the number: the digits spell `n`. */
  lemma {:induction false} DecimalOfNatToString(n: nat)
    ensures IsDecimal(NatToString(n)) && DecimalValue(NatToString(n)) == n
  {
    var s := NatToString(n);
    if n >= 10 {
      DecimalOfNatToString(n / 10);
      assert s[..|s| - 1] == NatToString(n / 10);
      assert s[|s| - 1] == Digit(n % 10);
    } else {
      assert s[..|s| - 1] == [];
    }
  }
}
