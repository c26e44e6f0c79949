/**
 * The string operations of Python's `str` type that the upload handler relies on:
 * `split` on a one-character separator, `join`, plain concatenation of a list of
 * strings, and `lower`.
 */
module Strings {

  /** Python's `s.split(sep)` for a one-character separator: the pieces between
      successive occurrences of `sep`, in order. There is always at least one piece. */
  function Split(s: string, sep: char): (pieces: seq<string>)
    ensures |pieces| >= 1
    ensures forall k :: 0 <= k < |pieces| ==> sep !in pieces[k]
    decreases |s|
  {
    if |s| == 0 then [""]
    else
      var rest := Split(s[1..], sep);
      if s[0] == sep then [""] + rest
      else [[s[0]] + rest[0]] + rest[1..]
  }

  /** Python's `sep.join(pieces)`: it begins with the first piece. */
  function Join(pieces: seq<string>, sep: string): (r: string)
    ensures |pieces| >= 1 ==> pieces[0] <= r
  {
    if |pieces| == 0 then ""
    else if |pieces| == 1 then pieces[0]
    else pieces[0] + sep + Join(pieces[1..], sep)
  }

  /** `''.join(pieces)`, written as the left-to-right concatenation of the pieces:
      it begins with the first piece, and nothing but the pieces is added, so empty
      pieces give the empty text. */
  function Concat(pieces: seq<string>): (r: string)
    ensures |pieces| >= 1 ==> pieces[0] <= r
    ensures (forall k :: 0 <= k < |pieces| ==> pieces[k] == "") ==> r == ""
  {
    if |pieces| == 0 then "" else pieces[0] + Concat(pieces[1..])
  }

  /** The total length of the pieces. */
  function SumLens(pieces: seq<string>): nat
  {
    if |pieces| == 0 then 0 else |pieces[0]| + SumLens(pieces[1..])
  }

  function Last(pieces: seq<string>): string
    requires |pieces| >= 1
  {
    pieces[|pieces| - 1]
  }

  /** `str.lower` on one character, for the ASCII letters. */
  function LowerChar(c: char): char
  {
    if 'A' <= c <= 'Z' then (c as int + 32) as char else c
  }

  /** `str.lower`: every ASCII capital is replaced by its small letter, every other
      character is kept, and no capital remains. */
  function Lower(s: string): (r: string)
    ensures |r| == |s|
    ensures forall i :: 0 <= i < |s| ==> r[i] == LowerChar(s[i])
    ensures forall i :: 0 <= i < |r| ==> !('A' <= r[i] <= 'Z')
  {
    seq(|s|, i requires 0 <= i < |s| => LowerChar(s[i]))
  }

  /** Splitting a string without the separator gives the string itself. */
  lemma {:induction false} SplitWithoutSeparator(s: string, sep: char)
    requires sep !in s
    ensures Split(s, sep) == [s]
    decreases |s|
  {
    if |s| > 0 {
      SplitWithoutSeparator(s[1..], sep);
      assert [s[0]] + s[1..] == s;
    }
  }

  /** Splitting distributes over one occurrence of the separator: the pieces of
      `a + sep + b` are the pieces of `a` followed by the pieces of `b`. */
  lemma {:induction false} SplitConcat(a: string, b: string, sep: char)
    ensures Split(a + [sep] + b, sep) == Split(a, sep) + Split(b, sep)
    decreases |a|
  {
    var s := a + [sep] + b;
    if |a| == 0 {
      assert s[0] == sep && s[1..] == b;
    } else {
      assert s[0] == a[0] && s[1..] == a[1..] + [sep] + b;
      SplitConcat(a[1..], b, sep);
      if a[0] != sep {
        assert [a[0]] + a[1..] == a;
      }
    }
  }

  /** Joining the pieces of a split with the same separator gives back the string. */
  lemma {:induction false} SplitJoin(s: string, sep: char)
    ensures Join(Split(s, sep), [sep]) == s
    decreases |s|
  {
    if |s| > 0 {
      var rest := Split(s[1..], sep);
      SplitJoin(s[1..], sep);
      if s[0] == sep {
        assert Join([""] + rest, [sep]) == "" + [sep] + Join(rest, [sep]);
      } else if |rest| == 1 {
        assert Split(s, sep) == [[s[0]] + rest[0]];
      } else {
        var pieces := Split(s, sep);
        assert pieces[1..] == rest[1..];
        assert Join(pieces, [sep]) == [s[0]] + rest[0] + [sep] + Join(rest[1..], [sep]);
        assert Join(rest, [sep]) == rest[0] + [sep] + Join(rest[1..], [sep]);
      }
    }
  }

  /** Splitting a join recovers the pieces, as long as no piece holds the separator. */
  lemma {:induction false} JoinSplit(pieces: seq<string>, sep: char)
    requires |pieces| >= 1
    requires forall k :: 0 <= k < |pieces| ==> sep !in pieces[k]
    ensures Split(Join(pieces, [sep]), sep) == pieces
    decreases |pieces|
  {
    SplitWithoutSeparator(pieces[0], sep);
    if |pieces| > 1 {
      JoinSplit(pieces[1..], sep);
      SplitConcat(pieces[0], Join(pieces[1..], [sep]), sep);
      assert [pieces[0]] + pieces[1..] == pieces;
    }
  }

  /** A join of two or more pieces ends with the separator and the last piece. */
  lemma {:induction false} JoinLast(pieces: seq<string>, sep: string)
    requires |pieces| >= 2
    ensures Join(pieces, sep) == Join(pieces[..|pieces| - 1], sep) + sep + Last(pieces)
    decreases |pieces|
  {
    var init := pieces[..|pieces| - 1];
    if |pieces| > 2 {
      JoinLast(pieces[1..], sep);
      assert pieces[1..][..|pieces| - 2] == init[1..];
    } else {
      assert init == [pieces[0]];
    }
  }

  /** The length of a join: the pieces plus one separator between each two. */
  lemma {:induction false} JoinLength(pieces: seq<string>, sep: string)
    ensures |pieces| >= 1 ==> |Join(pieces, sep)| == SumLens(pieces) + (|pieces| - 1) * |sep|
    decreases |pieces|
  {
    if |pieces| > 1 {
      JoinLength(pieces[1..], sep);
    }
  }

  /** Concatenation is a monoid homomorphism: appending lists appends their texts. */
  lemma {:induction false} ConcatAppend(a: seq<string>, b: seq<string>)
    ensures Concat(a + b) == Concat(a) + Concat(b)
    decreases |a|
  {
    if |a| > 0 {
      assert (a + b)[1..] == a[1..] + b;
      ConcatAppend(a[1..], b);
    } else {
      assert a + b == b;
    }
  }

  /** The length of a concatenation is the total length of its pieces. */
  lemma {:induction false} ConcatLength(pieces: seq<string>)
    ensures |Concat(pieces)| == SumLens(pieces)
    decreases |pieces|
  {
    if |pieces| > 0 {
      ConcatLength(pieces[1..]);
    }
  }

  /** Concatenation is the join with the empty separator. */
  lemma {:induction false} ConcatIsJoinWithEmpty(pieces: seq<string>)
    ensures Concat(pieces) == Join(pieces, "")
    decreases |pieces|
  {
    if |pieces| > 1 {
      ConcatIsJoinWithEmpty(pieces[1..]);
    } else if |pieces| == 1 {
      assert Concat(pieces) == pieces[0] + Concat([]);
    }
  }

  /** The last piece of a split is a suffix of the string, so no longer than it. */
  lemma LastPieceFits(s: string, sep: char)
    ensures |Last(Split(s, sep))| <= |s|
  {
    var pieces := Split(s, sep);
    SplitJoin(s, sep);
    if |pieces| >= 2 {
      JoinLast(pieces, [sep]);
    }
  }

  /** Lower-casing is applied character by character, so it distributes over `+`. */
  lemma LowerConcat(a: string, b: string)
    ensures Lower(a + b) == Lower(a) + Lower(b)
  {
  }

  /** Lower-casing twice is lower-casing once. */
  lemma LowerIdempotent(s: string)
    ensures Lower(Lower(s)) == Lower(s)
  {
  }
}
