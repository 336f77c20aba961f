/**
 * The Python string operations the upload extractor relies on:
 * `str.split(sep)` on a single-character separator, its inverse
 * `sep.join(parts)`, and `str.lower()` restricted to ASCII letters.
 */
module Strings {

  /** Python's `s.split(sep)`: the pieces between occurrences of `sep`.
      There is always at least one piece, and no piece contains `sep`. */
  function Split(s: string, sep: char): (parts: seq<string>)
    ensures |parts| >= 1
    ensures forall i :: 0 <= i < |parts| ==> sep !in parts[i]
    decreases |s|
  {
    if |s| == 0 then [""]
    else if s[0] == sep then [""] + Split(s[1..], sep)
    else
      var rest := Split(s[1..], sep);
      [[s[0]] + rest[0]] + rest[1..]
  }

  /** Python's `sep.join(parts)`. */
  function Join(parts: seq<string>, sep: char): string
    decreases |parts|
  {
    if |parts| == 0 then ""
    else if |parts| == 1 then parts[0]
    else parts[0] + [sep] + Join(parts[1..], sep)
  }

  /** Python's `parts[-1]`. */
  function Last<T>(parts: seq<T>): T
    requires |parts| > 0
  {
    parts[|parts| - 1]
  }

  /** Joining the pieces of a split gives back the original string. */
  lemma {:induction false} JoinSplit(s: string, sep: char)
    ensures Join(Split(s, sep), sep) == s
    decreases |s|
  {
    if |s| == 0 {
    } else if s[0] == sep {
      var rest := Split(s[1..], sep);
      JoinSplit(s[1..], sep);
      if |rest| == 1 {
        assert Split(s, sep) == ["", rest[0]];
      } else {
        assert Split(s, sep)[1..] == rest;
      }
      assert s == [s[0]] + s[1..];
    } else {
      var rest := Split(s[1..], sep);
      JoinSplit(s[1..], sep);
      var parts := Split(s, sep);
      assert parts[0] == [s[0]] + rest[0];
      if |rest| == 1 {
        assert parts == [[s[0]] + rest[0]];
      } else {
        assert parts[1..] == rest[1..];
        assert Join(rest, sep) == rest[0] + [sep] + Join(rest[1..], sep);
      }
      assert s == [s[0]] + s[1..];
    }
  }

  /** Splitting right after a separator-free prefix and its separator. */
  lemma {:induction false} SplitAfterSeparator(a: string, sep: char, b: string)
    requires sep !in a
    ensures Split(a + [sep] + b, sep) == [a] + Split(b, sep)
    decreases |a|
  {
    var s := a + [sep] + b;
    if |a| == 0 {
      assert s[0] == sep && s[1..] == b;
    } else {
      assert s[0] == a[0] && s[1..] == a[1..] + [sep] + b;
      SplitAfterSeparator(a[1..], sep, b);
      assert [a[0]] + a[1..] == a;
    }
  }

  /** Splitting a join of separator-free pieces gives back the pieces. */
  lemma {:induction false} SplitJoin(parts: seq<string>, sep: char)
    requires |parts| >= 1
    requires forall i :: 0 <= i < |parts| ==> sep !in parts[i]
    ensures Split(Join(parts, sep), sep) == parts
    decreases |parts|
  {
    if |parts| == 1 {
      NoSeparatorSplit(parts[0], sep);
    } else {
      SplitJoin(parts[1..], sep);
      SplitAfterSeparator(parts[0], sep, Join(parts[1..], sep));
      assert [parts[0]] + parts[1..] == parts;
    }
  }

  /** A string without the separator splits into itself alone. */
  lemma {:induction false} NoSeparatorSplit(s: string, sep: char)
    requires sep !in s
    ensures Split(s, sep) == [s]
    decreases |s|
  {
    if |s| > 0 {
      NoSeparatorSplit(s[1..], sep);
      assert [s[0]] + s[1..] == s;
    }
  }

  /** `t` is the text of `s` after its last `sep`: a suffix of `s` that
      is either all of `s` or preceded by `sep`. */
  predicate IsTextAfterLast(s: string, t: string, sep: char)
  {
    |t| <= |s| && s[|s| - |t|..] == t && (|t| < |s| ==> s[|s| - |t| - 1] == sep)
  }

  lemma {:induction false} IsTextAfterLastCons(s: string, t: string, sep: char)
    requires |s| > 0 && IsTextAfterLast(s[1..], t, sep)
    requires |t| < |s| - 1 || s[0] == sep
    ensures IsTextAfterLast(s, t, sep)
  {
    assert s[|s| - |t|..] == s[1..][|s| - 1 - |t|..];
    if |t| < |s| - 1 {
      assert s[|s| - |t| - 1] == s[1..][|s| - 1 - |t| - 1];
    }
  }

  /** A string holding the separator splits into at least two pieces. */
  lemma {:induction false} SeparatorSplitsInTwo(s: string, sep: char)
    requires sep in s
    ensures |Split(s, sep)| > 1
  {
    JoinSplit(s, sep);
  }

  /** The last piece of a split is the text after the last separator. */
  lemma {:induction false} SplitLastIsSuffix(s: string, sep: char)
    ensures IsTextAfterLast(s, Last(Split(s, sep)), sep)
    decreases |s|
  {
    if |s| > 0 {
      var rest := Split(s[1..], sep);
      if s[0] != sep && sep !in s[1..] {
        NoSeparatorSplit(s[1..], sep);
        assert Last(Split(s, sep)) == [s[0]] + s[1..] == s;
      } else {
        SplitLastIsSuffix(s[1..], sep);
        var t := Last(rest);
        if s[0] != sep {
          SeparatorSplitsInTwo(s[1..], sep);
          assert t != s[1..];
        }
        assert Last(Split(s, sep)) == t;
        IsTextAfterLastCons(s, t, sep);
      }
    }
  }

  predicate IsUpper(c: char)
  {
    'A' <= c <= 'Z'
  }

  /** Python's `c.lower()` on ASCII letters; every other character is kept. */
  function LowerChar(c: char): (d: char)
    ensures !IsUpper(d)
    ensures !IsUpper(c) ==> d == c
    ensures IsUpper(c) ==> d as int == c as int + 32
  {
    if IsUpper(c) then (c as int + 32) as char else c
  }

  /** Python's `s.lower()`, character by character. */
  function Lower(s: string): (r: string)
    ensures |r| == |s|
    ensures forall i :: 0 <= i < |s| ==> r[i] == LowerChar(s[i])
    decreases |s|
  {
    if |s| == 0 then "" else [LowerChar(s[0])] + Lower(s[1..])
  }

  predicate IsLower(s: string)
  {
    forall i :: 0 <= i < |s| ==> !IsUpper(s[i])
  }

  lemma {:induction false} LowerIsLower(s: string)
    ensures IsLower(Lower(s))
    ensures IsLower(s) ==> Lower(s) == s
  {
  }

  lemma {:induction false} LowerIdempotent(s: string)
    ensures Lower(Lower(s)) == Lower(s)
  {
    LowerIsLower(s);
    LowerIsLower(Lower(s));
  }

  /** Every piece of a split, lower-cased. */
  function LowerAll(parts: seq<string>): (r: seq<string>)
    ensures |r| == |parts|
    ensures forall i :: 0 <= i < |parts| ==> r[i] == Lower(parts[i])
  {
    seq(|parts|, i requires 0 <= i < |parts| => Lower(parts[i]))
  }

  /** Lower-casing commutes with splitting on a separator that is not an
      ASCII letter. */
  lemma {:induction false} SplitLower(s: string, sep: char)
    requires !IsUpper(sep) && !('a' <= sep <= 'z')
    ensures Split(Lower(s), sep) == LowerAll(Split(s, sep))
    decreases |s|
  {
    if |s| > 0 {
      var l := Lower(s);
      assert l[0] == LowerChar(s[0]) && l[1..] == Lower(s[1..]);
      SplitLower(s[1..], sep);
      var rest := Split(s[1..], sep);
      if s[0] == sep {
        assert Split(l, sep) == [""] + LowerAll(rest);
      } else {
        assert l[0] != sep;
        assert Split(l, sep) == [[l[0]] + Lower(rest[0])] + LowerAll(rest)[1..];
        assert Lower([s[0]] + rest[0]) == [l[0]] + Lower(rest[0]) by {
          assert ([s[0]] + rest[0])[1..] == rest[0];
        }
      }
    }
  }

}
