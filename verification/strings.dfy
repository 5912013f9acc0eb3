/** The string work the engine does with JavaScript built-ins:
    `split` on a one-character separator, `toLowerCase` and a first-occurrence
    `replace`. Each is defined once here and used by the format registry, the
    manifest parser and the router. */
module Strings {

  import opened Values

  /** `s.split(sep)` for a one-character `sep`: the runs between separators,
      in order. Like JavaScript it never returns an empty list: "" splits
      into [""], and a separator at either end yields an empty first or last
      part. */
  function Split(s: string, sep: char): (parts: seq<string>)
    ensures |parts| >= 1
    ensures forall i :: 0 <= i < |parts| ==> sep !in parts[i]
    decreases |s|
  {
    if |s| == 0 then [""]
    else
      var rest := Split(s[1..], sep);
      if s[0] == sep then [""] + rest
      else [[s[0]] + rest[0]] + rest[1..]
  }

  /** `parts.join(sep)`: the inverse of Split. */
  function Join(parts: seq<string>, sep: char): string
    decreases |parts|
  {
    if |parts| == 0 then ""
    else if |parts| == 1 then parts[0]
    else parts[0] + [sep] + Join(parts[1..], sep)
  }

  /** The last element of a split: `s.split(sep).slice(-1).pop()`. */
  function LastPart(s: string, sep: char): (r: string)
    ensures sep !in r
  {
    var parts := Split(s, sep);
    parts[|parts| - 1]
  }

  /** The element at index 1 of a split (`s.split(sep)[1]`), which is
      `undefined` when `s` holds no separator. */
  function SecondPart(s: string, sep: char): (r: Option<string>)
    ensures r.Some? <==> sep in s
    ensures r.Some? ==> sep !in r.value
  {
    var parts := Split(s, sep);
    SplitHasSeveralPartsIffSeparator(s, sep);
    if |parts| > 1 then Some(parts[1]) else None
  }

  lemma {:induction false} SplitHasSeveralPartsIffSeparator(s: string, sep: char)
    ensures |Split(s, sep)| > 1 <==> sep in s
    decreases |s|
  {
    if |s| > 0 {
      SplitHasSeveralPartsIffSeparator(s[1..], sep);
      assert s == [s[0]] + s[1..];
    }
  }

  /** Splitting then joining gives the string back. */
  lemma {:induction false} JoinSplit(s: string, sep: char)
    ensures Join(Split(s, sep), sep) == s
    decreases |s|
  {
    if |s| > 0 {
      JoinSplit(s[1..], sep);
      var rest := Split(s[1..], sep);
      if s[0] == sep {
        assert Join([""] + rest, sep) == "" + [sep] + Join(rest, sep);
      } else {
        var parts := [[s[0]] + rest[0]] + rest[1..];
        if |rest| == 1 {
          assert Join(parts, sep) == [s[0]] + rest[0];
        } else {
          assert Join(rest, sep) == rest[0] + [sep] + Join(rest[1..], sep);
          assert parts[1..] == rest[1..];
          assert Join(parts, sep) == [s[0]] + rest[0] + [sep] + Join(rest[1..], sep);
        }
      }
      assert s == [s[0]] + s[1..];
    }
  }

  /** A separator splits the string in two, and the parts of each side
      are concatenated. */
  lemma {:induction false} SplitAround(a: string, sep: char, b: string)
    ensures Split(a + [sep] + b, sep) == Split(a, sep) + Split(b, sep)
    decreases |a|
  {
    if |a| == 0 {
      SplitCons(sep, b, sep);
      assert a + [sep] + b == [sep] + b;
    } else {
      var c, tail := a[0], a[1..];
      SplitAround(tail, sep, b);
      SplitCons(c, tail + [sep] + b, sep);
      SplitCons(c, tail, sep);
      assert a + [sep] + b == [c] + (tail + [sep] + b);
      assert a == [c] + tail;
      SplitJoinFirst(c, sep, Split(tail, sep), Split(b, sep));
    }
  }

  /** Split of a string with a known first character. */
  lemma SplitCons(c: char, t: string, sep: char)
    ensures Split([c] + t, sep) ==
      if c == sep then [""] + Split(t, sep)
      else [[c] + Split(t, sep)[0]] + Split(t, sep)[1..]
  {
    assert ([c] + t)[1..] == t;
  }

  /** Prefixing a character to the first part commutes with appending
      further parts. */
  lemma SplitJoinFirst(c: char, sep: char, x: seq<string>, y: seq<string>)
    requires |x| >= 1
    ensures (if c == sep then [""] + (x + y) else [[c] + (x + y)[0]] + (x + y)[1..])
      == (if c == sep then [""] + x else [[c] + x[0]] + x[1..]) + y
  {
    if c != sep {
      assert (x + y)[1..] == x[1..] + y;
    }
  }

  /** A string without the separator is a single part. */
  lemma {:induction false} SplitWithoutSeparator(s: string, sep: char)
    requires sep !in s
    ensures Split(s, sep) == [s]
    decreases |s|
  {
    if |s| > 0 {
      SplitWithoutSeparator(s[1..], sep);
      assert s == [s[0]] + s[1..];
    }
  }

  /** The last part is exactly the text after the last separator. */
  lemma LastPartAfterSeparator(stem: string, sep: char, last: string)
    requires sep !in last
    ensures LastPart(stem + [sep] + last, sep) == last
  {
    SplitAround(stem, sep, last);
    SplitWithoutSeparator(last, sep);
  }

  /** The last part of a string is one of its suffixes. */
  lemma {:induction false} LastPartIsSuffix(s: string, sep: char)
    ensures |LastPart(s, sep)| <= |s|
    ensures LastPart(s, sep) == s[|s| - |LastPart(s, sep)|..]
    decreases |s|
  {
    if |s| > 0 {
      var tail := s[1..];
      LastPartIsSuffix(tail, sep);
      LastPartStep(s, sep);
      if LastPart(s, sep) == LastPart(tail, sep) {
        SuffixOfTail(s, LastPart(tail, sep));
      }
    }
  }

  /** One step of LastPart: the first character joins the last part exactly
      when the rest holds no separator and the character is not one. */
  lemma LastPartStep(s: string, sep: char)
    requires |s| > 0
    ensures s[0] != sep && sep !in s[1..] ==> LastPart(s, sep) == s
    ensures s[0] == sep || sep in s[1..] ==> LastPart(s, sep) == LastPart(s[1..], sep)
  {
    var rest := Split(s[1..], sep);
    SplitHasSeveralPartsIffSeparator(s[1..], sep);
    if s[0] != sep && sep !in s[1..] {
      SplitWithoutSeparator(s[1..], sep);
      assert Split(s, sep) == [[s[0]] + s[1..]];
      assert s == [s[0]] + s[1..];
    }
  }

  lemma SuffixOfTail(s: string, r: string)
    requires |s| > 0 && |r| <= |s| - 1 && r == s[1..][|s| - 1 - |r|..]
    ensures r == s[|s| - |r|..]
  {
  }

  /** ASCII case folding, as `toLowerCase` does for ASCII letters. */
  function LowerChar(c: char): char {
    if 'A' <= c <= 'Z' then (c as int + 32) as char else c
  }

  function Lower(s: string): (r: string)
    ensures |r| == |s|
  {
    seq(|s|, i requires 0 <= i < |s| => LowerChar(s[i]))
  }

  predicate IsLower(s: string) {
    forall i :: 0 <= i < |s| ==> !('A' <= s[i] <= 'Z')
  }

  /** Folding yields a lower-case string, and a lower-case string is its
      own folding. */
  lemma LowerIsLower(s: string)
    ensures IsLower(Lower(s))
    ensures IsLower(s) <==> Lower(s) == s
  {
    if Lower(s) == s {
      forall i | 0 <= i < |s| ensures !('A' <= s[i] <= 'Z') {
        assert Lower(s)[i] == LowerChar(s[i]);
      }
    }
  }

  /** `s.replace(from, to)` with a one-character string pattern: only the
      first occurrence is replaced. */
  function ReplaceFirst(s: string, from: char, to: char): (r: string)
    ensures |r| == |s|
    decreases |s|
  {
    if |s| == 0 then s
    else if s[0] == from then [to] + s[1..]
    else [s[0]] + ReplaceFirst(s[1..], from, to)
  }

  /** Only the first occurrence changes: what precedes it is kept, the
      character becomes `to`, and everything after it is kept. */
  lemma {:induction false} ReplaceFirstSpec(a: string, from: char, to: char, b: string)
    requires from !in a
    ensures ReplaceFirst(a + [from] + b, from, to) == a + [to] + b
    decreases |a|
  {
    if |a| > 0 {
      ReplaceFirstSpec(a[1..], from, to, b);
      assert (a + [from] + b)[1..] == a[1..] + [from] + b;
      assert a == [a[0]] + a[1..];
    }
  }

  /** Without an occurrence, nothing changes. */
  lemma {:induction false} ReplaceFirstAbsent(s: string, from: char, to: char)
    requires from !in s
    ensures ReplaceFirst(s, from, to) == s
    decreases |s|
  {
    if |s| > 0 {
      ReplaceFirstAbsent(s[1..], from, to);
      assert s == [s[0]] + s[1..];
    }
  }
}
