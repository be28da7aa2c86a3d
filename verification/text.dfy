/** The few string operations of Python the service relies on, over `seq<char>`. */
module Text {

  /** Python's `<` on `str`: lexicographic order on code points, where a proper
      prefix sorts first. */
  predicate Below(a: string, b: string)
    decreases |a|
  {
    if |a| == 0 then |b| > 0
    else if |b| == 0 then false
    else if a[0] != b[0] then a[0] < b[0]
    else Below(a[1..], b[1..])
  }

  lemma {:induction false} BelowIrreflexive(a: string)
    ensures !Below(a, a)
    decreases |a|
  {
    if |a| > 0 {
      BelowIrreflexive(a[1..]);
    }
  }

  lemma {:induction false} BelowAsymmetric(a: string, b: string)
    ensures Below(a, b) ==> !Below(b, a)
    decreases |a|
  {
    if |a| > 0 && |b| > 0 && a[0] == b[0] {
      BelowAsymmetric(a[1..], b[1..]);
    }
  }

  lemma {:induction false} BelowTransitive(a: string, b: string, c: string)
    ensures Below(a, b) && Below(b, c) ==> Below(a, c)
    decreases |a|
  {
    if |a| > 0 && |b| > 0 && |c| > 0 && a[0] == b[0] && b[0] == c[0] {
      BelowTransitive(a[1..], b[1..], c[1..]);
    }
  }

  /** Two different strings are always ordered one way or the other. */
  lemma {:induction false} BelowTotal(a: string, b: string)
    ensures a != b ==> Below(a, b) || Below(b, a)
    decreases |a|
  {
    if |a| > 0 && |b| > 0 && a[0] == b[0] {
      BelowTotal(a[1..], b[1..]);
      if a[1..] == b[1..] {
        assert a == [a[0]] + a[1..] && b == [b[0]] + b[1..];
      }
    }
  }

  /** `str.isdigit()` restricted to ASCII digits: non-empty and all of 0-9. */
  predicate IsDigits(s: string) {
    |s| > 0 && forall i :: 0 <= i < |s| ==> '0' <= s[i] <= '9'
  }

  /** `int(s)` for a string of decimal digits (leading zeros allowed). */
  function DigitsValue(s: string): (n: nat)
    requires forall i :: 0 <= i < |s| ==> '0' <= s[i] <= '9'
    decreases |s|
  {
    if |s| == 0 then 0
    else DigitsValue(s[..|s| - 1]) * 10 + (s[|s| - 1] as int - '0' as int)
  }

  /** Index of the first occurrence of `c` in `s`, or `|s|` if none. */
  function IndexOf(s: string, c: char): (i: nat)
    ensures i <= |s|
    ensures i < |s| ==> s[i] == c
    ensures forall j :: 0 <= j < i ==> s[j] != c
    decreases |s|
  {
    if |s| == 0 then 0
    else if s[0] == c then 0
    else 1 + IndexOf(s[1..], c)
  }

  /** Python's `s.split(sep)` with a one-character separator: every occurrence
      splits, nothing is trimmed, and empty pieces are kept (`"".split(",")`
      is `[""]`). */
  function Split(s: string, sep: char): (parts: seq<string>)
    ensures |parts| >= 1
    ensures forall k :: 0 <= k < |parts| ==> sep !in parts[k]
    ensures Join(parts, sep) == s
    decreases |s|
  {
    var i := IndexOf(s, sep);
    if i == |s| then
      [s]
    else
      var head := s[..i];
      assert forall j :: 0 <= j < |head| ==> head[j] != sep;
      var rest := Split(s[i + 1..], sep);
      assert s == head + [sep] + s[i + 1..];
      [head] + rest
  }

  /** `sep.join(parts)`: the inverse of `Split`. */
  function Join(parts: seq<string>, sep: char): string
    decreases |parts|
  {
    if |parts| == 0 then ""
    else if |parts| == 1 then parts[0]
    else parts[0] + [sep] + Join(parts[1..], sep)
  }

  /** Splitting a joined list of separator-free pieces gives the pieces back. */
  lemma {:induction false} SplitJoin(parts: seq<string>, sep: char)
    requires |parts| >= 1
    requires forall k :: 0 <= k < |parts| ==> sep !in parts[k]
    ensures Split(Join(parts, sep), sep) == parts
    decreases |parts|
  {
    var s := Join(parts, sep);
    if |parts| == 1 {
      assert s == parts[0];
      IndexOfAbsent(s, sep);
    } else {
      var rest := Join(parts[1..], sep);
      assert s == parts[0] + [sep] + rest;
      IndexOfFirst(parts[0], sep, rest);
      assert s[|parts[0]| + 1..] == rest;
      assert s[..|parts[0]|] == parts[0];
      SplitJoin(parts[1..], sep);
      assert parts == [parts[0]] + parts[1..];
    }
  }

  lemma IndexOfAbsent(s: string, c: char)
    requires c !in s
    ensures IndexOf(s, c) == |s|
  {
  }

  lemma IndexOfFirst(head: string, c: char, tail: string)
    requires c !in head
    ensures IndexOf(head + [c] + tail, c) == |head|
  {
    var s := head + [c] + tail;
    assert forall j :: 0 <= j < |head| ==> s[j] == head[j];
    assert s[|head|] == c;
  }
}
