/** The few string operations the exporter relies on, as Python defines them
    for a one-character argument: str.rfind, str.find, str.join and str.split. */
module Strings {
  import opened Sequences

  /** s.rfind(c): the index of the last c in s, or -1 when s has none. */
  function RFind(s: string, c: char): (i: int)
    ensures -1 <= i < |s|
    ensures 0 <= i ==> s[i] == c
    ensures forall k :: i < k < |s| ==> s[k] != c
  {
    if s == [] then -1
    else if s[|s| - 1] == c then |s| - 1
    else RFind(s[..|s| - 1], c)
  }

  /** s.find(c): the index of the first c in s, or -1 when s has none. */
  function Find(s: string, c: char): (i: int)
    ensures -1 <= i < |s|
    ensures 0 <= i ==> s[i] == c
    ensures forall k :: 0 <= k < |s| && (i < 0 || k < i) ==> s[k] != c
  {
    if s == [] then -1
    else if s[0] == c then 0
    else
      var j := Find(s[1..], c);
      if j < 0 then -1 else j + 1
  }

  /** [sep].join(parts): the parts with one separator between neighbours and
      none at either end. */
  function JoinWith(parts: seq<string>, sep: char): string
  {
    if parts == [] then ""
    else if |parts| == 1 then parts[0]
    else parts[0] + [sep] + JoinWith(parts[1..], sep)
  }

  /** s.split(sep): the pieces between separators. */
  function SplitOn(s: string, sep: char): seq<string>
    decreases |s|
  {
    var i := Find(s, sep);
    if i < 0 then [s] else [s[..i]] + SplitOn(s[i + 1..], sep)
  }

  /** The text before the first separator holds none. */
  lemma BeforeFind(s: string, sep: char)
    requires 0 <= Find(s, sep)
    ensures sep !in s[..Find(s, sep)]
  {
    var head := s[..Find(s, sep)];
    forall k | 0 <= k < |head| ensures head[k] != sep {
      assert head[k] == s[k];
    }
  }

  /** The pieces of a split are never empty as a list, hold no separator,
      and joining them again gives s back. */
  lemma {:induction false} SplitOnJoins(s: string, sep: char)
    ensures |SplitOn(s, sep)| >= 1
    ensures forall k :: 0 <= k < |SplitOn(s, sep)| ==> sep !in SplitOn(s, sep)[k]
    ensures JoinWith(SplitOn(s, sep), sep) == s
    decreases |s|
  {
    var i := Find(s, sep);
    if 0 <= i {
      var head, tail := s[..i], s[i + 1..];
      var rest := SplitOn(tail, sep);
      SplitOnJoins(tail, sep);
      BeforeFind(s, sep);
      HeadTail(head, rest);
      CutAt(s, i);
      var parts := [head] + rest;
      assert SplitOn(s, sep) == parts;
      assert JoinWith(parts, sep) == head + [sep] + JoinWith(rest, sep);
    }
  }

  /** Splitting a join recovers the parts, as long as no part holds the
      separator: this is how a reader of a label file gets its lines back. */
  lemma {:induction false} SplitJoin(parts: seq<string>, sep: char)
    requires |parts| >= 1
    requires forall k :: 0 <= k < |parts| ==> sep !in parts[k]
    ensures SplitOn(JoinWith(parts, sep), sep) == parts
  {
    var s := JoinWith(parts, sep);
    if |parts| == 1 {
      assert Find(s, sep) < 0;
    } else {
      var p0, rest := parts[0], JoinWith(parts[1..], sep);
      assert s == p0 + [sep] + rest;
      var i := Find(s, sep);
      assert s[|p0|] == sep;
      assert i == |p0|;
      assert s[..i] == p0;
      assert s[i + 1..] == rest;
      SplitJoin(parts[1..], sep);
      assert parts == [p0] + parts[1..];
    }
  }
}
