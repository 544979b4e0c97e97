/**
 * Joining strings with ", " (`Array.prototype.join(', ')`) and splitting a
 * string on ", " (`String.prototype.split(', ')`), with the laws that make
 * them inverse to each other.
 */
module Separator {

  /** True when `s` contains no comma, so that ", " cannot occur in it. */
  predicate CommaFree(s: string) {
    forall i :: 0 <= i < |s| ==> s[i] != ','
  }

  /** The parts in order with ", " between neighbours; the empty list joins to "". */
  function Join(parts: seq<string>): string
    decreases |parts|
  {
    if |parts| == 0 then ""
    else if |parts| == 1 then parts[0]
    else parts[0] + ", " + Join(parts[1..])
  }

  /**
   * The pieces between non-overlapping occurrences of ", ", found from left
   * to right; a string without one is a single piece.
   */
  function Split(s: string): (parts: seq<string>)
    ensures |parts| >= 1
    decreases |s|
  {
    if s == [] then [""]
    else if |s| >= 2 && s[0] == ',' && s[1] == ' ' then [""] + Split(s[2..])
    else var rest := Split(s[1..]); [[s[0]] + rest[0]] + rest[1..]
  }

  /** Appending one part to a join adds one separator and the part. */
  lemma {:induction false} JoinSnoc(parts: seq<string>, last: string)
    ensures Join(parts + [last]) == if parts == [] then last else Join(parts) + ", " + last
    decreases |parts|
  {
    if |parts| >= 2 {
      assert (parts + [last])[1..] == parts[1..] + [last];
      JoinSnoc(parts[1..], last);
    } else if |parts| == 1 {
      assert (parts + [last])[1..] == [last];
    }
  }

  /**
   * Building a join from the left: with ", " in front of every part, the
   * text for the first i + 1 parts is the text for the first i, ", " and part i.
   */
  lemma JoinPrefixStep(parts: seq<string>, i: nat)
    requires i < |parts|
    ensures (if i == 0 then "" else ", " + Join(parts[..i])) + ", " + parts[i] == ", " + Join(parts[..i + 1])
  {
    assert parts[..i + 1] == parts[..i] + [parts[i]];
    JoinSnoc(parts[..i], parts[i]);
    if i == 0 {
      assert parts[..i] == [];
    } else {
      assert parts[..i] != [];
      var j := Join(parts[..i]);
      assert ", " + j + ", " + parts[i] == ", " + (j + ", " + parts[i]);
    }
  }

  /** ", " cannot overlap itself, so splitting distributes over a joined seam. */
  lemma {:induction false} SplitAcrossSeparator(x: string, y: string)
    ensures Split(x + ", " + y) == Split(x) + Split(y)
    decreases |x|
  {
    var t := x + ", " + y;
    if x == [] {
      assert t[2..] == y;
    } else if |x| >= 2 && x[0] == ',' && x[1] == ' ' {
      assert t[2..] == x[2..] + ", " + y;
      SplitAcrossSeparator(x[2..], y);
    } else {
      assert t[1..] == x[1..] + ", " + y;
      SplitAcrossSeparator(x[1..], y);
    }
  }

  /** A comma-free string splits into itself alone. */
  lemma {:induction false} SplitCommaFree(s: string)
    requires CommaFree(s)
    ensures Split(s) == [s]
    decreases |s|
  {
    if s != [] {
      SplitCommaFree(s[1..]);
      assert s == [s[0]] + s[1..];
    }
  }

  /** Splitting a join of comma-free parts gives back exactly those parts. */
  lemma {:induction false} SplitJoin(parts: seq<string>)
    requires |parts| >= 1
    requires forall i :: 0 <= i < |parts| ==> CommaFree(parts[i])
    ensures Split(Join(parts)) == parts
    decreases |parts|
  {
    if |parts| == 1 {
      SplitCommaFree(parts[0]);
    } else {
      SplitCommaFree(parts[0]);
      SplitJoin(parts[1..]);
      SplitAcrossSeparator(parts[0], Join(parts[1..]));
    }
  }

  /** Putting one more part in front of a non-empty join adds one separator. */
  lemma {:induction false} JoinCons(head: string, rest: seq<string>)
    requires |rest| >= 1
    ensures Join([head] + rest) == head + ", " + Join(rest)
  {
    assert ([head] + rest)[1..] == rest;
  }

  /** Extending the first part of a non-empty list by one character in front extends its join the same way. */
  lemma {:induction false} JoinExtendHead(c: char, parts: seq<string>)
    requires |parts| >= 1
    ensures Join([[c] + parts[0]] + parts[1..]) == [c] + Join(parts)
  {
    var head, tail := [c] + parts[0], parts[1..];
    if |parts| >= 2 {
      calc {
        Join([head] + tail);
        { JoinCons(head, tail); }
        head + ", " + Join(tail);
        [c] + (parts[0] + ", " + Join(tail));
        { JoinCons(parts[0], tail); assert [parts[0]] + tail == parts; }
        [c] + Join(parts);
      }
    } else {
      assert [head] + tail == [head];
    }
  }

  /** Joining the pieces of a split restores the string. */
  lemma {:induction false} JoinSplit(s: string)
    ensures Join(Split(s)) == s
    decreases |s|
  {
    if s == [] {
    } else if |s| >= 2 && s[0] == ',' && s[1] == ' ' {
      JoinSplit(s[2..]);
      JoinCons("", Split(s[2..]));
      assert s == ", " + s[2..];
    } else {
      JoinSplit(s[1..]);
      JoinExtendHead(s[0], Split(s[1..]));
      assert s == [s[0]] + s[1..];
    }
  }

  /** A character other than ',' and ' ' occurs in a join only if it occurs in a part. */
  lemma {:induction false} JoinAvoids(parts: seq<string>, c: char)
    requires c != ',' && c != ' '
    requires forall i :: 0 <= i < |parts| ==> c !in parts[i]
    ensures c !in Join(parts)
    decreases |parts|
  {
    if |parts| >= 2 {
      JoinAvoids(parts[1..], c);
    }
  }
}
