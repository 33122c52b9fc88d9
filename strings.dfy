/** Go's strings.Join, which turns the service's nonFieldErrors list into one
    error message, and strings.Split on a one-character separator as its
    partner: splitting the joined message at the separator recovers the list. */
module Strings {

  /** strings.Join(elems, sep): no elements give "", one gives itself. */
  function Join(elems: seq<string>, sep: string): (r: string)
    ensures |elems| == 0 ==> r == ""
    ensures |elems| > 0 ==> |r| >= |elems[0]| && r[..|elems[0]|] == elems[0]
  {
    if |elems| == 0 then ""
    else if |elems| == 1 then elems[0]
    else elems[0] + sep + Join(elems[1..], sep)
  }

  /** strings.Split(s, [sep]): the pieces of s between occurrences of sep;
      always at least one piece. */
  function Split(s: string, sep: char): (r: seq<string>)
    ensures |r| >= 1
    ensures sep !in s ==> r == [s]
  {
    if |s| == 0 then [""]
    else
      var rest := Split(s[1..], sep);
      if s[0] == sep then [""] + rest
      else
        assert s == [s[0]] + s[1..];
        [[s[0]] + rest[0]] + rest[1..]
  }

  predicate NoneContains(elems: seq<string>, sep: char) {
    forall i :: 0 <= i < |elems| ==> sep !in elems[i]
  }

  /** Splitting a piece free of sep followed by sep and more text yields the
      piece, then the pieces of that text. */
  lemma {:induction false} SplitAfterPiece(a: string, sep: char, b: string)
    requires sep !in a
    ensures Split(a + [sep] + b, sep) == [a] + Split(b, sep)
    decreases |a|
  {
    if |a| == 0 {
      assert a + [sep] + b == [sep] + b;
      assert ([sep] + b)[1..] == b;
    } else {
      assert (a + [sep] + b)[1..] == a[1..] + [sep] + b;
      SplitAfterPiece(a[1..], sep, b);
      assert [a[0]] + a[1..] == a;
    }
  }

  /** Joining one more element appends the separator and that element, as
      Go's Join does when it writes each further element after a separator. */
  lemma {:induction false} JoinSnoc(elems: seq<string>, x: string, sep: string)
    requires |elems| > 0
    ensures Join(elems + [x], sep) == Join(elems, sep) + sep + x
    decreases |elems|
  {
    if |elems| > 1 {
      JoinSnoc(elems[1..], x, sep);
      assert (elems + [x])[1..] == elems[1..] + [x];
    }
  }

  /** Join and Split are inverse on non-empty lists whose elements do not
      contain the separator. */
  lemma {:induction false} SplitJoin(elems: seq<string>, sep: char)
    requires |elems| > 0 && NoneContains(elems, sep)
    ensures Split(Join(elems, [sep]), sep) == elems
    decreases |elems|
  {
    if |elems| > 1 {
      SplitJoin(elems[1..], sep);
      SplitAfterPiece(elems[0], sep, Join(elems[1..], [sep]));
      assert elems == [elems[0]] + elems[1..];
    }
  }

  /** The length of a joined string: the elements plus one separator between
      each neighbouring pair. */
  lemma {:induction false} JoinLength(elems: seq<string>, sep: string)
    requires |elems| > 0
    ensures |Join(elems, sep)| == TotalLength(elems) + (|elems| - 1) * |sep|
    decreases |elems|
  {
    if |elems| > 1 {
      JoinLength(elems[1..], sep);
    }
  }

  function TotalLength(elems: seq<string>): nat {
    if |elems| == 0 then 0 else |elems[0]| + TotalLength(elems[1..])
  }
}
