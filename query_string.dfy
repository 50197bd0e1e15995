/** Reading back the parts of a URL: the text after a delimiter, and the
    pieces between separators. Used to state what the locator builders put
    into their URLs. */
module QueryString {

  /** The text after the first occurrence of `c` in `s`, or "" if `c` does not occur. */
  function AfterFirst(s: string, c: char): (r: string)
    ensures |r| <= |s|
  {
    if s == [] then []
    else if s[0] == c then s[1..]
    else AfterFirst(s[1..], c)
  }

  /** `s` cut at every occurrence of `sep`; always at least one piece. */
  function Split(s: string, sep: char): (parts: seq<string>)
    ensures |parts| >= 1
    ensures forall k :: 0 <= k < |parts| ==> sep !in parts[k]
  {
    if s == [] then [[]]
    else if s[0] == sep then [[]] + Split(s[1..], sep)
    else
      var rest := Split(s[1..], sep);
      [[s[0]] + rest[0]] + rest[1..]
  }

  lemma {:induction false} AfterFirstPast(a: string, c: char, b: string)
    requires c !in a
    ensures AfterFirst(a + [c] + b, c) == b
  {
    if a == [] {
      assert a + [c] + b == [c] + b;
    } else {
      assert (a + [c] + b)[1..] == a[1..] + [c] + b;
      AfterFirstPast(a[1..], c, b);
    }
  }

  /** A piece without separators stays whole. */
  lemma {:induction false} SplitNoSeparator(a: string, sep: char)
    requires sep !in a
    ensures Split(a, sep) == [a]
  {
    if a != [] {
      SplitNoSeparator(a[1..], sep);
      assert [a[0]] + a[1..] == a;
    }
  }

  /** A separator after a separator-free piece ends that piece. */
  lemma {:induction false} SplitAt(a: string, sep: char, b: string)
    requires sep !in a
    ensures Split(a + [sep] + b, sep) == [a] + Split(b, sep)
  {
    if a == [] {
      assert a + [sep] + b == [sep] + b;
    } else {
      assert (a + [sep] + b)[1..] == a[1..] + [sep] + b;
      SplitAt(a[1..], sep, b);
      assert [a[0]] + a[1..] == a;
    }
  }

  /** The pieces written one after the other with `sep` between them. */
  function Join(parts: seq<string>, sep: char): (s: string)
  {
    if |parts| == 0 then []
    else if |parts| == 1 then parts[0]
    else parts[0] + [sep] + Join(parts[1..], sep)
  }

  lemma JoinFive(p0: string, p1: string, p2: string, p3: string, p4: string, sep: char)
    ensures Join([p0, p1, p2, p3, p4], sep) ==
      p0 + [sep] + (p1 + [sep] + (p2 + [sep] + (p3 + [sep] + p4)))
  {
    assert Join([p4], sep) == p4;
    assert [p3, p4][1..] == [p4];
    assert Join([p3, p4], sep) == p3 + [sep] + p4;
    assert [p2, p3, p4][1..] == [p3, p4];
    assert Join([p2, p3, p4], sep) == p2 + [sep] + Join([p3, p4], sep);
    assert [p1, p2, p3, p4][1..] == [p2, p3, p4];
    assert Join([p1, p2, p3, p4], sep) == p1 + [sep] + Join([p2, p3, p4], sep);
    assert [p0, p1, p2, p3, p4][1..] == [p1, p2, p3, p4];
  }

  /** Splitting undoes joining when no piece holds the separator. */
  lemma {:induction false} SplitJoin(parts: seq<string>, sep: char)
    requires |parts| >= 1
    requires forall k :: 0 <= k < |parts| ==> sep !in parts[k]
    ensures Split(Join(parts, sep), sep) == parts
  {
    if |parts| == 1 {
      SplitNoSeparator(parts[0], sep);
    } else {
      SplitJoin(parts[1..], sep);
      SplitAt(parts[0], sep, Join(parts[1..], sep));
    }
  }

  lemma JoinCons(head: string, tail: seq<string>, sep: char)
    requires |tail| >= 1
    ensures Join([head] + tail, sep) == head + [sep] + Join(tail, sep)
  {
  }

  /** Proof scaffolding: associativity of `+`, named so the regrouping step
      in `JoinCut` stays a single cheap fact. */
  lemma Regroup(a: string, b: string, c: string)
    ensures a + b + c == a + (b + c)
  {
  }

  /** A separator inside a piece reads as a boundary between two pieces. */
  lemma JoinCut(x: string, y: string, rest: seq<string>, sep: char)
    requires |rest| >= 1
    ensures Join([x + [sep] + y] + rest, sep) == Join([x] + ([y] + rest), sep)
  {
    var j := Join(rest, sep);
    JoinCons(y, rest, sep);
    JoinCons(x, [y] + rest, sep);
    JoinCons(x + [sep] + y, rest, sep);
    Regroup(x + [sep], y, [sep] + j);
  }
}
