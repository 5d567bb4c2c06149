/** Python's `sep.join(parts)` and `s.split(c)` on strings, with the facts that tie them together. */
module Text {

  /** `sep.join(parts)`: the parts in order, with `sep` between neighbours. */
  function Join(parts: seq<string>, sep: string): string
    decreases |parts|
  {
    if |parts| == 0 then ""
    else if |parts| == 1 then parts[0]
    else parts[0] + sep + Join(parts[1..], sep)
  }

  /** Joining a first part with at least one more: the first part, the separator, then the rest joined. */
  lemma JoinCons(first: string, rest: seq<string>, sep: string)
    requires |rest| >= 1
    ensures Join([first] + rest, sep) == first + sep + Join(rest, sep)
  {
    assert ([first] + rest)[1..] == rest;
  }

  /** Joining two non-empty lists back to back: the two joins with one separator between them. */
  lemma {:induction false} JoinAppend(a: seq<string>, b: seq<string>, sep: string)
    requires |a| >= 1 && |b| >= 1
    ensures Join(a + b, sep) == Join(a, sep) + sep + Join(b, sep)
    decreases |a|
  {
    if |a| == 1 {
      JoinCons(a[0], b, sep);
      assert a + b == [a[0]] + b;
    } else {
      JoinAppend(a[1..], b, sep);
      JoinCons(a[0], a[1..] + b, sep);
      assert a + b == [a[0]] + (a[1..] + b);
      JoinCons(a[0], a[1..], sep);
      assert [a[0]] + a[1..] == a;
    }
  }

  /** Where part `i` starts inside `Join(parts, sep)`. */
  function Offset(parts: seq<string>, sep: string, i: nat): nat
    requires i < |parts|
    decreases i
  {
    if i == 0 then 0 else |parts[0]| + |sep| + Offset(parts[1..], sep, i - 1)
  }

  /** Part `i` stands, unchanged, at `Offset(parts, sep, i)` in the joined string. */
  lemma {:induction false} JoinPartAt(parts: seq<string>, sep: string, i: nat)
    requires i < |parts|
    ensures Offset(parts, sep, i) + |parts[i]| <= |Join(parts, sep)|
    ensures Join(parts, sep)[Offset(parts, sep, i)..Offset(parts, sep, i) + |parts[i]|] == parts[i]
    decreases i
  {
    var j := Join(parts, sep);
    if i == 0 {
      if |parts| > 1 {
        assert j == parts[0] + sep + Join(parts[1..], sep);
        assert j[..|parts[0]|] == parts[0];
      }
    } else {
      var tail := Join(parts[1..], sep);
      var shift := |parts[0]| + |sep|;
      assert j == parts[0] + sep + tail;
      JoinPartAt(parts[1..], sep, i - 1);
      assert parts[1..][i - 1] == parts[i];
      var o := Offset(parts[1..], sep, i - 1);
      assert j[shift + o..shift + o + |parts[i]|] == tail[o..o + |parts[i]|];
    }
  }

  /** Between part `i` and part `i + 1` stands exactly one separator. */
  lemma {:induction false} JoinSeparatorAfter(parts: seq<string>, sep: string, i: nat)
    requires i + 1 < |parts|
    ensures Offset(parts, sep, i + 1) == Offset(parts, sep, i) + |parts[i]| + |sep| <= |Join(parts, sep)|
    ensures Join(parts, sep)[Offset(parts, sep, i) + |parts[i]|..Offset(parts, sep, i + 1)] == sep
    decreases i
  {
    var j := Join(parts, sep);
    var tail := Join(parts[1..], sep);
    assert j == parts[0] + sep + tail;
    if i == 0 {
      assert j[|parts[0]|..|parts[0]| + |sep|] == sep;
    } else {
      var shift := |parts[0]| + |sep|;
      JoinSeparatorAfter(parts[1..], sep, i - 1);
      assert parts[1..][i - 1] == parts[i];
      var o, o' := Offset(parts[1..], sep, i - 1), Offset(parts[1..], sep, i);
      assert j[shift + o + |parts[i]|..shift + o'] == tail[o + |parts[i]|..o'];
    }
  }

  /** The last part ends the joined string: nothing follows it. */
  lemma {:induction false} JoinLastPartEnds(parts: seq<string>, sep: string)
    requires |parts| >= 1
    ensures Offset(parts, sep, |parts| - 1) + |parts[|parts| - 1]| == |Join(parts, sep)|
    decreases |parts|
  {
    if |parts| > 1 {
      JoinLastPartEnds(parts[1..], sep);
      assert parts[1..][|parts| - 2] == parts[|parts| - 1];
    }
  }

  /** `s.split(c)`: the maximal runs of `s` between occurrences of `c`; never an empty list. */
  function Split(s: string, c: char): (fields: seq<string>)
    ensures |fields| >= 1
    decreases |s|
  {
    if s == [] then [""]
    else
      var rest := Split(s[1..], c);
      if s[0] == c then [""] + rest else [[s[0]] + rest[0]] + rest[1..]
  }

  /** A string without the separator is a single field. */
  lemma {:induction false} SplitWithout(s: string, c: char)
    requires c !in s
    ensures Split(s, c) == [s]
    decreases |s|
  {
    if s != [] {
      assert s[0] != c;
      SplitWithout(s[1..], c);
      assert [s[0]] + s[1..] == s;
    }
  }

  /** Splitting at one occurrence of the separator splits the two sides independently. */
  lemma {:induction false} SplitAround(a: string, b: string, c: char)
    ensures Split(a + [c] + b, c) == Split(a, c) + Split(b, c)
    decreases |a|
  {
    var s := a + [c] + b;
    if a == [] {
      assert s[0] == c && s[1..] == b;
    } else {
      assert s[0] == a[0];
      assert s[1..] == a[1..] + [c] + b;
      SplitAround(a[1..], b, c);
    }
  }

  /** Joining the fields of a split with the separator gives the string back. */
  lemma {:induction false} JoinSplit(s: string, c: char)
    ensures Join(Split(s, c), [c]) == s
    decreases |s|
  {
    if s != [] {
      var rest := Split(s[1..], c);
      JoinSplit(s[1..], c);
      if s[0] == c {
        assert Join([""] + rest, [c]) == "" + [c] + Join(rest, [c]) by {
          assert ([""] + rest)[1..] == rest;
        }
      } else if |rest| == 1 {
        assert Split(s, c) == [[s[0]] + rest[0]];
      } else {
        var fields := [[s[0]] + rest[0]] + rest[1..];
        assert fields[1..] == rest[1..];
        assert Join(rest, [c]) == rest[0] + [c] + Join(rest[1..], [c]);
      }
    }
  }

  /** Splitting a join of separator-free parts gives the parts back. */
  lemma {:induction false} SplitJoin(parts: seq<string>, c: char)
    requires |parts| >= 1
    requires forall i :: 0 <= i < |parts| ==> c !in parts[i]
    ensures Split(Join(parts, [c]), c) == parts
    decreases |parts|
  {
    SplitWithout(parts[0], c);
    if |parts| > 1 {
      SplitJoin(parts[1..], c);
      SplitAround(parts[0], Join(parts[1..], [c]), c);
      assert [parts[0]] + parts[1..] == parts;
    }
  }

  /** Joining a head, one middle part and a tail: the middle part stands verbatim between the two joins. */
  lemma {:induction false} JoinAround(head: seq<string>, middle: string, tail: seq<string>, sep: string)
    requires |head| >= 1 && |tail| >= 1
    ensures Join(head + [middle] + tail, sep) == Join(head, sep) + sep + middle + sep + Join(tail, sep)
  {
    JoinAppend(head, [middle] + tail, sep);
    JoinCons(middle, tail, sep);
    assert head + [middle] + tail == head + ([middle] + tail);
  }

  /** Splitting at two occurrences of the separator splits the three pieces independently. */
  lemma {:induction false} SplitAroundTwice(a: string, b: string, d: string, c: char)
    ensures Split(a + [c] + (b + [c] + d), c) == Split(a, c) + Split(b, c) + Split(d, c)
  {
    SplitAround(a, b + [c] + d, c);
    SplitAround(b, d, c);
  }

  /**
   * Splitting a join whose head and tail parts hold no separator gives back the head, the fields of the
   * middle part, and the tail.
   */
  lemma {:induction false} SplitJoinAround(head: seq<string>, middle: string, tail: seq<string>, c: char)
    requires |head| >= 1 && |tail| >= 1
    requires forall i :: 0 <= i < |head| ==> c !in head[i]
    requires forall i :: 0 <= i < |tail| ==> c !in tail[i]
    ensures Split(Join(head + [middle] + tail, [c]), c) == head + Split(middle, c) + tail
  {
    var h, t := Join(head, [c]), Join(tail, [c]);
    JoinAround(head, middle, tail, [c]);
    assert Join(head + [middle] + tail, [c]) == h + [c] + (middle + [c] + t);
    SplitAroundTwice(h, middle, t, c);
    SplitJoin(head, c);
    SplitJoin(tail, c);
  }
}
