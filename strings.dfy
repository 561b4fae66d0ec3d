/** String building used by the pipeline: `+=` accumulation, str.join and str.split. */
module Strings {

  /** The strings of xs one after another, nothing in between ("".join(xs)). */
  function Concat(xs: seq<string>): string {
    if xs == [] then "" else xs[0] + Concat(xs[1..])
  }

  /** sep.join(xs): the strings of xs with sep between each neighbouring pair. */
  function Join(sep: string, xs: seq<string>): string {
    if xs == [] then ""
    else if |xs| == 1 then xs[0]
    else xs[0] + sep + Join(sep, xs[1..])
  }

  /** s.split(c) for a one-character separator c: the pieces between occurrences of c. */
  function SplitOn(c: char, s: string): (r: seq<string>)
    ensures r != []
    decreases |s|
  {
    if s == [] then [""]
    else
      var rest := SplitOn(c, s[1..]);
      if s[0] == c then [""] + rest else [[s[0]] + rest[0]] + rest[1..]
  }

  /** Concatenation distributes over appending lists of strings. */
  lemma {:induction false} ConcatAppend(xs: seq<string>, ys: seq<string>)
    ensures Concat(xs + ys) == Concat(xs) + Concat(ys)
  {
    if xs == [] {
      assert xs + ys == ys;
    } else {
      assert (xs + ys)[1..] == xs[1..] + ys;
      ConcatAppend(xs[1..], ys);
    }
  }

  /** Joining two non-empty lists puts exactly one separator where they meet. */
  lemma {:induction false} JoinAppend(sep: string, xs: seq<string>, ys: seq<string>)
    requires xs != [] && ys != []
    ensures Join(sep, xs + ys) == Join(sep, xs) + sep + Join(sep, ys)
  {
    assert (xs + ys)[0] == xs[0];
    assert (xs + ys)[1..] == xs[1..] + ys;
    if |xs| > 1 {
      JoinAppend(sep, xs[1..], ys);
    }
  }

  /** A string free of c splits into itself alone. */
  lemma {:induction false} SplitWithoutSeparator(c: char, a: string)
    requires c !in a
    ensures SplitOn(c, a) == [a]
    decreases |a|
  {
    if a != [] {
      assert c !in a[1..];
      SplitWithoutSeparator(c, a[1..]);
      assert [a[0]] + a[1..] == a;
    }
  }

  /** Splitting at the first c yields the piece before it, then the split of the remainder. */
  lemma {:induction false} SplitAtFirstSeparator(c: char, a: string, b: string)
    requires c !in a
    ensures SplitOn(c, a + [c] + b) == [a] + SplitOn(c, b)
    decreases |a|
  {
    var s := a + [c] + b;
    if a == [] {
      assert s[1..] == b;
    } else {
      assert s[1..] == a[1..] + [c] + b;
      assert c !in a[1..];
      SplitAtFirstSeparator(c, a[1..], b);
      assert [a[0]] + a[1..] == a;
    }
  }

  /** Splitting on c undoes joining with c, when no piece contains c. */
  lemma {:induction false} SplitJoin(c: char, parts: seq<string>)
    requires parts != []
    requires forall i :: 0 <= i < |parts| ==> c !in parts[i]
    ensures SplitOn(c, Join([c], parts)) == parts
  {
    if |parts| == 1 {
      SplitWithoutSeparator(c, parts[0]);
    } else {
      SplitAtFirstSeparator(c, parts[0], Join([c], parts[1..]));
      SplitJoin(c, parts[1..]);
      assert [parts[0]] + parts[1..] == parts;
    }
  }
}
