/**
 * The servlet's `Join` helper: the values of a collection, in order, with a
 * separator between neighbours. The constructor uses it with "|" to turn a
 * vocabulary of view names or formats into a regex alternation.
 */
module Join {

  /** The string both overloads of `join` build from the values, in order. */
  function Joined(values: seq<string>, on: string): (joined: string)
    decreases |values|
  {
    if |values| == 0 then ""
    else if |values| == 1 then values[0]
    else Joined(values[..|values| - 1], on) + on + values[|values| - 1]
  }

  /** The strings `value(t)` gives for the items, in order. */
  function Values<T>(items: seq<T>, value: T -> string): (values: seq<string>) {
    seq(|items|, k requires 0 <= k < |items| => value(items[k]))
  }

  /**
   * `join(T[] array, String on)`: an empty array gives ""; otherwise the
   * first value, then `on` and the next value for each further element.
   */
  method JoinArray<T>(items: array<T>, value: T -> string, on: string) returns (r: string)
    ensures r == Joined(Values(items[..], value), on)
  {
    ghost var all := Values(items[..], value);
    var buf := "";
    var length := items.Length;
    if length == 0 {
      return buf;
    }
    buf := buf + value(items[0]);
    for i := 1 to items.Length
      invariant buf == Joined(all[..i], on)
    {
      assert all[..i + 1][..i] == all[..i];
      buf := buf + on;
      buf := buf + value(items[i]);
    }
    assert all[..items.Length] == all;
    return buf;
  }

  /**
   * `join(Iterable<T> iterable, String on)`: the value of the first element
   * the iterator yields, if any, then `on` and the next value while the
   * iterator has more. The iterator is the position `pos` in the sequence.
   * Gives the same string as JoinArray for the same elements.
   */
  method JoinIterable<T>(iterable: seq<T>, value: T -> string, on: string) returns (r: string)
    ensures r == Joined(Values(iterable, value), on)
  {
    ghost var all := Values(iterable, value);
    var buf := "";
    var pos := 0;
    if pos < |iterable| {
      buf := buf + value(iterable[pos]);
      pos := pos + 1;
    }
    while pos < |iterable|
      invariant pos <= |iterable|
      invariant pos == 0 ==> |iterable| == 0
      invariant buf == Joined(all[..pos], on)
    {
      assert all[..pos + 1][..pos] == all[..pos];
      buf := buf + on;
      buf := buf + value(iterable[pos]);
      pos := pos + 1;
    }
    assert all[..pos] == all;
    return buf;
  }

  /** A character in no value and not in the separator is not in the joined string. */
  lemma {:induction false} JoinedAvoids(values: seq<string>, on: string, c: char)
    requires c !in on
    requires forall k :: 0 <= k < |values| ==> c !in values[k]
    ensures c !in Joined(values, on)
    decreases |values|
  {
    if |values| > 1 {
      JoinedAvoids(values[..|values| - 1], on, c);
    }
  }

  /** The first position of c in s. */
  function IndexOf(s: string, c: char): (i: nat)
    requires c in s
    ensures i < |s| && s[i] == c && c !in s[..i]
  {
    if s[0] == c then 0 else 1 + IndexOf(s[1..], c)
  }

  /** The first occurrence is the one with no occurrence before it. */
  lemma {:induction false} IndexOfIs(s: string, c: char, i: nat)
    requires i < |s| && s[i] == c && c !in s[..i]
    ensures IndexOf(s, c) == i
    decreases i
  {
    if i > 0 {
      assert s[0] in s[..i];
      assert s[1..][..i - 1] == s[1..i];
      IndexOfIs(s[1..], c, i - 1);
    }
  }

  /**
   * The pieces of s between the occurrences of c, in order: how a regex
   * reads the top-level alternatives of `a|b|c`. An empty s is one empty piece.
   */
  function Split(s: string, c: char): (r: seq<string>)
    ensures |r| > 0
    decreases |s|
  {
    if c !in s then [s]
    else
      var i := IndexOf(s, c);
      [s[..i]] + Split(s[i + 1..], c)
  }

  /** Split cuts at the first separator. */
  lemma SplitAt(s: string, c: char, i: nat)
    requires i < |s| && s[i] == c && c !in s[..i]
    ensures Split(s, c) == [s[..i]] + Split(s[i + 1..], c)
  {
    IndexOfIs(s, c, i);
  }

  lemma Regroup(whole: seq<string>, init: seq<string>, first: seq<string>, left: seq<string>, right: seq<string>)
    requires whole == first + (left + right) && init == first + left
    ensures whole == init + right
  {
  }

  /** Splitting at a separator splits the two sides independently. */
  lemma {:induction false} SplitAround(a: string, b: string, c: char)
    ensures Split(a + [c] + b, c) == Split(a, c) + Split(b, c)
    decreases |a|
  {
    var s := a + [c] + b;
    if c !in a {
      assert s[..|a|] == a && s[|a|] == c;
      SplitAt(s, c, |a|);
      assert s[|a| + 1..] == b;
    } else {
      var i := IndexOf(a, c);
      var rest := a[i + 1..];
      assert s[..i] == a[..i] && s[i] == c;
      assert s[i + 1..] == rest + [c] + b;
      SplitAt(s, c, i);
      SplitAt(a, c, i);
      SplitAround(rest, b, c);
      Regroup(Split(s, c), Split(a, c), [a[..i]], Split(rest, c), Split(b, c));
    }
  }

  /**
   * Reading the joined string back as an alternation gives the values in
   * their order, provided no value contains the separator; no values give
   * the single empty alternative.
   */
  lemma {:induction false} SplitJoined(values: seq<string>, sep: char)
    requires forall k :: 0 <= k < |values| ==> sep !in values[k]
    ensures Split(Joined(values, [sep]), sep) == if |values| == 0 then [""] else values
    decreases |values|
  {
    var n := |values|;
    if n == 1 {
      assert sep !in values[0];
      assert Split(values[0], sep) == [values[0]];
    } else if n > 1 {
      var init, last := values[..n - 1], values[n - 1];
      assert forall k :: 0 <= k < |init| ==> init[k] == values[k];
      SplitJoined(init, sep);
      assert |init| > 0;
      var joinedInit := Joined(init, [sep]);
      assert Split(joinedInit, sep) == init;
      assert sep !in last;
      assert Split(last, sep) == [last];
      assert Joined(values, [sep]) == joinedInit + [sep] + last;
      SplitAround(joinedInit, last, sep);
      assert values == init + [last];
    }
  }

  /** Without the separator inside the values, the joined string holds exactly n-1 of them. */
  lemma {:induction false} SeparatorCount(values: seq<string>, sep: char)
    requires |values| > 0
    requires forall k :: 0 <= k < |values| ==> sep !in values[k]
    ensures multiset(Joined(values, [sep]))[sep] == |values| - 1
    decreases |values|
  {
    var n := |values|;
    if n > 1 {
      var init := values[..n - 1];
      SeparatorCount(init, sep);
      assert sep !in multiset(values[n - 1]);
      assert multiset(Joined(values, [sep])) ==
        multiset(Joined(init, [sep])) + multiset([sep]) + multiset(values[n - 1]);
    } else {
      assert sep !in multiset(values[0]);
    }
  }

  /** The total length of the values. */
  function TotalLength(values: seq<string>): (n: nat)
    decreases |values|
  {
    if |values| == 0 then 0 else TotalLength(values[..|values| - 1]) + |values[|values| - 1]|
  }

  /** Every value is copied whole and there are n-1 copies of `on`. */
  lemma {:induction false} JoinedLength(values: seq<string>, on: string)
    requires |values| > 0
    ensures |Joined(values, on)| == TotalLength(values) + (|values| - 1) * |on|
    decreases |values|
  {
    var n := |values|;
    if n > 1 {
      JoinedLength(values[..n - 1], on);
      assert values[..n - 1][..n - 2] == values[..n - 2];
    } else {
      assert values[..0] == [];
    }
  }
}
