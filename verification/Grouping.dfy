/**
 Insertion-ordered grouping, as `dict.setdefault(key, ...)["items"].append(item)` builds it:
 one group a key, keys in order of first appearance, items in their original order.
 */
module Grouping {
  import opened Sums

  datatype Group<T> = Group(key: nat, items: seq<T>)

  /** Position of the group for `key`, or the number of groups when there is none. */
  function IndexOf<T>(groups: seq<Group<T>>, key: nat): (i: nat)
    ensures i <= |groups| && (i < |groups| ==> groups[i].key == key)
    ensures forall j :: 0 <= j < i ==> groups[j].key != key
  {
    if groups == [] || groups[0].key == key then 0 else 1 + IndexOf(groups[1..], key)
  }

  function Append<T>(groups: seq<Group<T>>, key: nat, item: T): seq<Group<T>> {
    var i := IndexOf(groups, key);
    if i < |groups| then groups[i := Group(key, groups[i].items + [item])]
    else groups + [Group(key, [item])]
  }

  function GroupBy<T>(lines: seq<T>, key: T -> nat): seq<Group<T>> {
    if lines == [] then []
    else
      var last := lines[|lines| - 1];
      Append(GroupBy(lines[..|lines| - 1], key), key(last), last)
  }

  function Keys<T>(groups: seq<Group<T>>): (keys: seq<nat>)
    ensures |keys| == |groups|
    ensures forall j :: 0 <= j < |groups| ==> keys[j] == groups[j].key
  {
    seq(|groups|, j requires 0 <= j < |groups| => groups[j].key)
  }

  function HasKey<T>(key: T -> nat, k: nat): T -> bool {
    x => key(x) == k
  }

  function ItemSum<T>(f: T -> int): Group<T> -> int {
    (g: Group<T>) => SumBy(g.items, f)
  }

  lemma AppendSum<T>(groups: seq<Group<T>>, key: nat, item: T, f: T -> int)
    ensures SumBy(Append(groups, key, item), ItemSum(f)) == SumBy(groups, ItemSum(f)) + f(item)
  {
    var i := IndexOf(groups, key);
    if i < |groups| {
      SumBySnoc(groups[i].items, item, f);
      SumByUpdate(groups, i, Group(key, groups[i].items + [item]), ItemSum(f));
    } else {
      SumBySnoc(groups, Group(key, [item]), ItemSum(f));
      assert SumBy([item], f) == f(item);
    }
  }

  /** Grouping neither loses nor invents a row: any total over the groups is the total over the rows. */
  lemma {:induction false} GroupingKeepsSums<T>(lines: seq<T>, key: T -> nat, f: T -> int)
    ensures SumBy(GroupBy(lines, key), ItemSum(f)) == SumBy(lines, f)
  {
    if lines != [] {
      var n := |lines| - 1;
      GroupingKeepsSums(lines[..n], key, f);
      AppendSum(GroupBy(lines[..n], key), key(lines[n]), lines[n], f);
      assert lines == lines[..n] + [lines[n]];
      SumBySnoc(lines[..n], lines[n], f);
    }
  }

  /** Keys stand in the order they first appear in: before any row of a later key there is one of each earlier key. */
  ghost predicate ByFirstRow<T>(keys: seq<nat>, lines: seq<T>, key: T -> nat) {
    forall i, j, n :: 0 <= i < j < |keys| && 0 <= n < |lines| && key(lines[n]) == keys[j] ==>
      HasRow(lines[..n], key, keys[i])
  }

  ghost predicate HasRow<T>(lines: seq<T>, key: T -> nat, k: nat) {
    exists m :: 0 <= m < |lines| && key(lines[m]) == k
  }

  /** Every group holds exactly the rows of its key, and no key has two groups. */
  ghost predicate Partitions<T(!new)>(groups: seq<Group<T>>, lines: seq<T>, key: T -> nat) {
    && Distinct(Keys(groups))
    && (forall j :: 0 <= j < |groups| ==>
          groups[j].items != [] && groups[j].items == Filter(lines, HasKey(key, groups[j].key)))
    && (forall x :: x in lines ==> key(x) in Keys(groups))
  }

  lemma {:induction false} GroupByPartitions<T(!new)>(lines: seq<T>, key: T -> nat)
    ensures Partitions(GroupBy(lines, key), lines, key)
    ensures ByFirstRow(Keys(GroupBy(lines, key)), lines, key)
  {
    if lines != [] {
      var n := |lines| - 1;
      GroupByPartitions(lines[..n], key);
      assert lines == lines[..n] + [lines[n]];
      AppendPartitions(GroupBy(lines[..n], key), lines[..n], key, lines[n]);
      AppendKeepsOrder(GroupBy(lines[..n], key), lines[..n], key, lines[n]);
    }
  }

  lemma AppendPartitions<T(!new)>(groups: seq<Group<T>>, lines: seq<T>, key: T -> nat, last: T)
    requires Partitions(groups, lines, key)
    ensures Partitions(Append(groups, key(last), last), lines + [last], key)
  {
    var i := IndexOf(groups, key(last));
    var r := Append(groups, key(last), last);
    forall j | 0 <= j < |r|
      ensures r[j].items != [] && r[j].items == Filter(lines + [last], HasKey(key, r[j].key))
    {
      FilterConcat(lines, [last], HasKey(key, r[j].key));
      if j == |groups| {
        forall x | x in lines ensures key(x) != key(last) {
          var k :| 0 <= k < |groups| && Keys(groups)[k] == key(x);
        }
        NoneOf(lines, key, key(last));
      } else if j != i && i < |groups| {
        assert Keys(groups)[j] != Keys(groups)[i];
      }
    }
    forall x | x in lines + [last] ensures key(x) in Keys(r) {
      if x in lines {
        var k :| 0 <= k < |groups| && Keys(groups)[k] == key(x);
        assert Keys(r)[k] == key(x);
      } else {
        assert Keys(r)[i] == key(last);
      }
    }
  }

  lemma AppendKeepsOrder<T(!new)>(groups: seq<Group<T>>, lines: seq<T>, key: T -> nat, last: T)
    requires Partitions(groups, lines, key) && ByFirstRow(Keys(groups), lines, key)
    ensures ByFirstRow(Keys(Append(groups, key(last), last)), lines + [last], key)
  {
    var (before, keys, rows) := (Keys(groups), Keys(Append(groups, key(last), last)), lines + [last]);
    forall i, j, n | 0 <= i < j < |keys| && 0 <= n < |rows| && key(rows[n]) == keys[j]
      ensures HasRow(rows[..n], key, keys[i])
    {
      assert keys[i] == before[i] && rows[..n] == lines[..n];
      if n < |lines| {
        assert lines[n] in lines;
        assert keys[j] == before[j];
        assert HasRow(lines[..n], key, before[i]);
      } else {
        assert lines[..n] == lines;
        var x := groups[i].items[0];
        assert x in groups[i].items;
        var m :| 0 <= m < |lines| && lines[m] == x;
        assert HasKey(key, before[i])(x);
      }
    }
  }

  lemma {:induction false} NoneOf<T(!new)>(lines: seq<T>, key: T -> nat, k: nat)
    requires forall x :: x in lines ==> key(x) != k
    ensures Filter(lines, HasKey(key, k)) == []
  {
    if lines != [] {
      NoneOf(lines[1..], key, k);
    }
  }
}
