/**
 * The text helper `indentText`: two spaces per indentation level, then the
 * items joined with single spaces. `Split` is the inverse of the join and is
 * used to state what the join keeps.
 */
module Text {

  /** `n` space characters. */
  function Spaces(n: nat): (r: string)
    ensures |r| == n
    ensures forall i :: 0 <= i < n ==> r[i] == ' '
  {
    if n == 0 then "" else Spaces(n - 1) + " "
  }

  /** The items separated by single spaces, as Python's `' '.join(...)`. */
  function Join(items: seq<string>): string
  {
    if |items| == 0 then ""
    else if |items| == 1 then items[0]
    else items[0] + " " + Join(items[1..])
  }

  /** Cuts a string at every space, as Python's `s.split(' ')`. */
  function Split(s: string): (r: seq<string>)
    ensures |r| >= 1
  {
    if |s| == 0 then [""]
    else
      var rest := Split(s[1..]);
      if s[0] == ' ' then [""] + rest else [[s[0]] + rest[0]] + rest[1..]
  }

  /** `indentText(count, *text)`: the indentation, then the joined items. */
  function IndentText(count: nat, items: seq<string>): (r: string)
    ensures |r| == 2 * count + |Join(items)|
    ensures forall i :: 0 <= i < 2 * count ==> r[i] == ' '
    ensures r[2 * count..] == Join(items)
  {
    Spaces(2 * count) + Join(items)
  }

  /** Splitting and re-joining gives back any string. */
  lemma {:induction false} JoinSplit(s: string)
    ensures Join(Split(s)) == s
    decreases |s|
  {
    if |s| > 0 {
      var rest := Split(s[1..]);
      JoinSplit(s[1..]);
      if s[0] == ' ' {
        assert Split(s) == [""] + rest;
        assert ([""] + rest)[1..] == rest;
        assert s == [' '] + s[1..];
      } else {
        var parts := [[s[0]] + rest[0]] + rest[1..];
        assert Split(s) == parts;
        if |rest| == 1 {
          assert Join(parts) == [s[0]] + rest[0];
          assert s == [s[0]] + s[1..];
        } else {
          assert parts[1..] == rest[1..];
          assert Join(parts) == [s[0]] + rest[0] + " " + Join(rest[1..]);
          assert s == [s[0]] + s[1..];
        }
      }
    }
  }

  /** A space-free prefix stays glued to the first piece of what follows it. */
  lemma {:induction false} SplitSpaceFreePrefix(a: string, r: string)
    requires ' ' !in a
    ensures Split(a + r) == [a + Split(r)[0]] + Split(r)[1..]
    decreases |a|
  {
    if |a| > 0 {
      assert (a + r)[0] == a[0];
      assert (a + r)[1..] == a[1..] + r;
      SplitSpaceFreePrefix(a[1..], r);
      assert [a[0]] + (a[1..] + Split(r)[0]) == a + Split(r)[0];
    } else {
      assert a + r == r && a + Split(r)[0] == Split(r)[0];
      assert Split(r) == [Split(r)[0]] + Split(r)[1..];
    }
  }

  /** Joining space-free items and splitting again gives back the items. */
  lemma {:induction false} SplitJoin(items: seq<string>)
    requires |items| >= 1
    requires forall i :: 0 <= i < |items| ==> ' ' !in items[i]
    ensures Split(Join(items)) == items
    decreases |items|
  {
    if |items| == 1 {
      SplitSpaceFreePrefix(items[0], "");
      assert items[0] + "" == items[0];
    } else {
      var tail := " " + Join(items[1..]);
      assert Join(items) == items[0] + tail;
      SplitSpaceFreePrefix(items[0], tail);
      SplitJoin(items[1..]);
      assert tail[0] == ' ' && tail[1..] == Join(items[1..]);
      assert Split(tail) == [""] + items[1..];
      assert Split(tail)[0] == "" && Split(tail)[1..] == items[1..];
      assert items[0] + "" == items[0];
      assert items == [items[0]] + items[1..];
    }
  }

  /** What follows the indentation of an `indentText` line splits back into its items. */
  lemma IndentTextItems(count: nat, items: seq<string>)
    requires |items| >= 1
    requires forall i :: 0 <= i < |items| ==> ' ' !in items[i]
    ensures Split(IndentText(count, items)[2 * count..]) == items
  {
    SplitJoin(items);
  }
}
