/**
 * Inline keyboards of the selection commands. `theme_command`, `language_command` and
 * `font_command` walk the table's items two at a time and put at most two buttons in a row;
 * the enhanced bot's `background_command` puts one button in each row.
 */
module Keyboard {
  import opened Registry

  /** `InlineKeyboardButton(text, callback_data=data)` */
  datatype Button = Button(text: string, data: string)

  /** The table's items as buttons, in order: each item's display name, and its id after `prefix`. */
  function Buttons<V>(items: Table<V>, name: V -> string, prefix: string): (bs: seq<Button>)
    ensures |bs| == |items|
  {
    seq(|items|, k requires 0 <= k < |items| => Button(name(items[k].1), prefix + items[k].0))
  }

  /** The rows of a two-column layout: consecutive pairs, the last row alone when the count is odd. */
  function Pairs<T>(xs: seq<T>): seq<seq<T>>
    decreases |xs|
  {
    if |xs| == 0 then [] else
      var last := LastPairStart(|xs|);
      Pairs(xs[..last]) + [xs[last..]]
  }

  /** Where the last row starts: the largest even index below `n`. */
  function LastPairStart(n: nat): (i: nat)
    requires n > 0
    ensures i < n && i % 2 == 0 && n - i <= 2
  {
    (n - 1) / 2 * 2
  }

  function Flatten<T>(rows: seq<seq<T>>): seq<T>
    decreases |rows|
  {
    if |rows| == 0 then [] else Flatten(rows[..|rows| - 1]) + rows[|rows| - 1]
  }

  /** The two-column layout has ceil(n/2) rows, every row holds two buttons except possibly
      the last, which holds one when n is odd, and reading the rows in order gives back the items. */
  lemma {:induction false} PairsShape<T>(xs: seq<T>)
    ensures |Pairs(xs)| == (|xs| + 1) / 2
    ensures forall r :: 0 <= r < |Pairs(xs)| - 1 ==> |Pairs(xs)[r]| == 2
    ensures |xs| > 0 ==> |Pairs(xs)[|Pairs(xs)| - 1]| == 2 - |xs| % 2
    ensures Flatten(Pairs(xs)) == xs
    decreases |xs|
  {
    if |xs| > 0 {
      var last := LastPairStart(|xs|);
      PairsShape(xs[..last]);
      var rows := Pairs(xs);
      assert rows == Pairs(xs[..last]) + [xs[last..]];
      assert rows[..|rows| - 1] == Pairs(xs[..last]);
      assert xs[..last] + xs[last..] == xs;
      if last > 0 {
        assert |Pairs(xs[..last])[|Pairs(xs[..last])| - 1]| == 2 - last % 2;
      }
    }
  }

  /** Appending a pair (or a final single item) after an even-length prefix adds one row. */
  lemma PairsExtend<T>(xs: seq<T>, i: nat, m: nat)
    requires i % 2 == 0 && i < m <= |xs| && m - i <= 2
    ensures Pairs(xs[..m]) == Pairs(xs[..i]) + [xs[i..m]]
  {
    assert LastPairStart(m) == i;
    assert xs[..m][..i] == xs[..i];
    assert xs[..m][i..] == xs[i..m];
  }

  /** The nested loop of `theme_command`: rows built two items at a time. */
  method TwoColumnKeyboard<V>(items: Table<V>, name: V -> string, prefix: string)
    returns (keyboard: seq<seq<Button>>)
    ensures keyboard == Pairs(Buttons(items, name, prefix))
  {
    ghost var bs := Buttons(items, name, prefix);
    var n := |items|;
    keyboard := [];
    var i := 0;
    while i < n
      invariant 0 <= i && i % 2 == 0
      invariant i < n + 2
      invariant keyboard == Pairs(bs[..if i < n then i else n])
    {
      var row := [];
      for j := 0 to 2
        invariant row == bs[i..if i + j < n then i + j else n]
      {
        if i + j < n {
          var (key, entry) := items[i + j];
          row := row + [Button(name(entry), prefix + key)];
        }
      }
      PairsExtend(bs, i, if i + 2 < n then i + 2 else n);
      keyboard := keyboard + [row];
      i := i + 2;
    }
    assert bs[..n] == bs;
  }

  /** The one-button-per-row layout of `background_command`. */
  function Column<V>(items: Table<V>, name: V -> string, prefix: string): (rows: seq<seq<Button>>)
    ensures |rows| == |items|
    ensures forall r :: 0 <= r < |rows| ==> |rows[r]| == 1
    ensures Flatten(rows) == Buttons(items, name, prefix)
  {
    var bs := Buttons(items, name, prefix);
    var rows := seq(|bs|, k requires 0 <= k < |bs| => [bs[k]]);
    FlattenSingletons(bs, rows);
    rows
  }

  lemma {:induction false} FlattenSingletons<T>(xs: seq<T>, rows: seq<seq<T>>)
    requires |rows| == |xs| && forall k :: 0 <= k < |xs| ==> rows[k] == [xs[k]]
    ensures Flatten(rows) == xs
    decreases |xs|
  {
    if |xs| > 0 {
      FlattenSingletons(xs[..|xs| - 1], rows[..|rows| - 1]);
    }
  }
}
