/** The `optionsEditor`: an ordered list of option rows with append, remove and
    in-place edits of each row's underlying value, plus the row helper
    `newOptionRow` that titles and stripes each `<li>`. */
module OptionsEditor {
  import opened Values
  import opened Properties

  /** The character of the decimal digit `d`. */
  function Digit(d: nat): (c: char)
    requires d < 10
    ensures '0' <= c <= '9' && DigitValue(c) == d
  {
    ('0' as int + d) as char
  }

  /** The digit a character `'0'`..`'9'` stands for. */
  function DigitValue(c: char): nat
    requires '0' <= c <= '9'
  {
    c as int - '0' as int
  }

  /** Reference reading of a numeral: the number its digits denote. */
  function NumeralValue(s: string): nat
    requires forall k :: 0 <= k < |s| ==> '0' <= s[k] <= '9'
  {
    if s == [] then 0 else NumeralValue(s[..|s| - 1]) * 10 + DigitValue(s[|s| - 1])
  }

  /** The decimal numeral JavaScript prints for `n`: its digits denote `n`. */
  function Decimal(n: nat): (s: string)
    ensures |s| > 0 && (n > 0 ==> s[0] != '0')
    ensures forall k :: 0 <= k < |s| ==> '0' <= s[k] <= '9'
    ensures NumeralValue(s) == n
  {
    if n < 10 then [Digit(n)]
    else
      var s := Decimal(n / 10) + [Digit(n % 10)];
      assert s[..|s| - 1] == Decimal(n / 10);
      s
  }

  /** The title of the row at zero-based position `i`: `'Option ' + (i + 1)`. */
  function Title(i: nat): string {
    "Option " + Decimal(i + 1)
  }

  /** A title reads back as `Option ` followed by the numeral of `i + 1`. */
  lemma TitleReadBack(i: nat)
    ensures |Title(i)| > 7 && Title(i)[..7] == "Option "
    ensures forall k :: 7 <= k < |Title(i)| ==> '0' <= Title(i)[k] <= '9'
    ensures NumeralValue(Title(i)[7..]) == i + 1
  {
    assert Title(i)[7..] == Decimal(i + 1);
  }

  /** Rows at different positions get different titles. */
  lemma TitlesDistinct(i: nat, j: nat)
    requires i != j
    ensures Title(i) != Title(j)
  {
    TitleReadBack(i);
    TitleReadBack(j);
  }

  /** One `<li>` of `.optionsList`: the row it edits, its heading and whether it
      carries the `even` class. */
  datatype RowView = RowView(data: OptionRow, title: string, even: bool)

  /** Every row is titled by its position and striped from the first row on. */
  predicate Numbered(vs: seq<RowView>) {
    forall i :: 0 <= i < |vs| ==> vs[i].title == Title(i) && vs[i].even == (i % 2 == 0)
  }

  /** The rows the list items stand for, in order. */
  function DataOf(vs: seq<RowView>): (rows: seq<OptionRow>)
    ensures |rows| == |vs|
    ensures forall i :: 0 <= i < |vs| ==> rows[i] == vs[i].data
  {
    seq(|vs|, i requires 0 <= i < |vs| => vs[i].data)
  }

  /** No row appears twice. */
  predicate Distinct(rows: seq<OptionRow>) {
    forall i, j :: 0 <= i < j < |rows| ==> rows[i] != rows[j]
  }

  /** The list items retitled and restriped by their current positions. */
  function Renumbered(vs: seq<RowView>): (r: seq<RowView>)
    ensures Numbered(r)
    ensures DataOf(r) == DataOf(vs)
  {
    seq(|vs|, i requires 0 <= i < |vs| => vs[i].(title := Title(i), even := i % 2 == 0))
  }

  /** The loop over `$optionsList.children()` after a removal. */
  method Renumber(vs: seq<RowView>) returns (r: seq<RowView>)
    ensures r == Renumbered(vs)
  {
    r := vs;
    var i := 0;
    while i < |r|
      invariant 0 <= i <= |r| == |vs|
      invariant forall k :: 0 <= k < i ==> r[k] == vs[k].(title := Title(k), even := k % 2 == 0)
      invariant forall k :: i <= k < |r| ==> r[k] == vs[k]
    {
      r := r[i := r[i].(even := i % 2 == 0)];
      r := r[i := r[i].(title := Title(i))];
      i := i + 1;
    }
  }

  /** The list after `addOption` appends the item for `row` at index `|vs|`. */
  function Added(vs: seq<RowView>, row: OptionRow): (r: seq<RowView>)
    requires Numbered(vs)
    ensures Numbered(r)
    ensures DataOf(r) == DataOf(vs) + [row]
    ensures |r| == |vs| + 1 && r[..|vs|] == vs
    ensures r[|vs|].title == Title(|vs|) && (r[|vs|].even <==> |vs| % 2 == 0)
  {
    var r := vs + [RowView(row, Title(|vs|), |vs| % 2 == 0)];
    assert DataOf(r) == DataOf(vs) + [row];
    r
  }

  /** The list after the item at `k` is removed and the rest renumbered. */
  function Dropped(vs: seq<RowView>, k: nat): (r: seq<RowView>)
    requires k < |vs|
    ensures Numbered(r)
    ensures DataOf(r) == DataOf(vs)[..k] + DataOf(vs)[k + 1..]
  {
    var rest := vs[..k] + vs[k + 1..];
    assert DataOf(rest) == DataOf(vs)[..k] + DataOf(vs)[k + 1..];
    Renumbered(rest)
  }

  /** The position of the first occurrence of `r`, or -1. */
  function IndexOf(rows: seq<OptionRow>, r: OptionRow): (k: int)
    ensures -1 <= k < |rows|
    ensures k >= 0 ==> rows[k] == r && forall j :: 0 <= j < k ==> rows[j] != r
    ensures k < 0 <==> r !in rows
  {
    if rows == [] then -1
    else if rows[0] == r then 0
    else
      var k := IndexOf(rows[1..], r);
      assert forall j :: 1 <= j < |rows| ==> rows[j] == rows[1..][j - 1];
      if k < 0 then -1 else k + 1
  }

  /** `$.removeFromArray(data, array)`: the array without `data`, compared by
      identity. The helper is not part of this model; it is taken to remove the
      first occurrence. */
  function RemoveFromArray(r: OptionRow, rows: seq<OptionRow>): (out: seq<OptionRow>)
    ensures r !in rows ==> out == rows
    ensures r in rows ==> |out| == |rows| - 1
    ensures multiset(out) == multiset(rows) - multiset{r}
    ensures Distinct(rows) ==> Distinct(out) && r !in out
    ensures forall x :: x in out ==> x in rows
  {
    var k := IndexOf(rows, r);
    if k < 0 then
      assert multiset(rows)[r] == 0;
      rows
    else
      CutFacts(rows, k);
      rows[..k] + rows[k + 1..]
  }

  lemma CutFacts(rows: seq<OptionRow>, k: nat)
    requires k < |rows|
    ensures multiset(rows[..k] + rows[k + 1..]) == multiset(rows) - multiset{rows[k]}
    ensures Distinct(rows) ==> Distinct(rows[..k] + rows[k + 1..]) && rows[k] !in rows[..k] + rows[k + 1..]
    ensures forall x :: x in rows[..k] + rows[k + 1..] ==> x in rows
  {
    var out := rows[..k] + rows[k + 1..];
    assert rows == rows[..k] + [rows[k]] + rows[k + 1..];
    assert multiset(rows) == multiset(rows[..k]) + multiset{rows[k]} + multiset(rows[k + 1..]);
    CutAt(rows, k);
    if Distinct(rows) {
      forall i, j | 0 <= i < j < |out| ensures out[i] != out[j] {
        assert out[i] == rows[if i < k then i else i + 1];
        assert out[j] == rows[if j < k then j else j + 1];
      }
      forall i | 0 <= i < |out| ensures out[i] != rows[k] {
        assert out[i] == rows[if i < k then i else i + 1];
      }
    }
  }

  lemma CutAt(rows: seq<OptionRow>, k: nat)
    requires k < |rows|
    ensures |rows[..k] + rows[k + 1..]| == |rows| - 1
    ensures var out := rows[..k] + rows[k + 1..]; forall i :: 0 <= i < k ==> out[i] == rows[i]
    ensures var out := rows[..k] + rows[k + 1..]; forall i :: k <= i < |rows| - 1 ==> out[i] == rows[i + 1]
  {
  }

  /** Removing the `k`-th list item and removing its row from the value by
      identity leave the list and the value in step. */
  lemma DroppedMatchesRemoval(items: seq<RowView>, rows: seq<OptionRow>, k: nat)
    requires DataOf(items) == rows && Distinct(rows) && k < |items|
    ensures RemoveFromArray(items[k].data, rows) == rows[..k] + rows[k + 1..]
    ensures Dropped(items, k) == Renumbered(items[..k] + items[k + 1..])
    ensures DataOf(Dropped(items, k)) == RemoveFromArray(items[k].data, rows)
    ensures Distinct(RemoveFromArray(items[k].data, rows))
  {
    assert rows[k] == items[k].data;
    assert IndexOf(rows, items[k].data) == k;
  }

  /** The list items `newOptionRow` creates for `rows` at first render. */
  function Rendered(rows: seq<OptionRow>): (vs: seq<RowView>)
    ensures Numbered(vs) && DataOf(vs) == rows
  {
    var vs := seq(|rows|, i requires 0 <= i < |rows| => RowView(rows[i], Title(i), i % 2 == 0));
    assert DataOf(vs) == rows;
    vs
  }

  /** `option.text == null ? {} : option.text`. */
  function WithText(t: Option<map<string, string>>): (r: Option<map<string, string>>)
    ensures r.Some? && (t.Some? ==> r == t)
  {
    if t.None? then Some(map[]) else t
  }

  /** The rendering loop: give each row a text and write its list item. */
  method Render(rows: seq<OptionRow>) returns (items: seq<RowView>)
    requires Distinct(rows)
    modifies rows`text
    ensures items == Rendered(rows)
    ensures forall j :: 0 <= j < |rows| ==> rows[j].val == old(rows[j].val) && rows[j].text == WithText(old(rows[j].text))
  {
    items := [];
    var i := 0;
    while i < |rows|
      invariant 0 <= i <= |rows|
      invariant |items| == i
      invariant forall j :: 0 <= j < i ==> items[j] == RowView(rows[j], Title(j), j % 2 == 0)
      invariant forall j :: 0 <= j < i ==> rows[j].text == WithText(old(rows[j].text))
      invariant forall j :: i <= j < |rows| ==> rows[j].text == old(rows[j].text)
    {
      var row := rows[i];
      if row.text.None? {
        row.text := Some(map[]);
      }
      items := items + [RowView(row, Title(i), i % 2 == 0)];
      i := i + 1;
    }
    assert items == Rendered(rows);
  }

  class OptionsEditor {
    const property: Property
    const parent: Parent
    /** The `<li>` children of `.optionsList`, in order. */
    var items: seq<RowView>

    /** The list items stand for the rows of the value, in order, titled and
        striped by position. */
    ghost predicate Valid()
      reads this, property
    {
      && Numbered(items)
      && (property.value.RowList? ==> DataOf(items) == property.value.rows && Distinct(property.value.rows))
      && (!property.value.RowList? ==> items == [])
    }

    /** The row values, in list order. */
    function Vals(): seq<string>
      reads this, set v | v in items :: v.data
    {
      seq(|items|, i reads this, set v | v in items :: v.data requires 0 <= i < |items| => items[i].data.val)
    }

    /** Renders the list; rows whose `text` is `null` or `undefined` get `{}`.
        A `null` or `undefined` value renders no rows. */
    constructor (property: Property, parent: Parent)
      requires IsNullish(property.value) || (property.value.RowList? && Distinct(property.value.rows))
      modifies RowsOf(property.value)
      ensures this.property == property && this.parent == parent
      ensures Valid()
      ensures property.value.RowList? ==> forall j :: 0 <= j < |property.value.rows| ==>
        property.value.rows[j].val == old(property.value.rows[j].val) &&
        property.value.rows[j].text == WithText(old(property.value.rows[j].text))
    {
      var rendered: seq<RowView> := [];
      if property.value.RowList? {
        rendered := Render(property.value.rows);
      }
      this.property := property;
      this.parent := parent;
      items := rendered;
    }

    /** The `.addOption` handler: pushes `{text: {}, val: 'untitled'}` and
        appends its list item. If the value is not a row array the push throws
        and nothing changes; `ok` reports which happened. */
    method Add() returns (ok: bool, row: OptionRow?)
      requires Valid()
      modifies this, property, parent
      ensures Valid()
      ensures ok <==> old(property.value).RowList?
      ensures ok ==> row != null && fresh(row) && row.text == Some(map[]) && row.val == "untitled"
      ensures ok ==> property.value == RowList(old(property.value).rows + [row])
      ensures ok ==> items == Added(old(items), row)
      ensures ok ==> parent.published == old(parent.published) + [property.id]
      ensures !ok ==> property.value == old(property.value) && items == old(items)
      ensures !ok ==> parent.published == old(parent.published)
      ensures parent.properties == old(parent.properties)
      ensures property.validations == old(property.validations)
    {
      if !property.value.RowList? {
        return false, null;
      }
      var newOption := new OptionRow(Some(map[]), "untitled");
      property.value := RowList(property.value.rows + [newOption]);
      items := Added(items, newOption);
      parent.published := parent.published + [property.id];
      return true, newOption;
    }

    /** The remove link of the list item at `k`. */
    method Remove(k: nat)
      requires Valid() && k < |items|
      modifies this, property, parent
      ensures Valid()
      ensures property.value.RowList?
      ensures property.value.rows == RemoveFromArray(old(items[k].data), old(property.value.rows))
      ensures property.value.rows == old(property.value.rows[..k] + property.value.rows[k + 1..])
      ensures items == Dropped(old(items), k)
      ensures parent.published == old(parent.published) + [property.id]
      ensures parent.properties == old(parent.properties)
      ensures property.validations == old(property.validations)
    {
      var rows := property.value.rows;
      var newRows := RemoveFromArray(items[k].data, rows);
      var newItems := Renumber(items[..k] + items[k + 1..]);
      DroppedMatchesRemoval(items, rows, k);
      property.value := RowList(newRows);
      items := newItems;
      parent.published := parent.published + [property.id];
    }

    /** A `keyup` in the value field of the list item at `k` holding `text`. */
    method EditValue(k: nat, text: string)
      requires Valid() && k < |items|
      modifies items[k].data, parent
      ensures Valid()
      ensures Vals() == old(Vals())[k := text]
      ensures items[k].data.text == old(items[k].data.text)
      ensures parent.published == old(parent.published) + [property.id]
      ensures parent.properties == old(parent.properties)
    {
      items[k].data.val := text;
      parent.published := parent.published + [property.id];
    }
  }
}
