/** The `otherEditor`: a dependent choice drawn from the rows of another
    property's option list (`bindTo`). The editor remembers the chosen row by
    reference, so the choice follows the row when its value is renamed. */
module OtherEditor {
  import opened Values
  import opened Properties

  /** One `<option>` of the select: the row it stands for and the row's value
      at the time it was written (its text and its `value` attribute). */
  datatype Entry = Entry(row: OptionRow, val: string)

  /** The `<option>` list `updateOptions` builds from the bound rows. */
  function Snapshot(rows: seq<OptionRow>): (es: seq<Entry>)
    reads rows
    ensures |es| == |rows|
    ensures forall i :: 0 <= i < |rows| ==> es[i] == Entry(rows[i], rows[i].val)
  {
    if rows == [] then [] else [Entry(rows[0], rows[0].val)] + Snapshot(rows[1..])
  }

  /** Two options for the same row show the same value. */
  predicate Coherent(es: seq<Entry>) {
    forall i, j :: 0 <= i < |es| && 0 <= j < |es| && es[i].row == es[j].row ==> es[i].val == es[j].val
  }

  /** The options of a snapshot are coherent: this is what lets the lemmas
      about `Resolve` speak about an editor's `Bound()` options. */
  lemma SnapshotCoherent(rows: seq<OptionRow>)
    ensures Coherent(Snapshot(rows))
  {
  }

  /** The values this editor is written for: `false`, or an array. */
  predicate DepShaped(v: Value) {
    v == Bool(false) || v.List?
  }

  /** `property.value[0]`: `undefined` for `false` and for an empty array. */
  function Saved(v: Value): (s: Value)
    requires DepShaped(v)
    ensures v == Bool(false) ==> s == Undefined
  {
    if v.List? && |v.items| > 0 then v.items[0] else Undefined
  }

  /** Some option shows the row `row`. */
  predicate Lists(es: seq<Entry>, row: OptionRow?) {
    exists i :: 0 <= i < |es| && es[i].row == row
  }

  /** Some option carries the string value `v`. */
  predicate Offers(es: seq<Entry>, v: Value) {
    exists i :: 0 <= i < |es| && v == Str(es[i].val)
  }

  /** The first option whose value is `saved`, or -1. */
  function MatchIndex(es: seq<Entry>, saved: Value): (k: int)
    ensures -1 <= k < |es|
    ensures k >= 0 ==> saved == Str(es[k].val) && forall j :: 0 <= j < k ==> saved != Str(es[j].val)
    ensures k < 0 <==> !Offers(es, saved)
  {
    if es == [] then -1
    else if saved == Str(es[0].val) then 0
    else
      var k := MatchIndex(es[1..], saved);
      assert forall j :: 1 <= j < |es| ==> es[j] == es[1..][j - 1];
      if k < 0 then -1 else k + 1
  }

  /** The two closure variables the `_.each` loop updates. */
  datatype Scan = Scan(selectedValue: Value, selectedOption: OptionRow?)

  /** One iteration of the loop: a reference match takes the row's value; with
      no remembered row, the first row whose value is the saved one is adopted. */
  function Step(e: Entry, saved: Value, acc: Scan): (s: Scan)
    ensures acc.selectedOption != null ==> s.selectedOption == acc.selectedOption
    ensures s.selectedOption != acc.selectedOption ==> s.selectedOption == e.row && saved == Str(e.val)
    ensures s.selectedValue != acc.selectedValue ==> acc.selectedOption == e.row && s.selectedValue == Str(e.val)
  {
    Scan(
      if acc.selectedOption == e.row then Str(e.val) else acc.selectedValue,
      if acc.selectedOption == null && saved == Str(e.val) then e.row else acc.selectedOption)
  }

  /** The whole loop, from the state `acc` over the options `es`. */
  function Walk(es: seq<Entry>, saved: Value, acc: Scan): (s: Scan)
    ensures acc.selectedOption != null ==> s.selectedOption == acc.selectedOption
    ensures s.selectedOption != acc.selectedOption ==>
      exists i :: 0 <= i < |es| && es[i].row == s.selectedOption && saved == Str(es[i].val)
    decreases |es|
  {
    if es == [] then acc
    else
      var s := Walk(es[1..], saved, Step(es[0], saved, acc));
      assert forall j :: 1 <= j < |es| ==> es[j] == es[1..][j - 1];
      s
  }

  /** With a row remembered, the loop keeps it, and takes its value if it is
      still listed. */
  lemma {:induction false} WalkRemembered(es: seq<Entry>, saved: Value, acc: Scan)
    requires acc.selectedOption != null && Coherent(es)
    ensures Walk(es, saved, acc).selectedOption == acc.selectedOption
    ensures Walk(es, saved, acc).selectedValue ==
      if Lists(es, acc.selectedOption) then Str(es[LastRow(es, acc.selectedOption)].val)
      else acc.selectedValue
    decreases |es|
  {
    if es != [] {
      var next := Step(es[0], saved, acc);
      WalkRemembered(es[1..], saved, next);
      assert forall j :: 1 <= j < |es| ==> es[j] == es[1..][j - 1];
      if Lists(es[1..], acc.selectedOption) {
        assert es[1..][LastRow(es[1..], acc.selectedOption)] == es[LastRow(es, acc.selectedOption)];
      } else if es[0].row == acc.selectedOption {
        assert LastRow(es, acc.selectedOption) == 0;
      }
    }
  }

  /** Helper for WalkRemembered: the position of the last option showing `row`. */
  function LastRow(es: seq<Entry>, row: OptionRow?): (k: nat)
    requires Lists(es, row)
    ensures k < |es| && es[k].row == row
    ensures forall j :: k < j < |es| ==> es[j].row != row
    ensures Lists(es[1..], row) ==> k > 0 && k - 1 == LastRow(es[1..], row)
  {
    assert forall j :: 1 <= j < |es| ==> es[j] == es[1..][j - 1];
    if Lists(es[1..], row) then 1 + LastRow(es[1..], row) else 0
  }

  /** With no row remembered, the loop adopts the first row whose value is the
      saved one, and its value stays the saved one. */
  lemma {:induction false} WalkAdopts(es: seq<Entry>, saved: Value, acc: Scan)
    requires acc.selectedOption == null && acc.selectedValue == saved && Coherent(es)
    ensures Walk(es, saved, acc).selectedValue == saved
    ensures Walk(es, saved, acc).selectedOption ==
      if MatchIndex(es, saved) >= 0 then es[MatchIndex(es, saved)].row else null
    decreases |es|
  {
    if es != [] {
      assert forall j :: 1 <= j < |es| ==> es[j] == es[1..][j - 1];
      var next := Step(es[0], saved, acc);
      if saved == Str(es[0].val) {
        WalkRemembered(es[1..], saved, next);
        if Lists(es[1..], es[0].row) {
          var k := LastRow(es[1..], es[0].row);
          assert es[k + 1].row == es[0].row;
        }
      } else {
        WalkAdopts(es[1..], saved, next);
      }
    }
  }

  /** What one run of `updateOptions` leaves behind: the value, the remembered
      row, the value handed to `$select.val` (if any), and whether it published. */
  datatype Outcome = Outcome(value: Value, selected: OptionRow?, shown: Option<Value>, fired: bool)

  /** `updateOptions`, from the value, the remembered row and the bound options. */
  function Resolve(value: Value, remembered: OptionRow?, es: seq<Entry>): (o: Outcome)
    requires DepShaped(value)
    ensures DepShaped(o.value)
    ensures o.fired ==> o.value.List? && |o.value.items| == 1 && !IsNullish(o.value.items[0])
    ensures o.fired <==> o.shown.Some?
    ensures o.fired ==> o.shown == Some(o.value.items[0])
    ensures !o.fired ==> o.value == value
  {
    var saved := Saved(value);
    Settle(value, Walk(es, saved, Scan(saved, remembered)), es)
  }

  /** What `updateOptions` does after its loop, given the loop's final state `p`:
      nothing while disabled, else it publishes the tracked value or, failing
      that, the first option's value. */
  function Settle(value: Value, p: Scan, es: seq<Entry>): (o: Outcome)
    requires DepShaped(value)
    ensures DepShaped(o.value)
    ensures o.fired <==> value != Bool(false) && (!IsNullish(p.selectedValue) || |es| > 0)
    ensures o.fired ==> o.value.List? && |o.value.items| == 1 && !IsNullish(o.value.items[0])
    ensures o.fired <==> o.shown.Some?
    ensures o.fired ==> o.shown == Some(o.value.items[0])
    ensures !o.fired ==> o.value == value && o.selected == p.selectedOption
  {
    if value == Bool(false) then Outcome(value, p.selectedOption, None, false)
    else if !IsNullish(p.selectedValue) then
      Outcome(List([p.selectedValue]), p.selectedOption, Some(p.selectedValue), true)
    else if |es| > 0 then
      Outcome(List([Str(es[0].val)]), es[0].row, Some(Str(es[0].val)), true)
    else Outcome(value, p.selectedOption, None, false)
  }

  /** A disabled editor (`value === false`) keeps its value and its remembered
      row and publishes nothing. */
  lemma ResolveDisabled(remembered: OptionRow?, es: seq<Entry>)
    requires Coherent(es)
    ensures Resolve(Bool(false), remembered, es) == Outcome(Bool(false), remembered, None, false)
  {
    if remembered == null {
      WalkAdopts(es, Undefined, Scan(Undefined, remembered));
    } else {
      WalkRemembered(es, Undefined, Scan(Undefined, remembered));
    }
  }

  /** A remembered row that is still listed is selected, under its current
      value: the choice follows renames. */
  lemma ResolveFollowsRow(value: Value, remembered: OptionRow, es: seq<Entry>, i: nat)
    requires value.List? && Coherent(es)
    requires i < |es| && es[i].row == remembered
    ensures Resolve(value, remembered, es) == Outcome(List([Str(es[i].val)]), remembered, Some(Str(es[i].val)), true)
  {
    WalkRemembered(es, Saved(value), Scan(Saved(value), remembered));
  }

  /** With no remembered row, the first row carrying the saved value is adopted
      and the value stays the saved one. */
  lemma ResolveAdoptsMatch(value: Value, es: seq<Entry>)
    requires value.List? && Coherent(es)
    requires MatchIndex(es, Saved(value)) >= 0
    ensures Resolve(value, null, es) ==
      Outcome(List([Saved(value)]), es[MatchIndex(es, Saved(value))].row, Some(Saved(value)), true)
  {
    WalkAdopts(es, Saved(value), Scan(Saved(value), null));
  }

  /** With no saved value and no listed remembered row, the first row is taken. */
  lemma ResolveFallsBack(value: Value, remembered: OptionRow?, es: seq<Entry>)
    requires value.List? && Coherent(es)
    requires IsNullish(Saved(value)) && !Lists(es, remembered) && |es| > 0
    ensures Resolve(value, remembered, es) == Outcome(List([Str(es[0].val)]), es[0].row, Some(Str(es[0].val)), true)
  {
    if remembered == null {
      WalkAdopts(es, Saved(value), Scan(Saved(value), remembered));
    } else {
      WalkRemembered(es, Saved(value), Scan(Saved(value), remembered));
    }
  }

  /** A saved value that is set is kept when the remembered row is gone (or,
      with none remembered, when no row carries it), even if no option offers
      it any more. */
  lemma ResolveKeepsSaved(value: Value, remembered: OptionRow?, es: seq<Entry>)
    requires value.List? && Coherent(es)
    requires !IsNullish(Saved(value)) && !Lists(es, remembered)
    requires remembered == null ==> MatchIndex(es, Saved(value)) < 0
    ensures Resolve(value, remembered, es) == Outcome(List([Saved(value)]), remembered, Some(Saved(value)), true)
  {
    if remembered == null {
      WalkAdopts(es, Saved(value), Scan(Saved(value), remembered));
    } else {
      WalkRemembered(es, Saved(value), Scan(Saved(value), remembered));
    }
  }

  /** An enabled editor ends up on a value some option offers exactly when the
      remembered row is still listed, or the saved value is offered, or there is
      no saved value and the list is not empty. */
  lemma ResolveLands(value: Value, remembered: OptionRow?, es: seq<Entry>)
    requires value.List? && Coherent(es)
    ensures var o := Resolve(value, remembered, es);
      (o.value.List? && |o.value.items| == 1 && Offers(es, o.value.items[0])) <==>
      (Lists(es, remembered) || Offers(es, Saved(value)) || (IsNullish(Saved(value)) && |es| > 0))
  {
    var saved := Saved(value);
    if Lists(es, remembered) {
      var i :| 0 <= i < |es| && es[i].row == remembered;
      ResolveFollowsRow(value, remembered, es, i);
    } else if remembered == null && MatchIndex(es, saved) >= 0 {
      ResolveAdoptsMatch(value, es);
    } else if IsNullish(saved) {
      if |es| > 0 {
        ResolveFallsBack(value, remembered, es);
      } else {
        ResolveKeepsSavedEmpty(value, remembered);
      }
    } else {
      ResolveKeepsSaved(value, remembered, es);
    }
  }

  /** Helper for ResolveLands: with nothing listed, an unset value stays put. */
  lemma ResolveKeepsSavedEmpty(value: Value, remembered: OptionRow?)
    requires value.List? && IsNullish(Saved(value))
    ensures Resolve(value, remembered, []).value == value && !Resolve(value, remembered, []).fired
  {
  }

  /** Re-enabling sets the value to `[]`; the next resolution selects the
      remembered row if it is still listed, and otherwise the first row. */
  lemma ReEnable(remembered: OptionRow?, es: seq<Entry>)
    requires Coherent(es) && |es| > 0
    ensures var o := Resolve(List([]), remembered, es);
      o.fired && o.value.List? && |o.value.items| == 1 &&
      (Lists(es, remembered) ==> o.selected == remembered && Offers(es, o.value.items[0])) &&
      (!Lists(es, remembered) ==> o.selected == es[0].row && o.value == List([Str(es[0].val)]))
  {
    if Lists(es, remembered) {
      var i :| 0 <= i < |es| && es[i].row == remembered;
      ResolveFollowsRow(List([]), remembered, es, i);
    } else {
      ResolveFallsBack(List([]), remembered, es);
    }
  }

  /** A remembered row that was removed from the list leaves its stale value in
      place: here the list offers only "b", yet the value stays ["a"]. */
  lemma StaleAfterRemoval(removed: OptionRow, kept: OptionRow)
    requires removed != kept
    ensures var es := [Entry(kept, "b")];
      Resolve(List([Str("a")]), removed, es).value == List([Str("a")]) &&
      !Offers(es, Str("a"))
  {
    var es := [Entry(kept, "b")];
    ResolveKeepsSaved(List([Str("a")]), removed, es);
  }

  /** The lemmas above apply to an editor's bound rows: a remembered row that
      is still bound is selected under its current value. */
  lemma BoundFollowsRow(value: Value, remembered: OptionRow, rows: seq<OptionRow>, i: nat)
    requires value.List? && i < |rows| && rows[i] == remembered
    ensures Resolve(value, remembered, Snapshot(rows)).value == List([Str(remembered.val)])
  {
    SnapshotCoherent(rows);
    ResolveFollowsRow(value, remembered, Snapshot(rows), i);
  }

  /** The `_.each` loop of `updateOptions`: write one option per bound row and
      track the closure variables `selectedValue` and `selectedOption`. */
  method ScanRows(rows: seq<OptionRow>, saved: Value, remembered: OptionRow?)
    returns (built: seq<Entry>, selectedValue: Value, chosen: OptionRow?)
    ensures built == Snapshot(rows)
    ensures Scan(selectedValue, chosen) == Walk(Snapshot(rows), saved, Scan(saved, remembered))
  {
    ghost var es := Snapshot(rows);
    ghost var p := Walk(es, saved, Scan(saved, remembered));
    selectedValue, chosen, built := saved, remembered, [];
    var i := 0;
    while i < |rows|
      invariant 0 <= i <= |rows|
      invariant built == es[..i]
      invariant Walk(es[i..], saved, Scan(selectedValue, chosen)) == p
    {
      var option := rows[i];
      assert es[i..][1..] == es[i + 1..];
      if chosen == option {
        selectedValue := Str(option.val);
      }
      if chosen == null && saved == Str(option.val) {
        chosen := option;
      }
      built := built + [Entry(option, option.val)];
      i := i + 1;
    }
    assert built == es && es[i..] == [];
  }

  class OtherEditor {
    const property: Property
    /** `optionsProperty`: the property named by `bindTo`. */
    const options: Property
    const parent: Parent
    /** The remembered row (`selectedOption`), by reference. */
    var selectedOption: OptionRow?
    /** The enable checkbox. */
    var enableChecked: bool
    /** Whether the select carries the `disabled` attribute. */
    var selectDisabled: bool
    /** The select's `<option>` children. */
    var choices: seq<Entry>
    /** The select's value: the one last handed to `$select.val`, or, after a
        pick, the `value` attribute of the option the user picked. */
    var selection: Value

    ghost predicate Valid()
      reads this, property, options
    {
      DepShaped(property.value) && options.value.RowList? && property != options
    }

    /** The options the bound rows give right now. */
    function Bound(): seq<Entry>
      reads options, RowsOf(options.value)
      requires options.value.RowList?
    {
      Snapshot(options.value.rows)
    }

    constructor (property: Property, parent: Parent)
      requires DepShaped(property.value)
      requires property.bindTo.Some? && property.bindTo.value in parent.properties
      requires parent.properties[property.bindTo.value].value.RowList?
      modifies property, parent
      ensures this.property == property && this.parent == parent
      ensures options == old(parent.properties[property.bindTo.value])
      ensures Valid()
      ensures var o := Resolve(old(property.value), null, Bound());
        property.value == o.value && selectedOption == o.selected && choices == Bound() &&
        selection == (if o.shown.Some? then o.shown.value else Undefined) &&
        enableChecked == (old(property.value) != Bool(false)) &&
        selectDisabled == (old(property.value) == Bool(false)) &&
        parent.published == old(parent.published) + (if o.fired then [property.id] else [])
      ensures parent.properties == old(parent.properties)
      ensures property.validations == old(property.validations)
    {
      this.property := property;
      this.parent := parent;
      options := parent.properties[property.bindTo.value];
      selectedOption := null;
      enableChecked, selectDisabled := false, false;
      choices := [];
      selection := Undefined;
      new;
      Update();
    }

    /** `update`: sync the checkbox and the select's `disabled`, then resolve. */
    method Update()
      requires Valid()
      modifies this, property, parent
      ensures Valid()
      ensures var o := Resolve(old(property.value), old(selectedOption), Bound());
        property.value == o.value && selectedOption == o.selected && choices == Bound() &&
        selection == (if o.shown.Some? then o.shown.value else old(selection)) &&
        enableChecked == (old(property.value) != Bool(false)) &&
        selectDisabled == (old(property.value) == Bool(false)) &&
        parent.published == old(parent.published) + (if o.fired then [property.id] else [])
      ensures parent.properties == old(parent.properties)
      ensures property.validations == old(property.validations)
    {
      enableChecked := property.value != Bool(false);
      selectDisabled := property.value == Bool(false);
      UpdateOptions();
    }

    /** `updateOptions`: rebuild the options and resolve the choice. */
    method UpdateOptions()
      requires Valid()
      modifies this, property, parent
      ensures Valid()
      ensures var o := Resolve(old(property.value), old(selectedOption), Bound());
        property.value == o.value && selectedOption == o.selected && choices == Bound() &&
        selection == (if o.shown.Some? then o.shown.value else old(selection)) &&
        parent.published == old(parent.published) + (if o.fired then [property.id] else [])
      ensures enableChecked == old(enableChecked) && selectDisabled == old(selectDisabled)
      ensures parent.properties == old(parent.properties)
      ensures property.validations == old(property.validations)
    {
      var rows := options.value.rows;
      var saved := Saved(property.value);
      var built, selectedValue, chosen := ScanRows(rows, saved, selectedOption);
      choices := built;
      selectedOption := chosen;
      if property.value != Bool(false) {
        if !IsNullish(selectedValue) {
          selection := selectedValue;
          property.value := List([selectedValue]);
          parent.published := parent.published + [property.id];
        } else if |rows| > 0 {
          selectedOption := rows[0];
          selection := Str(choices[0].val);
          property.value := List([selection]);
          parent.published := parent.published + [property.id];
        }
      }
      assert Bound() == built;
    }

    /** The `odkControl-propertiesUpdated` listener: only the bound property's
        updates rebuild the options. */
    method OnPropertiesUpdated(propId: string)
      requires Valid()
      modifies this, property, parent
      ensures Valid()
      ensures property.bindTo != Some(propId) ==>
        property.value == old(property.value) && selectedOption == old(selectedOption) &&
        choices == old(choices) && selection == old(selection) &&
        parent.published == old(parent.published)
      ensures property.bindTo == Some(propId) ==>
        var o := Resolve(old(property.value), old(selectedOption), Bound());
        property.value == o.value && selectedOption == o.selected && choices == Bound() &&
        selection == (if o.shown.Some? then o.shown.value else old(selection)) &&
        parent.published == old(parent.published) + (if o.fired then [property.id] else [])
      ensures enableChecked == old(enableChecked) && selectDisabled == old(selectDisabled)
      ensures parent.properties == old(parent.properties)
      ensures property.validations == old(property.validations)
    {
      if property.bindTo == Some(propId) {
        UpdateOptions();
      }
    }

    /** The select's `change` handler, after the user picked option `k`; an
        index outside the options stands for "nothing selected". The value is
        read from the row itself, not from the option's text. */
    method Choose(k: int)
      requires Valid()
      modifies this, property, parent
      ensures Valid()
      ensures 0 <= k < |old(choices)| ==>
        selectedOption == old(choices[k].row) && property.value == List([Str(old(choices[k].row.val))]) &&
        selection == Str(old(choices[k].val)) &&
        parent.published == old(parent.published) + [property.id]
      ensures !(0 <= k < |old(choices)|) ==>
        selectedOption == old(selectedOption) && property.value == old(property.value) &&
        selection == old(selection) && parent.published == old(parent.published)
      ensures choices == old(choices) && enableChecked == old(enableChecked) && selectDisabled == old(selectDisabled)
      ensures parent.properties == old(parent.properties)
      ensures property.validations == old(property.validations)
    {
      if 0 <= k < |choices| {
        selectedOption := choices[k].row;
        selection := Str(choices[k].val);
        property.value := List([Str(selectedOption.val)]);
        parent.published := parent.published + [property.id];
      }
    }

    /** The enable checkbox's `change` handler: the browser flips the box; the
        value becomes `[]` or `false`, is published, and `update` runs. */
    method ToggleEnable()
      requires Valid()
      modifies this, property, parent
      ensures Valid()
      ensures var v := if old(enableChecked) then Bool(false) else List([]);
        var o := Resolve(v, old(selectedOption), Bound());
        property.value == o.value && selectedOption == o.selected && choices == Bound() &&
        selection == (if o.shown.Some? then o.shown.value else old(selection)) &&
        enableChecked == !old(enableChecked) && selectDisabled == old(enableChecked) &&
        parent.published == old(parent.published) + [property.id] + (if o.fired then [property.id] else [])
      ensures parent.properties == old(parent.properties)
      ensures property.validations == old(property.validations)
    {
      enableChecked := !enableChecked;
      property.value := if enableChecked then List([]) else Bool(false);
      parent.published := parent.published + [property.id];
      Update();
    }
  }
}
