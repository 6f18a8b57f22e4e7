/** The `numericRange` editor (also used by `dateRange`): an enable toggle in
    front of four inputs, with the value either `false` or the full record. */
module RangeEditor {
  import opened Values
  import opened Properties

  /** The four inputs: the `.min` and `.max` text fields and the
      `.minInclusive` and `.maxInclusive` checkboxes. */
  datatype Fields = Fields(min: string, max: string, minInclusive: bool, maxInclusive: bool)

  /** The inputs, whether they are disabled, and the `.editorEnabled` checkbox. */
  datatype View = View(fields: Fields, disabled: bool, enabled: bool)

  /** The editor's view together with the property's value. */
  datatype State = State(view: View, value: Value)

  /** A change the user makes to one input. */
  datatype FieldInput =
    | MinText(text: string)
    | MaxText(text: string)
    | MinInclusive(checked: bool)
    | MaxInclusive(checked: bool)

  /** `getPropertyValue`: the record the four inputs currently show. */
  function RecordOf(f: Fields): (v: Value)
    ensures v.Range? && Truthy(v) && v != Bool(false)
    ensures v.min == f.min && v.max == f.max
    ensures v.minInclusive == f.minInclusive && v.maxInclusive == f.maxInclusive
  {
    Range(f.min, f.max, f.minInclusive, f.maxInclusive)
  }

  /** The values this editor is written for. */
  predicate RangeShaped(v: Value) {
    v == Bool(false) || IsNullish(v) || v.Range?
  }

  /** The editor's invariant: an unchecked toggle means disabled inputs, enabled
      inputs mean the value is the record they show, and the value is `false`,
      unset, or exactly the record the inputs show. */
  predicate Consistent(s: State) {
    && (!s.view.enabled ==> s.view.disabled)
    && (!s.view.disabled ==> s.value == RecordOf(s.view.fields))
    && (s.value == Bool(false) || IsNullish(s.value) || s.value == RecordOf(s.view.fields))
  }

  /** The state after initialisation, from the value and the template's inputs. */
  function Init(v: Value, template: Fields): (s: State)
    requires RangeShaped(v)
    ensures Consistent(s)
    ensures s.value == v
    ensures s.view.enabled <==> v != Bool(false)
    ensures s.view.disabled <==> (v == Bool(false) || IsNullish(v))
    ensures v.Range? ==> RecordOf(s.view.fields) == v
    ensures !v.Range? ==> s.view.fields == template
  {
    var disabled := v == Bool(false) || IsNullish(v);
    var fields :=
      if disabled then template
      else Fields(v.min, v.max, v.minInclusive, v.maxInclusive);
    State(View(fields, disabled, v != Bool(false)), v)
  }

  /** The inputs after one change. */
  function Apply(f: Fields, c: FieldInput): (r: Fields)
    ensures r.min == (if c.MinText? then c.text else f.min)
    ensures r.max == (if c.MaxText? then c.text else f.max)
    ensures r.minInclusive == (if c.MinInclusive? then c.checked else f.minInclusive)
    ensures r.maxInclusive == (if c.MaxInclusive? then c.checked else f.maxInclusive)
  {
    match c
    case MinText(t) => f.(min := t)
    case MaxText(t) => f.(max := t)
    case MinInclusive(b) => f.(minInclusive := b)
    case MaxInclusive(b) => f.(maxInclusive := b)
  }

  /** An `input`, `change` or `keyup` event on one of the inputs. */
  function Edit(s: State, c: FieldInput): (t: State)
    ensures Consistent(s) ==> Consistent(t)
    ensures t.view.fields == Apply(s.view.fields, c)
    ensures t.value == RecordOf(t.view.fields)
    ensures t.view.disabled == s.view.disabled && t.view.enabled == s.view.enabled
  {
    var fields := Apply(s.view.fields, c);
    State(s.view.(fields := fields), RecordOf(fields))
  }

  /** A click on the enable toggle. */
  function Toggle(s: State): (t: State)
    ensures Consistent(t)
    ensures t.view.enabled == !s.view.enabled
    ensures t.view.fields == s.view.fields
    ensures t.view.disabled == !t.view.enabled
    ensures t.value == if t.view.enabled then RecordOf(s.view.fields) else Bool(false)
  {
    var enabled := !s.view.enabled;
    if enabled then State(View(s.view.fields, false, true), RecordOf(s.view.fields))
    else State(View(s.view.fields, true, false), Bool(false))
  }

  /** Disabling and re-enabling an enabled editor restores it exactly, and so
      does enabling and re-disabling a disabled one. */
  lemma ToggleRoundTrip(s: State)
    requires Consistent(s)
    requires s.view.enabled != s.view.disabled
    requires !s.view.enabled ==> s.value == Bool(false)
    ensures Toggle(Toggle(s)) == s
  {
  }

  /** A value that is `null` at initialisation shows a checked toggle over
      disabled inputs; the first click disables it and stores `false`. */
  lemma UnsetValueToggle(v: Value, template: Fields)
    requires IsNullish(v)
    ensures Init(v, template).view.enabled && Init(v, template).view.disabled
    ensures Toggle(Init(v, template)).value == Bool(false)
    ensures Toggle(Toggle(Init(v, template))).value == RecordOf(template)
  {
  }

  /** Reading back the record just loaded gives the value it was loaded from. */
  lemma LoadReadBack(v: Value, template: Fields)
    requires v.Range?
    ensures Init(v, template).value == RecordOf(Init(v, template).view.fields)
    ensures Toggle(Toggle(Init(v, template))) == Init(v, template)
  {
  }

  class RangeEditor {
    const property: Property
    const parent: Parent
    /** The four inputs. */
    var minText: string
    var maxText: string
    var minInclusive: bool
    var maxInclusive: bool
    /** Whether the four inputs carry the `disabled` attribute. */
    var disabled: bool
    /** The `.editorEnabled` checkbox. */
    var enabled: bool

    function Current(): State
      reads this, property
    {
      State(View(Fields(minText, maxText, minInclusive, maxInclusive), disabled, enabled), property.value)
    }

    constructor (property: Property, parent: Parent, template: Fields)
      requires RangeShaped(property.value)
      ensures this.property == property && this.parent == parent
      ensures Current() == Init(property.value, template)
    {
      this.property := property;
      this.parent := parent;
      var v := property.value;
      if v == Bool(false) || IsNullish(v) {
        minText, maxText := template.min, template.max;
        minInclusive, maxInclusive := template.minInclusive, template.maxInclusive;
        disabled := true;
      } else {
        minText, maxText := v.min, v.max;
        minInclusive, maxInclusive := v.minInclusive, v.maxInclusive;
        disabled := false;
      }
      enabled := v != Bool(false);
    }

    /** The inputs' handler: after any change the value is the whole record. */
    method Input(c: FieldInput)
      modifies this, property, parent
      ensures Current() == Edit(old(Current()), c)
      ensures parent.published == old(parent.published) + [property.id]
      ensures parent.properties == old(parent.properties)
      ensures property.validations == old(property.validations)
    {
      match c {
        case MinText(t) => minText := t;
        case MaxText(t) => maxText := t;
        case MinInclusive(b) => minInclusive := b;
        case MaxInclusive(b) => maxInclusive := b;
      }
      property.value := Range(minText, maxText, minInclusive, maxInclusive);
      parent.published := parent.published + [property.id];
    }

    /** The toggle's click handler: the browser flips the box first. */
    method ClickEnabled()
      modifies this, property, parent
      ensures Current() == Toggle(old(Current()))
      ensures parent.published == old(parent.published) + [property.id]
      ensures parent.properties == old(parent.properties)
      ensures property.validations == old(property.validations)
    {
      enabled := !enabled;
      if enabled {
        disabled := false;
        property.value := Range(minText, maxText, minInclusive, maxInclusive);
        parent.published := parent.published + [property.id];
      } else {
        disabled := true;
        property.value := Bool(false);
        parent.published := parent.published + [property.id];
      }
    }
  }
}
