/** `$.fn.propertyEditor`: dispatch on the property's type, the validation
    display, and the conditional visibility bound by `bindDisplayIf`. */
module Binder {
  import opened Values
  import opened Validation
  import opened Properties
  import SimpleEditors
  import RangeEditor
  import OptionsEditor
  import OtherEditor

  /** `showHide`: the editor is shown unless the sibling's value is exactly
      `false`; among the falsy values `0`, `""`, `null` and `undefined` do not
      hide it. */
  function Shown(v: Value): (r: bool)
    ensures r <==> Truthy(v) || !v.Bool?
  {
    v != Bool(false)
  }

  /** The keys of `$.fn.propertyEditor.editors`. */
  datatype Kind =
    | TextType | UiTextType | BoolType | NumericRangeType | EnumType
    | DateRangeType | OptionsEditorType | OtherEditorType

  /** The key under which `editors` registers each kind. */
  function Tag(k: Kind): string {
    match k
    case TextType => "text"
    case UiTextType => "uiText"
    case BoolType => "bool"
    case NumericRangeType => "numericRange"
    case EnumType => "enum"
    case DateRangeType => "dateRange"
    case OptionsEditorType => "optionsEditor"
    case OtherEditorType => "otherEditor"
  }

  /** `$.fn.propertyEditor.editors[tag]`, or None when the tag has no editor. */
  function KindOf(tag: string): (k: Option<Kind>)
    ensures k.Some? <==> tag in ["text", "uiText", "bool", "numericRange", "enum", "dateRange", "optionsEditor", "otherEditor"]
    ensures k.Some? ==> Tag(k.value) == tag
  {
    match tag
    case "text" => Some(TextType)
    case "uiText" => Some(UiTextType)
    case "bool" => Some(BoolType)
    case "numericRange" => Some(NumericRangeType)
    case "enum" => Some(EnumType)
    case "dateRange" => Some(DateRangeType)
    case "optionsEditor" => Some(OptionsEditorType)
    case "otherEditor" => Some(OtherEditorType)
    case _ => None
  }

  /** Every registered kind is found again under its own key. */
  lemma KindOfTag(k: Kind)
    ensures KindOf(Tag(k)) == Some(k)
  {
  }

  /** The editor a binding runs. `uiText` and `enum` are not modelled. */
  datatype Editor =
    | EditsText(text: SimpleEditors.TextEditor)
    | EditsBool(check: SimpleEditors.BoolEditor)
    | EditsRange(range: RangeEditor.RangeEditor, dates: bool)
    | EditsOptions(list: OptionsEditor.OptionsEditor)
    | EditsOther(other: OtherEditor.OtherEditor)
    | NotModelled(kind: Kind)

  /** `e` is the editor `editors[k]` runs; `dateRange` runs the numeric-range
      editor and adds the date picker. */
  predicate Serves(k: Kind, e: Editor) {
    match k
    case TextType => e.EditsText?
    case BoolType => e.EditsBool?
    case NumericRangeType => e.EditsRange? && !e.dates
    case DateRangeType => e.EditsRange? && e.dates
    case OptionsEditorType => e.EditsOptions?
    case OtherEditorType => e.EditsOther?
    case UiTextType => e == NotModelled(UiTextType)
    case EnumType => e == NotModelled(EnumType)
  }

  /** Why a binding throws before it is complete. */
  datatype BindError =
    | UnknownType(tag: string)
    | MissingBoundProperty
    | MissingDisplayProperty(id: string)

  /** The value shapes each editor is written for. */
  predicate Renderable(p: Property)
    reads p
  {
    match KindOf(p.tag)
    case Some(TextType) => p.value.Str? || !Truthy(p.value)
    case Some(NumericRangeType) => RangeEditor.RangeShaped(p.value)
    case Some(DateRangeType) => RangeEditor.RangeShaped(p.value)
    case Some(OptionsEditorType) =>
      IsNullish(p.value) || (p.value.RowList? && OptionsEditor.Distinct(p.value.rows))
    case Some(OtherEditorType) => OtherEditor.DepShaped(p.value)
    case _ => true
  }

  /** The wrapper element of one property editor. */
  class PropertyEditor {
    const property: Property
    const parent: Parent
    const editor: Editor
    /** `parentProperty`, resolved from `bindDisplayIf` at bind time. */
    const displayParent: Property?
    /** The `error` class on the wrapper. */
    var errorClass: bool
    /** The `.errorList` child: the messages of its `<li>` items. */
    var errorList: Option<seq<string>>
    /** Whether the wrapper is shown. */
    var visible: bool

    ghost predicate Valid()
      reads this
    {
      property.bindDisplayIf.Some? <==> displayParent != null
    }

    constructor (property: Property, parent: Parent, editor: Editor, displayParent: Property?)
      requires property.bindDisplayIf.Some? <==> displayParent != null
      ensures this.property == property && this.parent == parent && this.editor == editor
      ensures this.displayParent == displayParent
      ensures Valid()
      ensures Display(errorClass, errorList) == ErrorDisplay(property.validations)
      ensures visible == (displayParent == null || Shown(displayParent.value))
    {
      this.property := property;
      this.parent := parent;
      this.editor := editor;
      this.displayParent := displayParent;
      var d := ErrorDisplay(property.validations);
      errorClass, errorList := d.errorClass, d.errorList;
      visible := displayParent == null || Shown(displayParent.value);
    }

    /** `processValidation`. */
    method ProcessValidation()
      modifies this
      ensures Display(errorClass, errorList) == ErrorDisplay(property.validations)
      ensures visible == old(visible)
    {
      var d := ErrorDisplay(property.validations);
      errorClass := d.errorClass;
      errorList := d.errorList;
    }

    /** The `odkControl-validationChanged` listener: only this property's own
        notifications (by identity) refresh the display. */
    method OnValidationChanged(vProperty: Property)
      modifies this
      ensures vProperty == property ==> Display(errorClass, errorList) == ErrorDisplay(property.validations)
      ensures vProperty != property ==> errorClass == old(errorClass) && errorList == old(errorList)
      ensures visible == old(visible)
    {
      if vProperty == property {
        ProcessValidation();
      }
    }

    /** The `odkControl-propertiesUpdated` listener installed for
        `bindDisplayIf`: visibility is recomputed only for the sibling's id. */
    method OnPropertiesUpdated(propId: string)
      requires Valid()
      modifies this
      ensures displayParent != null && property.bindDisplayIf == Some(propId) ==>
        visible == Shown(displayParent.value)
      ensures !(displayParent != null && property.bindDisplayIf == Some(propId)) ==>
        visible == old(visible)
      ensures errorClass == old(errorClass) && errorList == old(errorList)
    {
      if displayParent != null && property.bindDisplayIf == Some(propId) {
        visible := Shown(displayParent.value);
      }
    }
  }

  /** The objects an editor's start-up state lives in. */
  function EditorObjects(e: Editor): set<object>
    reads if e.EditsOther? then {e.other.options} else {}
  {
    match e
    case EditsText(t) => {t}
    case EditsBool(c) => {c}
    case EditsRange(g, _) => {g}
    case EditsOptions(l) => {l}
    case EditsOther(o) => {o, o.options} + RowsOf(o.options.value)
    case NotModelled(_) => {}
  }

  /** The editor that ran is bound to `property` and `parent` and starts as its
      constructor sets it up from the value the property had before. */
  twostate predicate Started(new e: Editor, property: Property, parent: Parent, template: RangeEditor.Fields)
    reads property, parent, RowsOf(property.value), EditorObjects(e)
  {
    match e
    case EditsText(t) =>
      t.property == property && t.parent == parent && (old(property.value).Str? || !Truthy(old(property.value))) &&
      t.field == SimpleEditors.FieldText(old(property.value))
    case EditsBool(c) =>
      c.property == property && c.parent == parent && (c.checked <==> old(property.value) == Bool(true))
    case EditsRange(g, _) =>
      g.property == property && g.parent == parent && RangeEditor.RangeShaped(old(property.value)) &&
      g.Current() == RangeEditor.Init(old(property.value), template)
    case EditsOptions(l) =>
      l.property == property && l.parent == parent && l.Valid() &&
      property.value == old(property.value) &&
      (property.value.RowList? ==> forall j :: 0 <= j < |property.value.rows| ==>
        property.value.rows[j].val == old(property.value.rows[j].val) &&
        property.value.rows[j].text == OptionsEditor.WithText(old(property.value.rows[j].text)))
    case EditsOther(o) =>
      o.property == property && o.parent == parent && o.Valid() && OtherEditor.DepShaped(old(property.value)) &&
      property.bindTo.Some? && property.bindTo.value in old(parent.properties) &&
      o.options == old(parent.properties[property.bindTo.value]) &&
      var out := OtherEditor.Resolve(old(property.value), null, o.Bound());
      property.value == out.value && o.selectedOption == out.selected && o.choices == o.Bound() &&
      o.selection == (if out.shown.Some? then out.shown.value else Undefined) &&
      o.enableChecked == (old(property.value) != Bool(false)) &&
      o.selectDisabled == (old(property.value) == Bool(false)) &&
      parent.published == old(parent.published) + (if out.fired then [property.id] else [])
    case NotModelled(_) => true
  }

  /** `editors[property.type](property, $editor, $parent)`: run the tag's editor. */
  method Run(kind: Kind, property: Property, parent: Parent, template: RangeEditor.Fields) returns (editor: Editor)
    requires KindOf(property.tag) == Some(kind) && Renderable(property)
    requires kind == OtherEditorType ==>
      property.bindTo.Some? && property.bindTo.value in parent.properties &&
      parent.properties[property.bindTo.value].value.RowList?
    modifies property, parent, RowsOf(property.value)
    ensures Serves(kind, editor) && Started(editor, property, parent, template)
    ensures parent.properties == old(parent.properties)
    ensures property.validations == old(property.validations)
    ensures kind != OtherEditorType ==> parent.published == old(parent.published)
    ensures kind != OtherEditorType && kind != EnumType ==> property.value == old(property.value)
  {
    match kind {
      case TextType =>
        var e := new SimpleEditors.TextEditor(property, parent);
        editor := EditsText(e);
      case BoolType =>
        var e := new SimpleEditors.BoolEditor(property, parent);
        editor := EditsBool(e);
      case NumericRangeType =>
        var e := new RangeEditor.RangeEditor(property, parent, template);
        editor := EditsRange(e, false);
      case DateRangeType =>
        var e := new RangeEditor.RangeEditor(property, parent, template);
        editor := EditsRange(e, true);
      case OptionsEditorType =>
        var e := new OptionsEditor.OptionsEditor(property, parent);
        editor := EditsOptions(e);
      case OtherEditorType =>
        var e := new OtherEditor.OtherEditor(property, parent);
        editor := EditsOther(e);
      case UiTextType =>
        editor := NotModelled(UiTextType);
      case EnumType =>
        editor := NotModelled(EnumType);
    }
  }

  /** `$(el).propertyEditor(property, name, $parent)`: run the type's editor,
      then set up the validation display and the visibility binding. */
  method Bind(property: Property, parent: Parent, template: RangeEditor.Fields)
    returns (r: Result<PropertyEditor, BindError>)
    requires Renderable(property)
    requires KindOf(property.tag) == Some(OtherEditorType) && property.bindTo.Some? && property.bindTo.value in parent.properties ==>
      parent.properties[property.bindTo.value].value.RowList?
    modifies property, parent, RowsOf(property.value)
    ensures KindOf(property.tag).None? ==> r == Err(UnknownType(property.tag))
    ensures KindOf(property.tag) == Some(OtherEditorType) && !(property.bindTo.Some? && property.bindTo.value in old(parent.properties)) ==>
      r == Err(MissingBoundProperty)
    ensures r.Err? && r.error.MissingDisplayProperty? ==>
      property.bindDisplayIf == Some(r.error.id) && r.error.id !in old(parent.properties)
    ensures r.Ok? ==> fresh(r.value) && r.value.property == property && r.value.parent == parent
    ensures r.Ok? ==> r.value.Valid() && KindOf(property.tag).Some? && Serves(KindOf(property.tag).value, r.value.editor)
    ensures r.Ok? ==> Display(r.value.errorClass, r.value.errorList) == ErrorDisplay(property.validations)
    ensures r.Ok? && property.bindDisplayIf.Some? ==>
      property.bindDisplayIf.value in parent.properties &&
      r.value.displayParent == parent.properties[property.bindDisplayIf.value] &&
      r.value.visible == Shown(parent.properties[property.bindDisplayIf.value].value)
    ensures r.Ok? && property.bindDisplayIf.None? ==> r.value.visible
    ensures r.Err? && r.error.UnknownType? ==> KindOf(property.tag).None?
    ensures r.Err? && r.error.MissingBoundProperty? ==>
      KindOf(property.tag) == Some(OtherEditorType) && !(property.bindTo.Some? && property.bindTo.value in old(parent.properties))
    ensures
      (&& KindOf(property.tag).Some?
       && (KindOf(property.tag) == Some(OtherEditorType) ==> property.bindTo.Some? && property.bindTo.value in old(parent.properties))
       && (property.bindDisplayIf.Some? ==> property.bindDisplayIf.value in old(parent.properties)))
      ==> r.Ok?
    ensures parent.properties == old(parent.properties)
    ensures property.validations == old(property.validations)
    ensures KindOf(property.tag) != Some(OtherEditorType) ==> parent.published == old(parent.published)
    ensures KindOf(property.tag) != Some(OtherEditorType) && KindOf(property.tag) != Some(EnumType) ==>
      property.value == old(property.value)
    ensures r.Ok? ==> Started(r.value.editor, property, parent, template)
  {
    var kind := KindOf(property.tag);
    if kind.None? {
      return Err(UnknownType(property.tag));
    }
    if kind.value == OtherEditorType && !(property.bindTo.Some? && property.bindTo.value in parent.properties) {
      return Err(MissingBoundProperty);
    }
    var editor := Run(kind.value, property, parent, template);
    var displayParent: Property? := null;
    if property.bindDisplayIf.Some? {
      if property.bindDisplayIf.value !in parent.properties {
        return Err(MissingDisplayProperty(property.bindDisplayIf.value));
      }
      displayParent := parent.properties[property.bindDisplayIf.value];
    }
    var b := new PropertyEditor(property, parent, editor, displayParent);
    return Ok(b);
  }
}
