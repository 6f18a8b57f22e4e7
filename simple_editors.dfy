/** The `text` and `bool` editors: each event copies the control into the value. */
module SimpleEditors {
  import opened Values
  import opened Properties

  /** What `.val(property.value || '')` puts in the text field. */
  function FieldText(v: Value): (t: string)
    requires v.Str? || !Truthy(v)
    ensures Truthy(v) ==> v == Str(t)
    ensures !Truthy(v) ==> t == ""
  {
    if v.Str? then v.s else ""
  }

  class TextEditor {
    const property: Property
    const parent: Parent
    /** The `.editorTextfield` contents. */
    var field: string

    constructor (property: Property, parent: Parent)
      requires property.value.Str? || !Truthy(property.value)
      ensures this.property == property && this.parent == parent
      ensures field == FieldText(property.value)
    {
      this.property := property;
      this.parent := parent;
      field := FieldText(property.value);
    }

    /** A `keyup` or `input` event after the field came to hold `text`. */
    method Input(text: string)
      modifies this, property, parent
      ensures field == text && property.value == Str(text)
      ensures parent.published == old(parent.published) + [property.id]
      ensures parent.properties == old(parent.properties)
      ensures property.validations == old(property.validations)
    {
      field := text;
      property.value := Str(field);
      parent.published := parent.published + [property.id];
    }
  }

  class BoolEditor {
    const property: Property
    const parent: Parent
    /** The `.editorCheckbox` state. */
    var checked: bool

    constructor (property: Property, parent: Parent)
      ensures this.property == property && this.parent == parent
      ensures checked <==> property.value == Bool(true)
    {
      this.property := property;
      this.parent := parent;
      checked := property.value == Bool(true);
    }

    /** A click: the browser flips the box, then the handler copies it. */
    method Click()
      modifies this, property, parent
      ensures checked == !old(checked) && property.value == Bool(checked)
      ensures parent.published == old(parent.published) + [property.id]
      ensures parent.properties == old(parent.properties)
      ensures property.validations == old(property.validations)
    {
      checked := !checked;
      property.value := Bool(checked);
      parent.published := parent.published + [property.id];
    }
  }
}
