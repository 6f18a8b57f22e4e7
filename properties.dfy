/** A control's properties and the parent element that owns them. */
module Properties {
  import opened Values
  import opened Validation

  /** A named, typed, mutable property of a form control. */
  class Property {
    const id: string
    const name: string
    /** `property.type`: the tag that selects the editor. */
    const tag: string
    var value: Value
    /** Written by the external validator; `undefined` is the empty sequence. */
    var validations: seq<ValidationResult>
    /** `property.bindDisplayIf`; None stands for `null` or `undefined`. */
    const bindDisplayIf: Option<string>
    /** `property.bindTo` of a dependent-option property. */
    const bindTo: Option<string>

    constructor (id: string, name: string, tag: string, value: Value,
                 validations: seq<ValidationResult>,
                 bindDisplayIf: Option<string>, bindTo: Option<string>)
      ensures this.id == id && this.name == name && this.tag == tag
      ensures this.value == value && this.validations == validations
      ensures this.bindDisplayIf == bindDisplayIf && this.bindTo == bindTo
    {
      this.id := id;
      this.name := name;
      this.tag := tag;
      this.value := value;
      this.validations := validations;
      this.bindDisplayIf := bindDisplayIf;
      this.bindTo := bindTo;
    }
  }

  /** The parent control element: `data('odkControl-properties')` and the scope
      of the `odkControl-propertiesUpdated` event. Every publish of that event
      appends the property id it carries to `published`. */
  class Parent {
    var properties: map<string, Property>
    ghost var published: seq<string>

    constructor (properties: map<string, Property>)
      ensures this.properties == properties && published == []
    {
      this.properties := properties;
      published := [];
    }
  }
}
