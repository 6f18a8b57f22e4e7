/** JavaScript values as the property editors see them. */
module Values {

  datatype Option<+T> = None | Some(value: T)

  datatype Result<+T, +E> = Ok(value: T) | Err(error: E)

  /** One row of an option list. Rows are shared by reference: the option-list
      editor edits them in place and the dependent-option editor remembers one. */
  class OptionRow {
    /** The per-language label object; None stands for `null` or `undefined`. */
    var text: Option<map<string, string>>
    /** The underlying value the form stores for this choice. */
    var val: string

    constructor (text: Option<map<string, string>>, val: string)
      ensures this.text == text && this.val == val
    {
      this.text := text;
      this.val := val;
    }
  }

  /** The shapes a `property.value` takes in this file. Numbers are modelled as
      integers; the two array shapes are an array of option rows and an array
      of plain values. */
  datatype Value =
    | Undefined
    | Null
    | Bool(b: bool)
    | Num(n: int)
    | Str(s: string)
    | Range(min: string, max: string, minInclusive: bool, maxInclusive: bool)
    | RowList(rows: seq<OptionRow>)
    | List(items: seq<Value>)

  /** `v == null` in JavaScript: true of `null` and `undefined` only. */
  predicate IsNullish(v: Value)
    ensures IsNullish(v) ==> !Truthy(v) && v != Bool(false)
  {
    v.Undefined? || v.Null?
  }

  /** JavaScript truthiness: `false`, `0`, `""`, `null` and `undefined` are falsy;
      objects and arrays are truthy. */
  predicate Truthy(v: Value)
    ensures Truthy(v) <==> !(v == Undefined || v == Null || v == Bool(false) || v == Num(0) || v == Str(""))
  {
    match v
    case Undefined => false
    case Null => false
    case Bool(b) => b
    case Num(n) => n != 0
    case Str(s) => s != ""
    case _ => true
  }

  /** The rows an option-list value holds, as a frame. */
  function RowsOf(v: Value): set<OptionRow> {
    if v.RowList? then set r | r in v.rows else {}
  }
}
