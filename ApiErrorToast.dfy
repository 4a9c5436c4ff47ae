/** `ApiErrorToast`: the toast the pages show for a failed call. The title is the
    caller's default message, the variant is always `destructive`, and the
    description depends on what kind of value the error is. The console log and the
    dismiss action are not modelled. */
module ApiErrorToast {
  import opened Wrappers
  import opened Text
  import opened Json

  /** The JavaScript values an error can be (functions, symbols, big integers and
      non-integral numbers are not modelled). */
  datatype ErrorValue =
    | ErrorInstance(message: string)
    | ObjectValue(members: seq<Member>)
    | ArrayValue(items: seq<Json>)
    | NullValue
    | Undefined
    | BoolValue(b: bool)
    | NumberValue(n: int)
    | StringValue(s: string)

  /** A toast description: none (`null`), plain text, or a code block showing the JSON
      rendering of a value. */
  datatype Description = NoDescription | Text(text: string) | JsonBlock(value: Json)

  datatype Toast = Toast(variant: string, title: string, description: Description)

  /** JavaScript falsiness on the values above. */
  predicate IsFalsy(e: ErrorValue) {
    e.NullValue? || e.Undefined? || e == BoolValue(false) || e == NumberValue(0) || e == StringValue("")
  }

  /** `String(value)` on the primitive values. */
  function PrimitiveString(e: ErrorValue): string
    requires e.BoolValue? || e.NumberValue? || e.StringValue?
  {
    match e
    case BoolValue(b) => if b then "true" else "false"
    case NumberValue(n) => IntToString(n)
    case StringValue(s) => s
  }

  /** `ApiErrorToast({ error, defaultMessage })`: an `Error` gives its message, any other
      non-null object (arrays included) its JSON rendering, any other truthy value its
      string form, and a falsy value no description. */
  function ErrorToast(error: ErrorValue, defaultMessage: string): (t: Toast)
    ensures t.variant == "destructive" && t.title == defaultMessage
    ensures error.ErrorInstance? ==> t.description == Text(error.message)
    ensures t.description.JsonBlock? <==> error.ObjectValue? || error.ArrayValue?
    ensures error.ObjectValue? ==> t.description == JsonBlock(JObject(error.members))
    ensures error.ArrayValue? ==> t.description == JsonBlock(JArray(error.items))
    ensures t.description.NoDescription? <==> IsFalsy(error)
    ensures t.description.Text? && !error.ErrorInstance? ==> t.description.text == PrimitiveString(error)
  {
    var description :=
      if error.ErrorInstance? then Text(error.message)
      else if error.ObjectValue? then JsonBlock(JObject(error.members))
      else if error.ArrayValue? then JsonBlock(JArray(error.items))
      else if IsFalsy(error) then NoDescription
      else Text(PrimitiveString(error));
    Toast("destructive", defaultMessage, description)
  }

  /** The `error` field of an API envelope, as the pages pass it: absent becomes
      `undefined`. */
  function EnvelopeError(error: Option<string>): ErrorValue {
    if error.Some? then StringValue(error.value) else Undefined
  }

  /** For the envelope errors the pages pass in, the toast describes exactly the
      non-empty error text, word for word. */
  lemma EnvelopeErrorDescription(error: Option<string>, defaultMessage: string)
    ensures var t := ErrorToast(EnvelopeError(error), defaultMessage);
      (t.description.Text? <==> error.Some? && error.value != "")
      && (t.description.Text? ==> t.description.text == error.value)
      && (!t.description.Text? ==> t.description == NoDescription)
  {
  }
}
