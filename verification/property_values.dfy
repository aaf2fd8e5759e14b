/** Property values of a user profile.  A command carries raw JSON-shaped
    values (numbers, lists, anything else), and the profile stores each one
    wrapped in a `PropertyValue`, whose equality is structural. */
module PropertyValues {

  /** A raw value as it arrives in a command: an integral number, a list of
      raw values, or any other scalar, represented by its text. */
  datatype Raw =
    | Number(n: int)
    | List(items: seq<Raw>)
    | Scalar(text: string)

  /** The stored, wrapped form of a raw value. */
  datatype PropertyValue = PropertyValue(value: Raw)

  /** Wraps a raw value; wrapping never fails and never inspects the value. */
  function Wrap(raw: Raw): (v: PropertyValue)
    ensures v.value == raw
    ensures IsNumber(v) <==> raw.Number?
    ensures IsList(v) <==> raw.List?
  {
    PropertyValue(raw)
  }

  predicate IsNumber(v: PropertyValue) {
    v.value.Number?
  }

  predicate IsList(v: PropertyValue) {
    v.value.List?
  }

  /** Wrapping loses nothing: two wrapped values are equal exactly when the
      raw values are, and the payload can be read back. */
  lemma WrapIsStructural(a: Raw, b: Raw)
    ensures Wrap(a) == Wrap(b) <==> a == b
    ensures Wrap(a).value == a
  {
  }

  /** A number and a one-element list holding that number are never equal. */
  lemma NumberIsNotList(n: int)
    ensures Wrap(Number(n)) != Wrap(List([Number(n)]))
    ensures IsNumber(Wrap(Number(n))) && !IsList(Wrap(Number(n)))
  {
  }
}
