/** The small part of JSON that the listing core exchanges between the client
    and the server: arrays of URL strings (`photos`) and flat string-to-string
    objects (`features`). `JSON.stringify` and `JSON.parse` themselves are not
    modelled; they are a pair of functions given as a parameter, of which only
    the round-trip law is assumed, as a precondition. */
module Json {

  datatype Option<+T> = None | Some(value: T)

  /** A listing's free-form feature map, e.g. {"colour": "red"}. */
  type Features = map<string, string>

  /** The JSON values the core produces and consumes. */
  datatype Value = Array(items: seq<string>) | Object(fields: Features)

  /** `stringify` is JSON.stringify; `parse` is JSON.parse, which fails
      (throws) on malformed text, modelled as None. */
  datatype Codec = Codec(stringify: Value -> string, parse: string -> Option<Value>)

  /** What every JSON implementation guarantees: parsing what was stringified
      gives the value back, and the literal text "{}" is the empty object. */
  ghost predicate Lawful(c: Codec) {
    && (forall v: Value :: c.parse(c.stringify(v)) == Some(v))
    && c.parse("{}") == Some(Object(map[]))
  }

  /** The round-trip law, for one value. */
  lemma ParseStringified(c: Codec, v: Value)
    requires Lawful(c)
    ensures c.parse(c.stringify(v)) == Some(v)
  {
  }
}
