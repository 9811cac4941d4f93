/** The AI gateway as the views see it: each call either replies with a
    value or fails, and the views cannot tell failures apart. */
module Gateway {

  datatype Reply<T> = Replied(value: T) | Failed

  /** The five-key structured answer of the idea-suggestion call. */
  datatype Ideas = Ideas(audience: string, features: seq<string>, framework: string, tone: string, style: string)
}
