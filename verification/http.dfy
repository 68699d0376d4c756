/**
 * What the API routes see of a request and what they answer: a parsed JSON body
 * whose field values stay abstract (`V`), JavaScript truthiness and `parseFloat`
 * passed in as functions, and the two kinds of `NextResponse.json`.
 */
module Http {
  import opened Wrappers

  /** `NextResponse.json(result)` (status 200), or `NextResponse.json({ error: message }, { status })`. */
  datatype Response<R> = Ok(result: R) | Error(status: nat, message: string)

  /** The fields of a parsed body by name; a name that is absent destructures to `undefined`. */
  type Body<V> = map<string, V>

  /** `!!body[key]`: the field exists and its value is truthy. `undefined` is falsy. */
  predicate Present<V>(body: Body<V>, key: string, truthy: V -> bool) {
    key in body && truthy(body[key])
  }

  /** `isNaN(x) || x < min` on a `parseFloat` result, NaN being None. */
  predicate BelowMinimum(x: Option<real>, min: real) {
    x.None? || x.value < min
  }
}
