/** The part of Go's `net/url` package that the model needs: `url.Values`, a
    map from a query key to the list of its values, and its `Add` method. */
module GoUrl {

  type Values = map<string, seq<string>>

  /** `q.Add(key, value)`: appends `value` to the list of `key`; a key seen for
      the first time gets the one-element list. */
  function Add(q: Values, key: string, value: string): (r: Values)
    ensures key in q ==> r == q[key := q[key] + [value]]
    ensures key !in q ==> r == q[key := [value]]
  {
    assert [] + [value] == [value];
    q[key := (if key in q then q[key] else []) + [value]]
  }
}
