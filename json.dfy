/** What the envelopes need of JSON: the outcome of `JSON.stringify` on a
    payload, the text a renderer shows for it, and the plain objects the
    projection functions build, as ordered key/value lists. */
module Json {
  import opened Wrappers

  /** The outcome of `JSON.stringify(v)`: the JSON text; `undefined`, which
      it returns for `undefined`, functions and symbols; or an exception, which
      it throws for cyclic values and BigInts. */
  datatype Stringified = Text(json: string) | Undefined | Throws

  const Unserializable := "[unserializable]"

  /** The payload text of a rendered line: the try/catch around
      `JSON.stringify` in the renderers, followed by the template literal's
      conversion of the result to a string. */
  function PayloadText(s: Stringified): (t: string)
    ensures s.Text? ==> t == s.json
    ensures s.Undefined? ==> t == "undefined"
    ensures s.Throws? ==> t == Unserializable
  {
    match s
    case Text(json) => json
    case Undefined => "undefined"
    case Throws => Unserializable
  }

  /** A property value of a projected record: a string, or the caller's
      payload passed through untouched. */
  datatype Value<P> = Str(s: string) | Raw(payload: P)

  datatype Field<P> = Field(key: string, value: Value<P>)

  /** A plain object literal, its properties in insertion order. */
  type Record<P> = seq<Field<P>>

  /** `Object.keys(r)`. */
  function Keys<P>(r: Record<P>): seq<string> {
    seq(|r|, i requires 0 <= i < |r| => r[i].key)
  }

  /** `r[key]`, or None for a key the record does not have. */
  function Get<P>(r: Record<P>, key: string): Option<Value<P>>
  {
    if r == [] then None
    else if r[0].key == key then Some(r[0].value)
    else Get(r[1..], key)
  }

  /** The key at position `i` occurs nowhere else in `r`. */
  ghost predicate UniqueKeyAt<P>(r: Record<P>, i: nat)
    requires i < |r|
  {
    forall j :: 0 <= j < |r| && j != i ==> r[j].key != r[i].key
  }

  /** Reading back a key that occurs once yields the value stored under it. */
  lemma {:induction false} GetStored<P>(r: Record<P>, i: nat)
    requires i < |r| && UniqueKeyAt(r, i)
    ensures Get(r, r[i].key) == Some(r[i].value)
  {
    if i > 0 {
      assert r[0].key != r[i].key;
      assert r[1..][i - 1] == r[i];
      assert UniqueKeyAt(r[1..], i - 1) by {
        forall j | 0 <= j < |r[1..]| && j != i - 1 ensures r[1..][j].key != r[1..][i - 1].key {
          assert r[1..][j] == r[j + 1];
        }
      }
      GetStored(r[1..], i - 1);
    }
  }
}
