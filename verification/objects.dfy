/**
  Script objects (src/object.rs): a map from field names to values. The
  interpreter keeps every object in its heap and shares it by reference.
*/
module Objects {
  import opened Wrappers
  import opened Values

  type Fields = map<string, Value>

  /** `Object::new`: an object without fields. */
  function New(): (o: Fields)
    ensures forall k :: k !in o
  {
    map[]
  }

  /** `Object::set`: insert or overwrite one field. */
  function Set(o: Fields, key: string, value: Value): (r: Fields)
    ensures key in r && r[key] == value
    ensures forall k :: k != key ==> (k in r <==> k in o)
    ensures forall k :: k != key && k in o ==> r[k] == o[k]
  {
    o[key := value]
  }

  /** `Object::get`: the field's value, if the object has the field. */
  function Get(o: Fields, key: string): (r: Option<Value>)
    ensures r.Some? <==> key in o
    ensures r.Some? ==> r.value == o[key]
  {
    if key in o then Some(o[key]) else None
  }

  /** A field set is read back. */
  lemma {:induction false} GetAfterSet(o: Fields, key: string, value: Value)
    ensures Get(Set(o, key, value), key) == Some(value)
  {
  }

  /** A later `set` on the same field wins. */
  lemma {:induction false} SetOverwrites(o: Fields, key: string, v: Value, w: Value)
    ensures Set(Set(o, key, v), key, w) == Set(o, key, w)
    ensures Get(Set(Set(o, key, v), key, w), key) == Some(w)
  {
  }

  /** Setting one field leaves every other field as it was. */
  lemma {:induction false} SetKeepsOthers(o: Fields, key: string, value: Value, other: string)
    requires other != key
    ensures Get(Set(o, key, value), other) == Get(o, other)
  {
  }

  /** A field never set is absent. */
  lemma {:induction false} NewHasNoFields(key: string)
    ensures Get(New(), key) == None
  {
  }
}
