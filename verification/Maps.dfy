/** Maps given by a set of keys and a function. */
module Maps {
  /**
   * The map with these keys that f gives values to. It is built one key at a time: two map comprehensions over the same keys
   * must not be compared, because the verifier then also equates what they say about other keys.
   */
  ghost function Tabulate<K, V>(keys: set<K>, f: K --> V): (m: map<K, V>)
    requires forall k :: k in keys ==> f.requires(k)
    ensures m.Keys == keys && forall k :: k in keys ==> m[k] == f(k)
  {
    if keys == {} then map[]
    else
      var k :| k in keys;
      Tabulate(keys - {k}, f)[k := f(k)]
  }
}
