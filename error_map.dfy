/**
 * The field-to-message objects both forms build in `validateForm`
 * (`newErrors.field = "..."`), as finite maps.
 */
module ErrorMap {
  import opened Wrappers

  /** Sets a field's message when there is one. */
  function Record<K>(m: map<K, string>, field: K, e: Option<string>): map<K, string> {
    if e.Some? then m[field := e.value] else m
  }

  /** The entry of a field, if any. */
  function Lookup<K>(m: map<K, string>, g: K): Option<string> {
    if g in m then Some(m[g]) else None
  }

  /** Recording changes the entry of that one field and no other. */
  lemma RecordLookup<K>(m: map<K, string>, field: K, e: Option<string>, g: K)
    ensures Lookup(Record(m, field, e), g) == if g == field && e.Some? then e else Lookup(m, g)
  {
  }

  /** `Object.keys(m).length === 0` holds exactly for the empty map. */
  lemma EmptyIffNoKeys<K>(m: map<K, string>)
    ensures |m| == 0 <==> m == map[]
  {
    if |m| == 0 {
      assert |m.Keys| == 0;
      assert m.Keys == {};
    }
  }
}
