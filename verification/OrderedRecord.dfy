/** A JavaScript object used as a dictionary: entries keep the order in which their keys first appeared. */
module OrderedRecord {
  import opened Prelude

  datatype Record<K(==,!new), V> = Record(keys: seq<K>, values: map<K, V>) {

    ghost predicate Valid()
    {
      && AllDifferent(keys)
      && (forall k :: k in keys <==> k in values)
    }

    /** `{ ...record, [k]: v }` */
    function Put(k: K, v: V): (r: Record<K, V>)
      ensures Valid() ==> r.Valid()
    {
      Record(if k in values then keys else keys + [k], values[k := v])
    }
  }
}
