/** The part of `dbt.utils` that relation configs rely on. */
module DbtUtils {
  import opened Wrappers

  /** `filter_null_values`: the dictionary restricted to the entries whose value is not null. */
  function FilterNullValues<V>(m: map<string, Option<V>>): (r: map<string, V>)
    ensures forall k :: k in r <==> k in m && m[k].Some?
    ensures forall k :: k in r ==> m[k] == Some(r[k])
  {
    map k | k in m && m[k].Some? :: m[k].value
  }

  /** A dictionary of non-null values seen as a dictionary that may hold nulls. */
  function Lift<V>(m: map<string, V>): (r: map<string, Option<V>>)
    ensures r.Keys == m.Keys
    ensures forall k :: k in r ==> r[k] == Some(m[k])
  {
    map k | k in m :: Some(m[k])
  }

  /** Filtering a dictionary that holds no nulls gives it back unchanged. */
  lemma FilterLiftIsIdentity<V>(m: map<string, V>)
    ensures FilterNullValues(Lift(m)) == m
  {
  }

  /** Filtering is idempotent: filtering an already filtered dictionary changes nothing. */
  lemma FilterNullValuesIdempotent<V>(m: map<string, Option<V>>)
    ensures FilterNullValues(Lift(FilterNullValues(m))) == FilterNullValues(m)
  {
    FilterLiftIsIdentity(FilterNullValues(m));
  }

  /** A null-valued entry is invisible to the filter: setting a key to null is the same as deleting it. */
  lemma FilterIgnoresNullEntry<V>(m: map<string, Option<V>>, k: string)
    ensures FilterNullValues(m[k := None]) == FilterNullValues(m - {k})
  {
  }
}
