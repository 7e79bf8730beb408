/**
 * `url.Values`: a table from parameter name to a list of values. Only the
 * two operations the client uses are modelled: Set, which replaces the
 * whole list of a name by one value, and Get, which reads its first value.
 */
module UrlValues {

  type Values = map<string, seq<string>>

  /** `Values.Set`: the name now holds exactly [value]; every other name is as it was. */
  function Set(v: Values, name: string, value: string): (r: Values)
    ensures r.Keys == v.Keys + {name}
    ensures r[name] == [value]
    ensures forall k :: k in v && k != name ==> r[k] == v[k]
  {
    v[name := [value]]
  }

  /** `Values.Get`: the first value of the name, or "" when there is none. */
  function Get(v: Values, name: string): string {
    if name in v && |v[name]| > 0 then v[name][0] else ""
  }

  /** After a write, the name holds exactly the one value. */
  predicate Holds(v: Values, name: string, value: string) {
    name in v && v[name] == [value]
  }

  /** The name is present in both tables with the same values, or absent from both. */
  predicate Kept(before: Values, after: Values, name: string) {
    (name in before <==> name in after) && (name in before ==> after[name] == before[name])
  }
}
