/** Endpoint descriptors (the `Endpoint` interface) and the parameter-contract check made against them. */
module Endpoints {
  import opened Wrappers

  /** Names the endpoint's opaque `run` callback; its body is an upstream relay and is not modelled. */
  type HandlerId = string

  /** `URLSearchParams`: the query's name/value pairs in order, duplicates allowed. */
  type Query = seq<(string, string)>

  /** `params`: all must be present; `oneOf`: at least one must be present. Either may be absent. */
  datatype Endpoint = Endpoint(params: Option<seq<string>>, oneOf: Option<seq<string>>, path: string, run: HandlerId)

  /** `searchParams.has(name)`. */
  predicate Has(q: Query, name: string) {
    exists i :: 0 <= i < |q| && q[i].0 == name
  }

  /** `names.every(key => q.has(key))`, scanning the list front to back. */
  function Every(names: seq<string>, q: Query): (r: bool)
    ensures r <==> forall i :: 0 <= i < |names| ==> Has(q, names[i])
  {
    if names == [] then true
    else Has(q, names[0]) && Every(names[1..], q)
  }

  /** `names.some(key => q.has(key))`, scanning the list front to back. */
  function Any(names: seq<string>, q: Query): (r: bool)
    ensures r <==> exists i :: 0 <= i < |names| && Has(q, names[i])
  {
    if names == [] then false
    else Has(q, names[0]) || Any(names[1..], q)
  }

  /** `list?.length` is truthy only for a present, non-empty list. */
  predicate Constrains(list: Option<seq<string>>) {
    list.Some? && |list.value| > 0
  }

  datatype Validation = Accepted | MissingRequired(required: seq<string>) | MissingAlternative(oneOf: seq<string>)

  /** The two checks of the dispatcher, `params` first, each reporting the endpoint's full list. */
  function Validate(e: Endpoint, q: Query): (v: Validation)
    ensures v.MissingRequired? <==>
              e.params.Some? && exists i :: 0 <= i < |e.params.value| && !Has(q, e.params.value[i])
    ensures v.MissingRequired? ==> v.required == e.params.value
    ensures v.MissingAlternative? <==>
              !v.MissingRequired? && e.oneOf.Some? && |e.oneOf.value| > 0
              && forall i :: 0 <= i < |e.oneOf.value| ==> !Has(q, e.oneOf.value[i])
    ensures v.MissingAlternative? ==> v.oneOf == e.oneOf.value
  {
    if Constrains(e.params) && !Every(e.params.value, q) then MissingRequired(e.params.value)
    else if Constrains(e.oneOf) && !Any(e.oneOf.value, q) then MissingAlternative(e.oneOf.value)
    else Accepted
  }

  /** An absent list and an empty list impose the same (no) constraint. */
  lemma AbsentAndEmptyAgree(e: Endpoint, q: Query)
    ensures Validate(e.(params := None), q) == Validate(e.(params := Some([])), q)
    ensures Validate(e.(oneOf := None), q) == Validate(e.(oneOf := Some([])), q)
  {
  }
}
