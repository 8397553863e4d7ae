/**
 * The request parameter hash as the controllers see it: a map from key names
 * to scalar values, `require` (the named sub-hash must be present and not
 * blank) and `permit` (keep only allow-listed keys, drop the rest silently).
 *
 * Values arrive already typed; a value whose type does not fit the column it
 * is assigned to casts to nil there.
 */
module Params {
  import opened Wrappers

  datatype Value = Nil | Int(i: int) | Bool(b: bool) | Str(s: string)

  type Params = map<string, Value>

  /** Raised by `require` when the sub-hash is absent or empty. */
  datatype ParamError = ParameterMissing

  /** A sub-hash is blank when it is absent or has no keys. */
  predicate Blank(form: Option<Params>) {
    form.None? || form.value == map[]
  }

  /** `params.require(key)`: the sub-hash itself, or ParameterMissing. */
  function Require(form: Option<Params>): (r: Result<Params, ParamError>)
    ensures r.Failure? <==> Blank(form)
    ensures r.Success? ==> form == Some(r.value)
  {
    if Blank(form) then Failure(ParameterMissing) else Success(form.value)
  }

  /** `permit(keys)`: the entries whose key is allow-listed, each unchanged. */
  function Permit(p: Params, keys: set<string>): (r: Params)
    ensures r.Keys == p.Keys * keys
    ensures forall k :: k in r ==> r[k] == p[k]
  {
    map k | k in p && k in keys :: p[k]
  }

  /** Permitting with two allow-lists one after the other and merging is permitting with their union. */
  lemma PermitMerge(p: Params, a: set<string>, b: set<string>)
    ensures Permit(p, a) + Permit(p, b) == Permit(p, a + b)
  {
    var l, r := Permit(p, a) + Permit(p, b), Permit(p, a + b);
    assert l.Keys == r.Keys;
    forall k | k in l ensures l[k] == r[k] {
      if k in Permit(p, b) { assert l[k] == p[k]; } else { assert l[k] == p[k]; }
    }
  }

  /** Permitting every key a hash holds leaves the hash as it is. */
  lemma PermitAll(p: Params, keys: set<string>)
    requires p.Keys <= keys
    ensures Permit(p, keys) == p
  {
  }

  /** `params.dig(sub, key)`: the value under `key`, or nothing when the sub-hash or the key is absent. */
  function Dig(form: Option<Params>, key: string): (v: Option<Value>)
    ensures v.Some? <==> form.Some? && key in form.value
    ensures v.Some? ==> v.value == form.value[key]
  {
    if form.Some? && key in form.value then Some(form.value[key]) else None
  }

  /** Casts of a submitted value to the type of the column it is written to. */
  function AsInt(v: Value): Option<int> {
    if v.Int? then Some(v.i) else None
  }

  function AsBool(v: Value): Option<bool> {
    if v.Bool? then Some(v.b) else None
  }

  function AsString(v: Value): Option<string> {
    if v.Str? then Some(v.s) else None
  }
}
