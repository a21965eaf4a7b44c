/**
 * Decoded calls and logs as the ABI decoder hands them to a transformer,
 * and the by-name parameter lookup (`extractParamValue`) the transformers use.
 */
module DecodedParams {
  import opened Wrappers

  /** A decoded parameter value: addresses and integers arrive as text, `bool` as a flag. */
  datatype Value = Str(text: string) | Bool(flag: bool)

  /** One decoded parameter, `{ name, value }`. */
  datatype Param = Param(name: string, value: Value)

  /**
   * A decoded call or log. Calls carry their arguments in `params`,
   * logs in `events`; a transformer reads only the field meant for it.
   */
  datatype Decoded = Decoded(name: string, params: seq<Param>, events: seq<Param>)

  /** No two parameters share a name, as in the EIP-721 interface's calls and events. */
  predicate UniqueNames(ps: seq<Param>)
  {
    forall i, j :: 0 <= i < j < |ps| ==> ps[i].name != ps[j].name
  }

  /**
   * The value of the first parameter called `name`, or `None` (JavaScript's
   * `undefined`) when there is none. A missing parameter is never an error.
   */
  function Lookup(ps: seq<Param>, name: string): (r: Option<Value>)
    ensures r.None? <==> forall p | p in ps :: p.name != name
    ensures r.Some? ==> exists i | 0 <= i < |ps| :: FirstNamed(ps, name, i) && ps[i].value == r.value
  {
    if |ps| == 0 then None
    else if ps[0].name == name then Some(ps[0].value)
    else
      var r := Lookup(ps[1..], name);
      assert r.Some? ==> exists i | 0 <= i < |ps[1..]| :: FirstNamed(ps[1..], name, i) && ps[1..][i].value == r.value;
      assert forall i | 0 <= i < |ps[1..]| && FirstNamed(ps[1..], name, i) :: FirstNamed(ps, name, i + 1);
      r
  }

  /** `ps[i]` is the first parameter called `name`. */
  predicate FirstNamed(ps: seq<Param>, name: string, i: int)
  {
    0 <= i < |ps| && ps[i].name == name && forall j | 0 <= j < i :: ps[j].name != name
  }

  /**
   * `v` is what the list carries under `name`: present exactly when some
   * parameter has that name, and then the value of such a parameter.
   */
  predicate Carries(ps: seq<Param>, name: string, v: Option<Value>)
  {
    && (v.Some? <==> exists p | p in ps :: p.name == name)
    && (v.Some? ==> Param(name, v.value) in ps)
  }

  /** The first parameter of a name is the one found: lookup is first-match-wins. */
  lemma {:induction false} LookupFirst(ps: seq<Param>, i: nat)
    requires i < |ps|
    requires forall j | 0 <= j < i :: ps[j].name != ps[i].name
    ensures Lookup(ps, ps[i].name) == Some(ps[i].value)
  {
    if i > 0 {
      LookupFirst(ps[1..], i - 1);
    }
  }

  /** With unique names, a parameter present in the list is exactly what lookup returns. */
  lemma LookupBound(ps: seq<Param>, name: string, v: Value)
    requires UniqueNames(ps)
    requires Param(name, v) in ps
    ensures Lookup(ps, name) == Some(v)
  {
    var i :| 0 <= i < |ps| && ps[i] == Param(name, v);
    LookupFirst(ps, i);
  }

  /** With unique names, lookup returns what the list carries, present or absent. */
  lemma LookupCarried(ps: seq<Param>, name: string, v: Option<Value>)
    requires UniqueNames(ps)
    requires Carries(ps, name, v)
    ensures Lookup(ps, name) == v
  {
    if v.Some? {
      LookupBound(ps, name, v.value);
    }
  }
}
