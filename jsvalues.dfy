/** JavaScript values as they occur in the string-typed slots of the descriptor. */
module JsValues {

  /** A string-typed JavaScript slot: it may hold `null`, `undefined` or a string. */
  datatype JsStr = Null | Undef | Str(s: string)

  /** JavaScript truthiness of such a value: only a non-empty string is truthy. */
  predicate Truthy(v: JsStr) {
    v.Str? && |v.s| > 0
  }

  /** Loose equality with null (`v == null`): holds of both `null` and `undefined`. */
  predicate IsNullish(v: JsStr) {
    v.Null? || v.Undef?
  }

  /** The operator `a || b`: the left operand when it is truthy, otherwise the right one. */
  function Or(a: JsStr, b: JsStr): JsStr {
    if Truthy(a) then a else b
  }

  /** `i` is the first truthy position of `candidates`. */
  predicate FirstTruthyAt(candidates: seq<JsStr>, i: int) {
    0 <= i < |candidates| && Truthy(candidates[i])
    && forall j :: 0 <= j < i ==> !Truthy(candidates[j])
  }

  /** Reference definition of a precedence list: the first truthy candidate,
      or `fallback` when no candidate is truthy. */
  function FirstTruthy(candidates: seq<JsStr>, fallback: JsStr): (r: JsStr)
    ensures (exists i :: 0 <= i < |candidates| && Truthy(candidates[i])) ==> Truthy(r) && r in candidates
    ensures (forall i :: 0 <= i < |candidates| ==> !Truthy(candidates[i])) ==> r == fallback
    ensures forall i {:trigger FirstTruthyAt(candidates, i)} :: FirstTruthyAt(candidates, i) ==> r == candidates[i]
  {
    if candidates == [] then fallback
    else if Truthy(candidates[0]) then candidates[0]
    else
      assert forall i :: 0 < i < |candidates| ==> candidates[i] == candidates[1..][i - 1];
      assert forall i {:trigger FirstTruthyAt(candidates, i)} ::
        FirstTruthyAt(candidates, i) ==> FirstTruthyAt(candidates[1..], i - 1);
      FirstTruthy(candidates[1..], fallback)
  }
}
