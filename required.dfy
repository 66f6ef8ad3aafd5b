/**
  * `_checkRequired`, which the app, project and user handlers each carry a
  * copy of: walk the list of required field names in order and stop at the
  * first one whose value is not a non-empty string.
  */
module Required {
  import opened Js

  /** a string that is not empty */
  predicate NonEmptyString(v: Value) {
    v.Str? && v.s != ""
  }

  predicate Present(props: seq<(string, Value)>, field: string) {
    NonEmptyString(Lookup(props, field))
  }

  /** the message of the error `_checkRequired` reports */
  function MissingMessage(field: string): string {
    "Missing required field \"" + field + "\"."
  }

  /** the first field of `required`, in list order, that is not a non-empty string */
  function FirstMissing(props: seq<(string, Value)>, required: seq<string>): (r: Option<string>)
    ensures r.None? <==> forall i :: 0 <= i < |required| ==> Present(props, required[i])
    ensures r.Some? ==>
      exists k :: 0 <= k < |required| && required[k] == r.value && !Present(props, required[k])
        && forall j :: 0 <= j < k ==> Present(props, required[j])
  {
    if required == [] then None
    else if !Present(props, required[0]) then Some(required[0])
    else
      var r := FirstMissing(props, required[1..]);
      if r.Some? then
        var k :| 0 <= k < |required[1..]| && required[1..][k] == r.value && !Present(props, required[1..][k])
          && forall j :: 0 <= j < k ==> Present(props, required[1..][j]);
        assert forall j :: 0 <= j < k + 1 ==> Present(props, required[j]) by {
          forall j | 0 <= j < k + 1 ensures Present(props, required[j]) {
            if j > 0 { assert required[j] == required[1..][j - 1]; }
          }
        }
        r
      else r
  }

  /** `_checkRequired(data, required, cb)`: the loop, returning the message of
    * the error it hands to `cb`, or nothing when every field is present */
  method CheckRequired(data: JsObject, required: seq<string>) returns (missing: Option<string>)
    ensures missing.None? <==> FirstMissing(data.props, required).None?
    ensures missing.Some? ==> missing.value == MissingMessage(FirstMissing(data.props, required).value)
  {
    for i := 0 to |required|
      invariant forall j :: 0 <= j < i ==> Present(data.props, required[j])
    {
      var field := required[i];
      var v := Lookup(data.props, field);
      if !v.Str? || |v.s| == 0 {
        FirstMissingIsUnique(data.props, required, i);
        return Some(MissingMessage(field));
      }
    }
    return None;
  }

  /** The field `FirstMissing` names is the first one that fails, so any index
    * that fails while all before it pass is the one it names. */
  lemma FirstMissingIsUnique(props: seq<(string, Value)>, required: seq<string>, k: nat)
    requires k < |required| && !Present(props, required[k])
    requires forall j :: 0 <= j < k ==> Present(props, required[j])
    ensures FirstMissing(props, required) == Some(required[k])
  {
    var r := FirstMissing(props, required);
    var m :| 0 <= m < |required| && required[m] == r.value && !Present(props, required[m])
      && forall j :: 0 <= j < m ==> Present(props, required[j]);
    assert !(m < k) && !(k < m);
  }

  /** The check reads only the listed fields. */
  lemma {:induction false} FirstMissingReadsFields(p: seq<(string, Value)>, q: seq<(string, Value)>, required: seq<string>)
    requires forall i :: 0 <= i < |required| ==> Lookup(p, required[i]) == Lookup(q, required[i])
    ensures FirstMissing(p, required) == FirstMissing(q, required)
  {
    if required != [] {
      FirstMissingReadsFields(p, q, required[1..]);
    }
  }
}
