/**
 * How the scripts read optional record fields and form controls.
 *
 * A field of a stored record or of a form-data object is either missing
 * (`undefined`) or holds a string. The scripts only ever test such a field
 * with JavaScript's `||` or `? :`, which treat both a missing field and the
 * empty string as false.
 */
module JsValues {

  datatype Option<+T> = None | Some(value: T)

  /** A field that `||` and `? :` treat as true: present and not the empty string. */
  predicate Truthy(v: Option<string>)
  {
    v.Some? && v.value != ""
  }

  /** `v || fallback` for an optional string field. */
  function OrElse(v: Option<string>, fallback: string): (r: string)
    ensures Truthy(v) ==> r == v.value
    ensures !Truthy(v) ==> r == fallback
    ensures r == "" ==> !Truthy(v) && fallback == ""
  {
    if Truthy(v) then v.value else fallback
  }

  /**
   * A field interpolated into a template literal: its text when present
   * (even when empty), the text "undefined" when missing.
   */
  function Interpolated(v: Option<string>): (r: string)
    ensures v.Some? ==> r == v.value
    ensures v.None? ==> r == "undefined"
  {
    if v.Some? then v.value else "undefined"
  }

  /** `element?.value || ''` for a control looked up by id among a form's controls. */
  function ControlValue(controls: map<string, string>, id: string): (r: string)
    ensures id in controls ==> r == controls[id]
    ensures id !in controls ==> r == ""
  {
    if id in controls then controls[id] else ""
  }
}
