/** Parameter values as the vendor API reports them, and the two ways the code turns them into numbers. */
module Values {
  import opened Wrappers

  /** One parameter value: its text (None for a JSON null) and what Python's float() makes of
      that text (None when float() raises). String-to-number parsing is foreign code, so the
      model takes its outcome as part of the value. */
  datatype Value = Value(text: Option<string>, number: Option<real>)

  /** A device snapshot: parameter code to value, as returned by a parameter read. */
  type Params = map<string, Value>

  /** `x or 0` on a value: absent, null and the empty text are falsy and read as 0. */
  predicate Falsy(v: Option<Value>) {
    v.None? || v.value.text.None? || v.value.text == Some("")
  }

  /** `float(params.get(code, 0) or 0)`: an absent, null or empty value reads as 0; otherwise
      the conversion of its text, None when that conversion raises. */
  function FloatOr0(p: Params, code: string): Option<real> {
    var v := if code in p then Some(p[code]) else None;
    if Falsy(v) then Some(0.0) else v.value.number
  }

  /** `parseFloat(data[code]) || 0` in the page script: anything that does not convert
      (absent, null, empty, not a number) reads as 0. */
  function JsFloat(p: Params, code: string): real {
    if code in p && p[code].text.Some? && p[code].number.Some? then p[code].number.value else 0.0
  }

  /** `params.get(code)`: the text of a value, None when the code is absent or its value is null. */
  function Text(p: Params, code: string): Option<string> {
    if code in p then p[code].text else None
  }
}
