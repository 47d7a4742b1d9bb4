/**
 * Plotly chart specifications as JSON values, with the JavaScript reading
 * rules the theming code relies on: truthiness, optional chaining and object
 * spread.
 */
module PlotlySpec {
  import opened Wrappers

  /** A JSON value. Objects are unordered: key order is not modelled. */
  datatype Json =
    | JNull
    | JBool(b: bool)
    | JNum(n: real)
    | JStr(s: string)
    | JArr(items: seq<Json>)
    | JObj(fields: map<string, Json>)

  /** JavaScript truthiness of a value: null, false, 0 and "" are falsy. */
  predicate Truthy(j: Json) {
    match j
    case JNull => false
    case JBool(b) => b
    case JNum(n) => n != 0.0
    case JStr(s) => s != ""
    case JArr(_) => true
    case JObj(_) => true
  }

  /** Truthiness of a possibly missing value: a missing value is `undefined`, which is falsy. */
  predicate TruthyOpt(j: Option<Json>) {
    j.Some? && Truthy(j.value)
  }

  /** `obj[key]` on an object's fields: None is `undefined`. */
  function Get(m: map<string, Json>, key: string): (r: Option<Json>)
    ensures r.Some? <==> key in m
    ensures key in m ==> r.value == m[key]
  {
    if key in m then Some(m[key]) else None
  }

  /** `m[key]` is present and truthy. */
  predicate TruthyAt(m: map<string, Json>, key: string) {
    TruthyOpt(Get(m, key))
  }

  /** `j?.key`: a property of an object; anything else has no such property. */
  function Member(j: Option<Json>, key: string): (r: Option<Json>)
    ensures r.Some? <==> j.Some? && j.value.JObj? && key in j.value.fields
    ensures r.Some? ==> r.value == j.value.fields[key]
  {
    match j
    case Some(JObj(m)) => Get(m, key)
    case _ => None
  }

  /**
   * Values whose spread `{...v}` this model captures: everything but strings
   * and arrays, which would contribute one key per character or element.
   */
  predicate Spreadable(j: Option<Json>) {
    j.None? || !(j.value.JStr? || j.value.JArr?)
  }

  /** `{...v}`: an object's own fields; `undefined`, null, booleans and numbers contribute none. */
  function Spread(j: Option<Json>): (m: map<string, Json>)
    requires Spreadable(j)
    ensures j.Some? && j.value.JObj? ==> m == j.value.fields
    ensures !(j.Some? && j.value.JObj?) ==> m == map[]
  {
    match j
    case Some(JObj(fields)) => fields
    case _ => map[]
  }

  /** `a || b` on possibly missing values. */
  function Or(a: Option<Json>, b: Json): (r: Json)
    ensures TruthyOpt(a) ==> r == a.value
    ensures !TruthyOpt(a) ==> r == b
  {
    if TruthyOpt(a) then a.value else b
  }

  /** The dark palette shared by both theming routines. */
  const DarkBackground: Json := JStr("rgba(39, 39, 42, 0.8)")
  const LightText: Json := JStr("#e4e4e7")
  const GridGrey: Json := JStr("#3f3f46")
  const MenuBackground: Json := JStr("#27272a")

  /** `{ color: "#e4e4e7" }`. */
  const TextColorOnly: map<string, Json> := map["color" := LightText]

  /** `{ size: 16, color: "#e4e4e7" }`. */
  const TitleFont: map<string, Json> := map["size" := JNum(16.0), "color" := LightText]
}
