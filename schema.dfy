/**
 * Row shapes of the hosted store: the `road_damage` and `profiles` tables and the `app_role`
 * enumeration, plus the JSON values the `metadata` column holds.
 */
module Schema {
  import opened Wrappers

  /** A JSON value, as stored in a `json` column. */
  datatype Json =
    | JNull
    | JBool(b: bool)
    | JNum(n: real)
    | JStr(s: string)
    | JArr(items: seq<Json>)
    | JObj(fields: map<string, Json>)

  /** `value?.key`: the field `key` of an object, absent for every other value. */
  function Field(value: Json, key: string): (r: Option<Json>)
    ensures r.Some? <==> value.JObj? && key in value.fields
  {
    if value.JObj? && key in value.fields then Some(value.fields[key]) else None
  }

  /** Identity of a `road_damage` row: opaque, generated by the store on insert. */
  type RowId = string

  /** One row of `road_damage`; nullable columns are options, a null `metadata` is JNull. */
  datatype DamageRow = DamageRow(
    id: RowId,
    autobahnRegion: Option<string>,
    city: Option<string>,
    confidenceScore: Option<real>,
    damageType: string,
    detectedAt: string,
    district: Option<string>,
    imageUrl: Option<string>,
    latitude: real,
    longitude: real,
    metadata: Json,
    municipality: Option<string>,
    roadCategory: string,
    roadName: Option<string>,
    severity: string,
    state: Option<string>)

  /** The `app_role` enumeration. */
  datatype AppRole = Federal | State | District | Municipal | Admin

  function RoleName(role: AppRole): string
  {
    match role
    case Federal => "federal"
    case State => "state"
    case District => "district"
    case Municipal => "municipal"
    case Admin => "admin"
  }

  /** The store's cast of a string to `app_role`: only the five labels are accepted. */
  function ParseRole(name: string): (r: Option<AppRole>)
    ensures r.Some? ==> RoleName(r.value) == name
  {
    if name == "federal" then Some(Federal)
    else if name == "state" then Some(State)
    else if name == "district" then Some(District)
    else if name == "municipal" then Some(Municipal)
    else if name == "admin" then Some(Admin)
    else None
  }

  /** Every role's label is read back as that role. */
  lemma ParseRoleName(role: AppRole)
    ensures ParseRole(RoleName(role)) == Some(role)
  {
  }

  type UserId = string

  /** `Math.abs` on a coordinate difference. */
  function Abs(x: real): real { if x < 0.0 then -x else x }
}
