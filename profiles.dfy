/**
 * The application profile (`AppUserProfile`) and the defensive conversion of an
 * untyped `app_users` row into it, as `loadProfile` performs it.
 */
module Profiles {
  import opened JsValues

  /** A row as the backend returns it for `select('*')`: column name to value.
      Columns other than the seven below may be present and are ignored. */
  type Row = map<string, Value>

  /** `row.column`: `None` when the row has no such key. */
  function Col(row: Row, column: string): Option<Value> {
    if column in row then Some(row[column]) else None
  }

  /** The profile kept in the session state. `userId` and `email` are strings;
      the five nullable fields hold `Null` or whatever the row carried, since the
      type assertions on them check nothing at run time. */
  datatype Profile = Profile(
    userId: string,
    email: string,
    displayName: Value,
    role: Value,
    centerId: Value,
    isSuperAdmin: Value,
    leadVendor: Value)

  /** The columns the conversion reads. */
  const Columns: set<string> :=
    {"user_id", "email", "display_name", "role", "center_id", "is_super_admin", "lead_vendor"}

  /** A nullable profile field `v` taken from `column`: `null` when the column is
      missing or null, the row's own value otherwise. */
  predicate DefaultsToNull(row: Row, column: string, v: Value) {
    (Nullish(Col(row, column)) ==> v == Null) &&
    (!Nullish(Col(row, column)) ==> v == row[column])
  }

  /** The row-to-profile conversion. Every field defaults on its own; a string
      `user_id` and a string `email` are copied, a missing or null `email` gives
      the empty string. */
  function CoerceRow(row: Row): (p: Profile)
    ensures Col(row, "user_id").Some? && row["user_id"].Str? ==> p.userId == row["user_id"].s
    ensures Nullish(Col(row, "email")) ==> p.email == ""
    ensures Col(row, "email").Some? && row["email"].Str? ==> p.email == row["email"].s
    ensures DefaultsToNull(row, "display_name", p.displayName)
    ensures DefaultsToNull(row, "role", p.role)
    ensures DefaultsToNull(row, "center_id", p.centerId)
    ensures DefaultsToNull(row, "is_super_admin", p.isSuperAdmin)
    ensures DefaultsToNull(row, "lead_vendor", p.leadVendor)
  {
    Profile(
      JsString(Col(row, "user_id")),
      JsString(Some(Coalesce(Col(row, "email"), Str("")))),
      Coalesce(Col(row, "display_name"), Null),
      Coalesce(Col(row, "role"), Null),
      Coalesce(Col(row, "center_id"), Null),
      Coalesce(Col(row, "is_super_admin"), Null),
      Coalesce(Col(row, "lead_vendor"), Null))
  }

  /** The seven-column row that stores profile `p` (the inverse direction). */
  function ProfileRow(p: Profile): (row: Row)
    ensures row.Keys == Columns
  {
    map["user_id" := Str(p.userId), "email" := Str(p.email),
        "display_name" := p.displayName, "role" := p.role, "center_id" := p.centerId,
        "is_super_admin" := p.isSuperAdmin, "lead_vendor" := p.leadVendor]
  }

  /** A row in the shape the table stores: string `user_id` and `email`, and
      every nullable column present (possibly null). */
  predicate StoredRow(row: Row) {
    Columns <= row.Keys && row["user_id"].Str? && row["email"].Str?
  }

  /** The part of a row the conversion reads. */
  function Project(row: Row): (r: Row)
    ensures r.Keys == row.Keys * Columns
  {
    map k | k in row && k in Columns :: row[k]
  }

  /** Converting the row that stores a profile gives that profile back. */
  lemma CoerceProfileRow(p: Profile)
    ensures CoerceRow(ProfileRow(p)) == p
  {
  }

  /** Converting a stored row loses nothing the conversion reads. */
  lemma StoredRowRoundTrip(row: Row)
    requires StoredRow(row)
    ensures ProfileRow(CoerceRow(row)) == Project(row)
  {
  }

  /** Only the seven columns matter: extra columns of `select('*')` are ignored. */
  lemma CoerceReadsOnlyColumns(row: Row)
    ensures CoerceRow(Project(row)) == CoerceRow(row)
  {
  }

  /** For every column but `user_id`, a null value and a missing key convert alike;
      for `user_id` they do not (`String(null)` is `"null"`, `String(undefined)`
      is `"undefined"`). */
  lemma NullAndMissingAgree(row: Row, column: string)
    requires column in Columns
    ensures column != "user_id" ==> CoerceRow(row[column := Null]) == CoerceRow(row - {column})
    ensures column == "user_id" ==>
      CoerceRow(row[column := Null]).userId == "null" &&
      CoerceRow(row - {column}).userId == "undefined"
  {
  }
}
