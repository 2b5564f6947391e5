/**
 * Values shared by the server routes: optional database columns, the outcome
 * of a database query, the JSON replies of the upload and delete routes and
 * the two shapes of a `profils` row (the one the upload route inserts and the
 * one a `SELECT *` returns).
 */
module Records {

  datatype Option<T> = None | Some(value: T)

  /** The callback outcome of one database query: `err` set, or a result. */
  datatype QueryResult<T> = QueryFailed(error: string) | QueryOk(value: T)

  /** A JSON reply `{ success, message?, redirectUrl? }` sent with an HTTP status. */
  datatype JsonReply = JsonReply(status: nat, success: bool, message: Option<string>, redirectUrl: Option<string>)

  /** `res.status(status).json({ success: false, message })` */
  function FailureReply(status: nat, message: string): JsonReply
  {
    JsonReply(status, false, Some(message), None)
  }

  /** The columns the upload route passes to `INSERT INTO profils`. */
  datatype NewProfile = NewProfile(logoPath: string, qrPath: string, contactType: Option<string>, contactValue: Option<string>)

  /** A row of `SELECT * FROM profils`; `id` and `created_at` come from the database. */
  datatype ProfileRow = ProfileRow(id: nat, logoPath: string, qrPath: string,
                                   contactType: Option<string>, contactValue: Option<string>,
                                   createdAt: string)

  /** JavaScript truthiness of a nullable string column: present and not empty. */
  predicate Truthy(column: Option<string>)
  {
    column.Some? && column.value != ""
  }

  /** The row the database holds for an inserted profile, given the id and timestamp it assigned. */
  function StoredRow(p: NewProfile, id: nat, createdAt: string): ProfileRow
  {
    ProfileRow(id, p.logoPath, p.qrPath, p.contactType, p.contactValue, createdAt)
  }
}
