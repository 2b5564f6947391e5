/**
 * The administrator routes: `GET /admin` renders one list entry per row of
 * `SELECT * FROM profils ORDER BY created_at DESC`, in the order the rows
 * arrive, and `DELETE /profils/:id` maps the delete query's outcome to a
 * status.
 */
module Admin {
  import opened Records
  import opened Text

  const Unspecified := "Non spécifié"
  const ServerErrorText := "Erreur serveur."
  const EntryIdPrefix := "profil-"
  const DeleteFailedMessage := "Erreur serveur lors de la suppression."
  const DeleteNotFoundMessage := "Profil non trouvé."
  const DeletedMessage := "Profil supprimé avec succès."

  /** One `<li>` of the admin list, by the values it interpolates. */
  datatype AdminEntry = AdminEntry(elementId: string, idText: string, createdAt: string,
                                   logoSrc: string, qrSrc: string,
                                   contactLabel: string, valueLabel: string,
                                   viewHref: string, deleteId: string)

  /** `column || 'Non spécifié'` */
  function OrUnspecified(column: Option<string>): (shown: string)
    ensures shown != ""
    ensures Truthy(column) ==> shown == column.value
    ensures !Truthy(column) ==> shown == "Non spécifié"
  {
    if Truthy(column) then column.value else Unspecified
  }

  /** The element id `profil-<id>`, read back: the id it names, if it has that shape. */
  function EntryIdValue(elementId: string): Option<nat>
  {
    if StartsWith(elementId, EntryIdPrefix) && |elementId| > |EntryIdPrefix| && AllDigits(elementId[|EntryIdPrefix|..])
    then Some(DecimalValue(elementId[|EntryIdPrefix|..]))
    else None
  }

  /** The entry for one row: it names the row's id, shows its images, and falls back to `Non spécifié` for a blank contact column. */
  function EntryFor(row: ProfileRow): (e: AdminEntry)
    ensures EntryIdValue(e.elementId) == Some(row.id)
    ensures e.idText == e.deleteId == DecimalString(row.id)
    ensures e.viewHref == "/profil/" + e.idText
    ensures e.contactLabel != "" && e.valueLabel != ""
    ensures Truthy(row.contactType) ==> e.contactLabel == row.contactType.value
    ensures Truthy(row.contactValue) ==> e.valueLabel == row.contactValue.value
    ensures !Truthy(row.contactType) ==> e.contactLabel == "Non spécifié"
    ensures !Truthy(row.contactValue) ==> e.valueLabel == "Non spécifié"
    ensures e.logoSrc == "/uploads/" + row.logoPath && e.qrSrc == "/uploads/" + row.qrPath
    ensures e.createdAt == row.createdAt
  {
    var id := DecimalString(row.id);
    var e := AdminEntry(EntryIdPrefix + id, id, row.createdAt,
                        "/uploads/" + row.logoPath, "/uploads/" + row.qrPath,
                        OrUnspecified(row.contactType), OrUnspecified(row.contactValue),
                        "/profil/" + id, id);
    assert e.elementId[|EntryIdPrefix|..] == id;
    DecimalRoundTrip(row.id);
    e
  }

  /** The `results.forEach` loop: appends one entry per row, in row order. */
  method RenderEntries(rows: seq<ProfileRow>) returns (entries: seq<AdminEntry>)
    ensures |entries| == |rows|
    ensures forall i :: 0 <= i < |rows| ==> entries[i] == EntryFor(rows[i])
  {
    entries := [];
    var i := 0;
    while i < |rows|
      invariant 0 <= i <= |rows|
      invariant |entries| == i
      invariant forall k :: 0 <= k < i ==> entries[k] == EntryFor(rows[k])
    {
      entries := entries + [EntryFor(rows[i])];
      i := i + 1;
    }
  }

  datatype AdminReply = AdminError(text: string) | AdminList(entries: seq<AdminEntry>)
  {
    function Status(): nat
    {
      if AdminError? then 500 else 200
    }
  }

  /** The callback of the list query: 500 on error, otherwise the rendered list. */
  method RenderAdmin(result: QueryResult<seq<ProfileRow>>) returns (reply: AdminReply)
    ensures reply.Status() == 500 <==> result.QueryFailed?
    ensures reply.AdminError? ==> reply.text == ServerErrorText
    ensures reply.AdminList? ==> |reply.entries| == |result.value|
                                 && forall i :: 0 <= i < |result.value| ==> reply.entries[i] == EntryFor(result.value[i])
  {
    match result
    case QueryFailed(_) =>
      reply := AdminError(ServerErrorText);
    case QueryOk(rows) =>
      var entries := RenderEntries(rows);
      reply := AdminList(entries);
  }

  /** Rows with distinct ids get `<li>` elements with distinct ids. */
  lemma EntryIdsDistinct(rows: seq<ProfileRow>, entries: seq<AdminEntry>)
    requires |entries| == |rows|
    requires forall i :: 0 <= i < |rows| ==> entries[i] == EntryFor(rows[i])
    requires forall i, j :: 0 <= i < j < |rows| ==> rows[i].id != rows[j].id
    ensures forall i, j :: 0 <= i < j < |entries| ==> entries[i].elementId != entries[j].elementId
  {
    forall i, j | 0 <= i < j < |entries|
      ensures entries[i].elementId != entries[j].elementId
    {
      assert EntryIdValue(entries[i].elementId) == Some(rows[i].id);
      assert EntryIdValue(entries[j].elementId) == Some(rows[j].id);
    }
  }

  /** The callback of `DELETE FROM profils WHERE id = ?`, given `affectedRows` on success. */
  function DeleteReply(result: QueryResult<nat>): (reply: JsonReply)
    ensures reply.status == 500 <==> result.QueryFailed?
    ensures reply.status == 404 <==> result.QueryOk? && result.value == 0
    ensures reply.status == 200 <==> result.QueryOk? && result.value > 0
    ensures reply.success <==> reply.status == 200
    ensures reply.redirectUrl.None? && reply.message.Some?
  {
    match result
    case QueryFailed(_) => FailureReply(500, DeleteFailedMessage)
    case QueryOk(affectedRows) =>
      if affectedRows == 0 then FailureReply(404, DeleteNotFoundMessage)
      else JsonReply(200, true, Some(DeletedMessage), None)
  }
}
