/**
 * The upload side of the server: the image filter, the size limit and the
 * naming rule the multipart middleware is configured with, that middleware's
 * outcome as the app configures it, and the `POST /upload` route's two
 * handlers, which turn that outcome and the form fields into a reply and at
 * most one INSERT.
 */
module Upload {
  import opened Records
  import opened Text

  /** `limits.fileSize`: 5 MiB per file. */
  const MaxFileSize: nat := 1024 * 1024 * 5

  const UnsupportedTypeMessage := "Type de fichier non supporté. Seules les images sont autorisées."
  const MissingFilesMessage := "Veuillez téléverser un logo et un code QR."
  const InsertFailedMessage := "Erreur serveur lors de l'enregistrement."
  const ConfirmationUrl := "/confirmation"
  /** The middleware's own messages for a file under an undeclared field and for an oversized file. */
  const UnexpectedFieldMessage := "Unexpected field"
  const FileTooLargeMessage := "File too large"

  // ---------------------------------------------------------------------------
  // Middleware configuration

  datatype FilterVerdict = Accepted | Rejected(message: string)

  /** `fileFilter`: only declared image media types are let through. */
  function FileFilter(mimetype: string): (v: FilterVerdict)
    ensures v.Accepted? <==> StartsWith(mimetype, "image/")
    ensures v.Rejected? ==> v.message == UnsupportedTypeMessage
  {
    if StartsWith(mimetype, "image/") then Accepted else Rejected(UnsupportedTypeMessage)
  }

  /** Whether a file of `size` bytes stays within `limits.fileSize`. */
  function WithinSizeLimit(size: nat): (ok: bool)
    ensures ok <==> size <= 5242880
  {
    size <= MaxFileSize
  }

  /** The `filename` rule: the clock reading in milliseconds, a dash, the client's file name. */
  function StoredFilename(receivedAt: nat, originalName: string): (name: string)
    ensures EndsWith(name, "-" + originalName)
    ensures StartsWith(name, DecimalString(receivedAt))
  {
    var name := DecimalString(receivedAt) + "-" + originalName;
    assert name[|name| - |"-" + originalName|..] == "-" + originalName;
    name
  }

  /** Recovers the clock reading and the client's file name from a stored file name. */
  function SplitStoredFilename(name: string): (parts: Option<(nat, string)>)
  {
    var k := FirstDash(name);
    if 0 < k < |name| && AllDigits(name[..k]) then Some((DecimalValue(name[..k]), name[k + 1..]))
    else None
  }

  /** A stored file name determines the clock reading and the original name it was made from. */
  lemma StoredFilenameRoundTrip(receivedAt: nat, originalName: string)
    ensures SplitStoredFilename(StoredFilename(receivedAt, originalName)) == Some((receivedAt, originalName))
  {
    var digits := DecimalString(receivedAt);
    var name := StoredFilename(receivedAt, originalName);
    FirstDashAfterDigits(digits, originalName);
    assert name[..|digits|] == digits;
    assert name[|digits| + 1..] == originalName;
    DecimalRoundTrip(receivedAt);
  }

  /** Two uploads get the same stored file name exactly when they share the clock reading and the name. */
  lemma StoredFilenameCollision(t1: nat, n1: string, t2: nat, n2: string)
    ensures StoredFilename(t1, n1) == StoredFilename(t2, n2) <==> t1 == t2 && n1 == n2
  {
    if StoredFilename(t1, n1) == StoredFilename(t2, n2) {
      StoredFilenameRoundTrip(t1, n1);
      StoredFilenameRoundTrip(t2, n2);
    }
  }

  // ---------------------------------------------------------------------------
  // The middleware's outcome

  /** One file part of the multipart request, with the clock reading taken when it is named. */
  datatype FilePart = FilePart(fieldname: string, originalname: string, mimetype: string, size: nat, receivedAt: nat)

  /** A file written to the uploads directory. */
  datatype StoredFile = StoredFile(originalname: string, mimetype: string, size: nat, filename: string)

  /** `req.files` for `fields([{ name: 'logo' }, { name: 'qr' }])`; an empty sequence is an absent key. */
  datatype FileFields = FileFields(logo: seq<StoredFile>, qr: seq<StoredFile>)

  /** The middleware either calls back with an error or fills `req.files` (which may be unset). */
  datatype MulterOutcome = MulterFailed(message: string) | MulterDone(files: Option<FileFields>)

  /** Why the configured middleware refuses a part: undeclared field, then the filter, then the size. */
  function PartError(p: FilePart): (e: Option<string>)
    ensures e.None? <==> (p.fieldname == "logo" || p.fieldname == "qr")
                         && StartsWith(p.mimetype, "image/") && p.size <= 5242880
    ensures e.Some? && (p.fieldname == "logo" || p.fieldname == "qr") && !StartsWith(p.mimetype, "image/")
            ==> e.value == UnsupportedTypeMessage
  {
    if p.fieldname != "logo" && p.fieldname != "qr" then Some(UnexpectedFieldMessage)
    else match FileFilter(p.mimetype)
      case Rejected(m) => Some(m)
      case Accepted => if WithinSizeLimit(p.size) then None else Some(FileTooLargeMessage)
  }

  function Store(p: FilePart): StoredFile
  {
    StoredFile(p.originalname, p.mimetype, p.size, StoredFilename(p.receivedAt, p.originalname))
  }

  /** What a stored file satisfies once the configured middleware kept it. */
  ghost predicate GoodStoredFile(f: StoredFile)
  {
    StartsWith(f.mimetype, "image/") && f.size <= MaxFileSize
    && exists t: nat :: f.filename == StoredFilename(t, f.originalname)
  }

  /** The middleware drops a file part without a file name (an empty file input) before any check. */
  predicate Named(p: FilePart)
  {
    p.originalname != ""
  }

  /** The files stored for `field`: one per named part of that field, in request order. */
  function StoredOf(parts: seq<FilePart>, field: string): (files: seq<StoredFile>)
    ensures |files| == 0 <==> forall i :: 0 <= i < |parts| ==> parts[i].fieldname != field || !Named(parts[i])
    decreases |parts|
  {
    if parts == [] then []
    else
      assert forall i :: 0 < i < |parts| ==> parts[i] == parts[1..][i - 1];
      (if parts[0].fieldname == field && Named(parts[0]) then [Store(parts[0])] else []) + StoredOf(parts[1..], field)
  }

  /** Whether `parts[i]` is the first named part sent under `field`. */
  predicate FirstPartOf(parts: seq<FilePart>, field: string, i: nat)
  {
    i < |parts| && parts[i].fieldname == field && Named(parts[i])
    && forall k :: 0 <= k < i ==> parts[k].fieldname != field || !Named(parts[k])
  }

  /** The first file stored for a field comes from the first named part of that field. */
  lemma {:induction false} StoredOfStartsWithFirstPart(parts: seq<FilePart>, field: string, i: nat)
    requires FirstPartOf(parts, field, i)
    ensures StoredOf(parts, field) != [] && StoredOf(parts, field)[0] == Store(parts[i])
    decreases i
  {
    if i > 0 {
      assert forall k :: 0 <= k < i - 1 ==> parts[1..][k] == parts[k + 1];
      StoredOfStartsWithFirstPart(parts[1..], field, i - 1);
    }
  }

  /** The middleware as server.js configures it, run over the request's file parts in order. */
  function ConfiguredMulter(parts: seq<FilePart>): (r: MulterOutcome)
    ensures r.MulterDone? <==> forall i :: 0 <= i < |parts| && Named(parts[i]) ==> PartError(parts[i]).None?
    ensures r.MulterFailed? ==> exists i :: 0 <= i < |parts| && Named(parts[i]) && PartError(parts[i]) == Some(r.message)
    ensures r.MulterDone? ==> r.files == Some(FileFields(StoredOf(parts, "logo"), StoredOf(parts, "qr")))
    decreases |parts|
  {
    if parts == [] then MulterDone(Some(FileFields([], [])))
    else
      var p := parts[0];
      var rest := ConfiguredMulter(parts[1..]);
      assert forall i :: 0 <= i < |parts[1..]| ==> parts[1..][i] == parts[i + 1];
      assert forall i :: 0 < i < |parts| ==> parts[i] == parts[1..][i - 1];
      if !Named(p) then
        assert StoredOf(parts, "logo") == StoredOf(parts[1..], "logo");
        assert StoredOf(parts, "qr") == StoredOf(parts[1..], "qr");
        rest
      else match PartError(p)
        case Some(m) => MulterFailed(m)
        case None =>
          if rest.MulterFailed? then rest
          else
            var f := Store(p);
            var fs := rest.files.value;
            assert p.fieldname == "logo" ==> StoredOf(parts, "logo") == [f] + fs.logo && StoredOf(parts, "qr") == fs.qr;
            assert p.fieldname == "qr" ==> StoredOf(parts, "logo") == fs.logo && StoredOf(parts, "qr") == [f] + fs.qr;
            if p.fieldname == "logo" then MulterDone(Some(FileFields([f] + fs.logo, fs.qr)))
            else MulterDone(Some(FileFields(fs.logo, [f] + fs.qr)))
  }

  /** Every file the configured middleware stores is an image within the limit, named by the naming rule. */
  lemma {:induction false} StoredFilesAreGoodImages(parts: seq<FilePart>, field: string)
    requires ConfiguredMulter(parts).MulterDone?
    ensures forall j :: 0 <= j < |StoredOf(parts, field)| ==> GoodStoredFile(StoredOf(parts, field)[j])
    decreases |parts|
  {
    if parts != [] {
      var p := parts[0];
      assert Named(p) ==> PartError(p).None?;
      assert forall i :: 0 <= i < |parts[1..]| ==> parts[1..][i] == parts[i + 1];
      StoredFilesAreGoodImages(parts[1..], field);
      if p.fieldname == field && Named(p) {
        var f := Store(p);
        assert f.filename == StoredFilename(p.receivedAt, f.originalname);
        assert GoodStoredFile(f);
        assert StoredOf(parts, field) == [f] + StoredOf(parts[1..], field);
      } else {
        assert StoredOf(parts, field) == StoredOf(parts[1..], field);
      }
    }
  }

  /** If the request carries a named part that is not an image, the middleware reports an error. */
  lemma NonImagePartFails(parts: seq<FilePart>, i: nat)
    requires i < |parts| && Named(parts[i]) && !StartsWith(parts[i].mimetype, "image/")
    ensures ConfiguredMulter(parts).MulterFailed?
  {
    assert PartError(parts[i]).Some?;
  }

  // ---------------------------------------------------------------------------
  // The route

  /** The text fields of the form; absent fields are `None`. */
  datatype UploadBody = UploadBody(contactType: Option<string>, contactValue: Option<string>)

  /** `field || null`: an absent or empty field becomes SQL NULL. */
  function OrNull(field: Option<string>): (column: Option<string>)
    ensures column.Some? <==> Truthy(field)
    ensures column.Some? ==> column == field
  {
    if Truthy(field) then field else None
  }

  predicate MissingFiles(files: Option<FileFields>)
  {
    files.None? || |files.value.logo| == 0 || |files.value.qr| == 0
  }

  datatype UploadDecision = Respond(reply: JsonReply) | Insert(row: NewProfile)

  /** The middleware callback and the first lines of the second handler, up to the query. */
  function DecideUpload(outcome: MulterOutcome, body: UploadBody): (d: UploadDecision)
    ensures outcome.MulterFailed? ==> d == Respond(FailureReply(400, outcome.message))
    ensures outcome.MulterDone? && MissingFiles(outcome.files) ==> d == Respond(FailureReply(400, MissingFilesMessage))
    ensures d.Insert? <==> outcome.MulterDone? && !MissingFiles(outcome.files)
    ensures d.Insert? ==> d.row.logoPath == outcome.files.value.logo[0].filename
                          && d.row.qrPath == outcome.files.value.qr[0].filename
                          && d.row.contactType == OrNull(body.contactType)
                          && d.row.contactValue == OrNull(body.contactValue)
  {
    match outcome
    case MulterFailed(m) => Respond(FailureReply(400, m))
    case MulterDone(files) =>
      if MissingFiles(files) then Respond(FailureReply(400, MissingFilesMessage))
      else Insert(NewProfile(files.value.logo[0].filename, files.value.qr[0].filename,
                             OrNull(body.contactType), OrNull(body.contactValue)))
  }

  /** The insert query's callback: an error is a server error, otherwise a redirect to the confirmation page. */
  function ReplyAfterInsert(insertError: Option<string>): (reply: JsonReply)
    ensures reply.status == (if insertError.Some? then 500 else 200)
    ensures reply.success <==> insertError.None?
    ensures reply.success ==> reply.redirectUrl == Some(ConfirmationUrl) && reply.message.None?
    ensures !reply.success ==> reply.message == Some(InsertFailedMessage) && reply.redirectUrl.None?
  {
    if insertError.Some? then FailureReply(500, InsertFailedMessage)
    else JsonReply(200, true, None, Some(ConfirmationUrl))
  }

  /**
   * The reply sent and the row the INSERT was issued with, if any. The row is
   * stored only when that INSERT succeeds.
   */
  datatype UploadResult = UploadResult(reply: JsonReply, issued: Option<NewProfile>)

  /** The whole route, given the middleware outcome, the form fields and the insert's error, if any. */
  function HandleUpload(outcome: MulterOutcome, body: UploadBody, insertError: Option<string>): (r: UploadResult)
    ensures r.reply.success <==> r.reply.status == 200
    ensures r.reply.status == 400 <==> r.issued.None?
    ensures r.reply.status == 500 <==> r.issued.Some? && insertError.Some?
    ensures r.reply.status == 200 <==> r.issued.Some? && insertError.None?
    ensures r.reply.status in {200, 400, 500}
    ensures outcome.MulterFailed? ==> r.reply == FailureReply(400, outcome.message)
    ensures r.issued.Some? <==> outcome.MulterDone? && !MissingFiles(outcome.files)
    ensures r.issued.Some? ==> DecideUpload(outcome, body) == Insert(r.issued.value)
                               && r.reply == ReplyAfterInsert(insertError)
  {
    match DecideUpload(outcome, body)
    case Respond(reply) => UploadResult(reply, None)
    case Insert(row) => UploadResult(ReplyAfterInsert(insertError), Some(row))
  }

  /** A request with a named non-image file part gets 400 and issues no INSERT. */
  lemma NonImageUploadRejected(parts: seq<FilePart>, i: nat, body: UploadBody, insertError: Option<string>)
    requires i < |parts| && Named(parts[i]) && !StartsWith(parts[i].mimetype, "image/")
    ensures HandleUpload(ConfiguredMulter(parts), body, insertError).reply.status == 400
    ensures HandleUpload(ConfiguredMulter(parts), body, insertError).issued.None?
  {
    NonImagePartFails(parts, i);
  }

  /**
   * The INSERT issued after the configured middleware names the files stored
   * for the first named logo part and the first named QR part, both images.
   */
  lemma InsertedRowReferencesImages(parts: seq<FilePart>, body: UploadBody, insertError: Option<string>)
    requires HandleUpload(ConfiguredMulter(parts), body, insertError).issued.Some?
    ensures var row := HandleUpload(ConfiguredMulter(parts), body, insertError).issued.value;
            var files := ConfiguredMulter(parts).files.value;
            row.logoPath == files.logo[0].filename && GoodStoredFile(files.logo[0])
            && row.qrPath == files.qr[0].filename && GoodStoredFile(files.qr[0])
    ensures var row := HandleUpload(ConfiguredMulter(parts), body, insertError).issued.value;
            forall i: nat :: FirstPartOf(parts, "logo", i) ==> row.logoPath == StoredFilename(parts[i].receivedAt, parts[i].originalname)
    ensures var row := HandleUpload(ConfiguredMulter(parts), body, insertError).issued.value;
            forall i: nat :: FirstPartOf(parts, "qr", i) ==> row.qrPath == StoredFilename(parts[i].receivedAt, parts[i].originalname)
  {
    StoredFilesAreGoodImages(parts, "logo");
    StoredFilesAreGoodImages(parts, "qr");
    forall i: nat | FirstPartOf(parts, "logo", i)
      ensures StoredOf(parts, "logo")[0] == Store(parts[i])
    {
      StoredOfStartsWithFirstPart(parts, "logo", i);
    }
    forall i: nat | FirstPartOf(parts, "qr", i)
      ensures StoredOf(parts, "qr")[0] == Store(parts[i])
    {
      StoredOfStartsWithFirstPart(parts, "qr", i);
    }
  }
}
