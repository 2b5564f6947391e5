/**
 * The public profile route `GET /profil/:id`: the 404 rule, the image sources
 * and the contact link, whose href is a per-type prefix followed by the stored
 * contact value (which is neither checked nor escaped).
 */
module ProfilePage {
  import opened Records
  import opened Text
  import Upload

  const InstagramPrefix := "https://instagram.com/"
  const SnapchatPrefix := "https://www.snapchat.com/add/"
  const PhonePrefix := "tel:"
  const EmailPrefix := "mailto:"
  const NotFoundText := "Profil non trouvé."
  const UploadsPath := "/uploads/"

  predicate KnownType(contactType: string)
  {
    contactType in {"instagram", "snapchat", "phone", "email", "link"}
  }

  /**
   * The prefix table as its authors intended it: a per-type scheme, `link`
   * values that do not start with "http" get "https://", any other type "".
   */
  function ContactPrefix(contactType: string, contactValue: string): (prefix: string)
    ensures contactType == "instagram" ==> prefix == "https://instagram.com/"
    ensures contactType == "snapchat" ==> prefix == "https://www.snapchat.com/add/"
    ensures contactType == "phone" ==> prefix == "tel:"
    ensures contactType == "email" ==> prefix == "mailto:"
    ensures contactType == "link" ==> prefix == (if StartsWith(contactValue, "http") then "" else "https://")
    ensures !KnownType(contactType) ==> prefix == ""
  {
    match contactType
    case "instagram" => InstagramPrefix
    case "snapchat" => SnapchatPrefix
    case "phone" => PhonePrefix
    case "email" => EmailPrefix
    case "link" => if StartsWith(contactValue, "http") then "" else "https://"
    case _ => ""
  }

  /** The contact block of a profile page: the type and value shown, and the link's href. */
  datatype ContactLink = ContactLink(contactType: string, contactValue: string, href: string)

  /** `contactHtml`: empty unless both contact columns are non-empty. */
  function ContactBlock(row: ProfileRow): (block: Option<ContactLink>)
    ensures block.Some? <==> Truthy(row.contactType) && Truthy(row.contactValue)
    ensures block.Some? ==> block.value.contactType == row.contactType.value
                            && block.value.contactValue == row.contactValue.value
                            && block.value.href == ContactPrefix(row.contactType.value, row.contactValue.value)
                                                   + row.contactValue.value
                            && EndsWith(block.value.href, row.contactValue.value)
  {
    if Truthy(row.contactType) && Truthy(row.contactValue) then
      var t, v := row.contactType.value, row.contactValue.value;
      var href := ContactPrefix(t, v) + v;
      assert href[|href| - |v|..] == v;
      Some(ContactLink(t, v, href))
    else None
  }

  /** Every href of a known contact type carries that type's scheme. */
  lemma ContactHrefScheme(row: ProfileRow)
    requires ContactBlock(row).Some? && KnownType(row.contactType.value)
    ensures var link := ContactBlock(row).value;
            match link.contactType
            case "instagram" => StartsWith(link.href, "https://instagram.com/")
            case "snapchat" => StartsWith(link.href, "https://www.snapchat.com/add/")
            case "phone" => StartsWith(link.href, "tel:")
            case "email" => StartsWith(link.href, "mailto:")
            case _ => StartsWith(link.href, "http")
  {
    var link := ContactBlock(row).value;
    var p := ContactPrefix(link.contactType, link.contactValue);
    assert link.href == p + link.contactValue;
    if link.contactType == "link" && p == "" {
      assert StartsWith(link.contactValue, "http");
      assert link.href[..4] == link.contactValue[..4];
    } else {
      assert link.href[..|p|] == p;
    }
  }

  /** What the profile page shows. */
  datatype ProfileView = ProfileView(logoSrc: string, qrSrc: string, contact: Option<ContactLink>)

  function ViewOf(row: ProfileRow): ProfileView
  {
    ProfileView(UploadsPath + row.logoPath, UploadsPath + row.qrPath, ContactBlock(row))
  }

  datatype ProfileReply = NotFound(text: string) | Page(view: ProfileView)
  {
    function Status(): nat
    {
      if NotFound? then 404 else 200
    }
  }

  /** The callback of `SELECT * FROM profils WHERE id = ?`. */
  function LookupProfile(result: QueryResult<seq<ProfileRow>>): (reply: ProfileReply)
    ensures reply.Status() == 404 <==> result.QueryFailed? || |result.value| == 0
    ensures reply.NotFound? ==> reply.text == NotFoundText
    ensures reply.Page? ==> reply.view == ViewOf(result.value[0])
  {
    if result.QueryFailed? || |result.value| == 0 then NotFound(NotFoundText)
    else Page(ViewOf(result.value[0]))
  }

  /**
   * What the upload route stores is what the profile page shows: the stored
   * files are the page's images, and a contact link appears exactly when both
   * contact fields were filled in, with the type's prefix before the value.
   */
  lemma UploadThenView(outcome: Upload.MulterOutcome, body: Upload.UploadBody, id: nat, createdAt: string)
    requires Upload.HandleUpload(outcome, body, None).issued.Some?
    ensures var p := Upload.HandleUpload(outcome, body, None).issued.value;
            var reply := LookupProfile(QueryOk([StoredRow(p, id, createdAt)]));
            && reply.Page?
            && reply.view.logoSrc == UploadsPath + outcome.files.value.logo[0].filename
            && reply.view.qrSrc == UploadsPath + outcome.files.value.qr[0].filename
            && (reply.view.contact.Some? <==> Truthy(body.contactType) && Truthy(body.contactValue))
            && (reply.view.contact.Some? ==>
                  reply.view.contact.value.href
                  == ContactPrefix(body.contactType.value, body.contactValue.value) + body.contactValue.value)
  {
    var p := Upload.HandleUpload(outcome, body, None).issued.value;
    assert Upload.DecideUpload(outcome, body) == Upload.Insert(p);
  }

  /** A phone contact whose insert succeeded shows a `tel:` link to the number. */
  lemma PhoneUploadShowsTelLink(outcome: Upload.MulterOutcome, number: string, id: nat, createdAt: string)
    requires number != ""
    requires Upload.HandleUpload(outcome, Upload.UploadBody(Some("phone"), Some(number)), None).issued.Some?
    ensures var p := Upload.HandleUpload(outcome, Upload.UploadBody(Some("phone"), Some(number)), None).issued.value;
            var reply := LookupProfile(QueryOk([StoredRow(p, id, createdAt)]));
            reply.Page? && reply.view.contact.Some? && reply.view.contact.value.href == "tel:" + number
  {
    UploadThenView(outcome, Upload.UploadBody(Some("phone"), Some(number)), id, createdAt);
  }

  // ---------------------------------------------------------------------------
  // The prefix lookup as written

  /** The names an object literal inherits from `Object.prototype`. */
  const InheritedKeys: set<string> := {
    "constructor", "__defineGetter__", "__defineSetter__", "hasOwnProperty",
    "__lookupGetter__", "__lookupSetter__", "isPrototypeOf", "propertyIsEnumerable",
    "toString", "valueOf", "toLocaleString", "__proto__"
  }

  /**
   * `{ instagram: …, link: … }[contactType] || ''` rendered by a template
   * literal. Indexing the literal also finds the inherited members of
   * `Object.prototype`: a built-in method renders as its native source text
   * and `__proto__` as "[object Object]".
   */
  function ContactPrefixAsWritten(contactType: string, contactValue: string): (prefix: string)
    ensures contactType !in InheritedKeys ==> prefix == ContactPrefix(contactType, contactValue)
  {
    if KnownType(contactType) then ContactPrefix(contactType, contactValue)
    else if contactType == "__proto__" then "[object Object]"
    else if contactType == "constructor" then "function Object() { [native code] }"
    else if contactType in InheritedKeys then "function " + contactType + "() { [native code] }"
    else ""
  }

  /** A stored contact type "toString" yields a link that starts with JavaScript source text, not "". */
  lemma InheritedKeyPrefixCounterexample()
    ensures ContactPrefixAsWritten("toString", "alice") == "function toString() { [native code] }"
    ensures ContactPrefix("toString", "alice") == ""
    ensures ContactPrefixAsWritten("toString", "alice") + "alice" != ContactPrefix("toString", "alice") + "alice"
  {
  }

  /** The as-written lookup departs from the intended table exactly on the inherited names. */
  lemma AsWrittenDiffersOnlyOnInheritedKeys(contactType: string, contactValue: string)
    ensures ContactPrefixAsWritten(contactType, contactValue) != ContactPrefix(contactType, contactValue)
            <==> contactType in InheritedKeys
  {
    if contactType in InheritedKeys {
      assert !KnownType(contactType);
      var w := ContactPrefixAsWritten(contactType, contactValue);
      assert w != "" by {
        if contactType == "__proto__" { assert w[0] == '['; }
        else { assert w[0] == 'f'; }
      }
    }
  }
}
