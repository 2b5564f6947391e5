/**
 * The upload form's script: a whitelist of image types, `validateFile`,
 * `hideError`, the two `change` handlers and the `submit` gate. The page state
 * it touches is the error message's visibility and text and the
 * `input-error` class of the logo and QR inputs; the file selections are
 * given by the browser.
 */
module ClientForm {
  import opened Records
  import Upload

  /** `allowedTypes` */
  const AllowedTypes: seq<string> := ["image/jpeg", "image/png", "image/gif"]
  const TypeErrorText := "Erreur : Type de fichier non supporté. Seules les images sont autorisées."

  datatype Input = Logo | Qr
  {
    function Other(): Input
    {
      if Logo? then Qr else Logo
    }
  }

  /** `allowedTypes.includes(type)`: exactly JPEG, PNG and GIF. */
  function AllowedType(fileType: string): (ok: bool)
    ensures ok <==> fileType == "image/jpeg" || fileType == "image/png" || fileType == "image/gif"
  {
    fileType in AllowedTypes
  }

  /**
   * The verdict of `validateFile` for a selection, given as the types of the
   * selected files in order: an empty selection passes, otherwise only the
   * first file is looked at.
   */
  function SelectionPasses(selection: seq<string>): (ok: bool)
    ensures selection == [] ==> ok
    ensures selection != [] ==> (ok <==> AllowedType(selection[0]))
  {
    if |selection| > 0 then AllowedType(selection[0]) else true
  }

  /** Every type the client lets through is accepted by the server's `fileFilter`. */
  lemma ClientAcceptsImpliesServerAccepts(selection: seq<string>)
    requires selection != [] && SelectionPasses(selection)
    ensures Upload.FileFilter(selection[0]).Accepted?
  {
    var t := selection[0];
    assert t[..6] == "image/";
  }

  /** The page state the script reads and writes. */
  datatype FormState = FormState(errorShown: bool, errorText: string,
                                 logoMarked: bool, qrMarked: bool,
                                 logoSelection: seq<string>, qrSelection: seq<string>)
  {
    function Selection(input: Input): seq<string>
    {
      if input.Logo? then logoSelection else qrSelection
    }

    /** Whether the input carries the `input-error` class. */
    function Marked(input: Input): bool
    {
      if input.Logo? then logoMarked else qrMarked
    }
  }

  /** The invariant the script keeps: the message shows exactly when an input is marked, with the type error text. */
  predicate Consistent(s: FormState)
  {
    (s.errorShown <==> s.logoMarked || s.qrMarked)
    && (s.errorShown ==> s.errorText == TypeErrorText)
  }

  predicate Passes(s: FormState, input: Input)
  {
    SelectionPasses(s.Selection(input))
  }

  /** The state after `validateFile(input)`: unchanged when it passes; otherwise the error shows and the input is marked. */
  function Validated(s: FormState, input: Input): (t: FormState)
    ensures Passes(s, input) ==> t == s
    ensures !Passes(s, input) ==> t.errorShown && t.errorText == TypeErrorText && t.Marked(input)
    ensures t.Marked(input.Other()) == s.Marked(input.Other())
    ensures t.logoSelection == s.logoSelection && t.qrSelection == s.qrSelection
  {
    if Passes(s, input) then s
    else if input.Logo? then s.(errorText := TypeErrorText, errorShown := true, logoMarked := true)
    else s.(errorText := TypeErrorText, errorShown := true, qrMarked := true)
  }

  /** The state after `hideError()`: message hidden, neither input marked; the text is left as it was. */
  function Hidden(s: FormState): (t: FormState)
    ensures !t.errorShown && !t.Marked(Logo) && !t.Marked(Qr)
    ensures t.errorText == s.errorText
    ensures t.logoSelection == s.logoSelection && t.qrSelection == s.qrSelection
  {
    s.(errorShown := false, logoMarked := false, qrMarked := false)
  }

  /** The browser replaces the input's selection before it fires `change`. */
  function Selected(s: FormState, input: Input, selection: seq<string>): FormState
  {
    if input.Logo? then s.(logoSelection := selection) else s.(qrSelection := selection)
  }

  /** A `change` on `input`: hide, then validate that input only. */
  function Changed(s: FormState, input: Input, selection: seq<string>): (t: FormState)
    ensures !t.Marked(input.Other())
    ensures t.Marked(input) <==> !SelectionPasses(selection)
    ensures t.errorShown <==> !SelectionPasses(selection)
    ensures t.Selection(input) == selection && t.Selection(input.Other()) == s.Selection(input.Other())
  {
    Validated(Hidden(Selected(s, input, selection)), input)
  }

  /** Whether the submit handler calls `preventDefault`. */
  function SubmitPrevented(s: FormState): (prevented: bool)
    ensures prevented <==> !Passes(s, Logo) || !Passes(s, Qr)
  {
    !Passes(s, Logo) || !Passes(Validated(s, Logo), Qr)
  }

  /** The state after the submit handler: the QR input is validated only when the logo passes. */
  function Submitted(s: FormState): (t: FormState)
    ensures !Passes(s, Logo) ==> t == Validated(s, Logo) && t.qrMarked == s.qrMarked
    ensures Passes(s, Logo) ==> t == Validated(s, Qr) && t.logoMarked == s.logoMarked
    ensures SubmitPrevented(s) ==> t.errorShown && t.errorText == TypeErrorText
    ensures !SubmitPrevented(s) ==> t == s
  {
    if !Passes(s, Logo) then Validated(s, Logo) else Validated(Validated(s, Logo), Qr)
  }

  lemma HiddenIdempotent(s: FormState)
    ensures Hidden(Hidden(s)) == Hidden(s)
  {
  }

  /** Validating twice leaves the page as validating once. */
  lemma ValidatedIdempotent(s: FormState, input: Input)
    ensures Validated(Validated(s, input), input) == Validated(s, input)
  {
  }

  /** What the user can do to the form. */
  datatype Event = Change(input: Input, selection: seq<string>) | Submit

  function Step(s: FormState, e: Event): FormState
  {
    match e
    case Change(input, selection) => Changed(s, input, selection)
    case Submit => Submitted(s)
  }

  function Run(s: FormState, events: seq<Event>): FormState
    decreases |events|
  {
    if events == [] then s else Run(Step(s, events[0]), events[1..])
  }

  lemma StepKeepsConsistent(s: FormState, e: Event)
    requires Consistent(s)
    ensures Consistent(Step(s, e))
  {
  }

  /** Any sequence of changes and submissions keeps the message and the marks in step. */
  lemma {:induction false} RunKeepsConsistent(s: FormState, events: seq<Event>)
    requires Consistent(s)
    ensures Consistent(Run(s, events))
    decreases |events|
  {
    if events != [] {
      StepKeepsConsistent(s, events[0]);
      RunKeepsConsistent(Step(s, events[0]), events[1..]);
    }
  }

  /**
   * A form whose logo input is empty passes the client's gate, yet the
   * server answers 400 and issues no INSERT when no named logo part arrives.
   */
  lemma EmptyLogoPassesClientOnly(s: FormState, parts: seq<Upload.FilePart>, body: Upload.UploadBody,
                                  insertError: Option<string>)
    requires s.logoSelection == [] && SelectionPasses(s.qrSelection)
    requires forall i :: 0 <= i < |parts| ==> parts[i].fieldname != "logo" || !Upload.Named(parts[i])
    ensures !SubmitPrevented(s)
    ensures Upload.HandleUpload(Upload.ConfiguredMulter(parts), body, insertError).reply.status == 400
    ensures Upload.HandleUpload(Upload.ConfiguredMulter(parts), body, insertError).issued.None?
  {
  }

  /** The form's script bound to one page. */
  class UploadForm {
    var errorShown: bool
    var errorText: string
    var logoMarked: bool
    var qrMarked: bool
    var logoSelection: seq<string>
    var qrSelection: seq<string>

    function State(): FormState
      reads this
    {
      FormState(errorShown, errorText, logoMarked, qrMarked, logoSelection, qrSelection)
    }

    /** The page as loaded: message hidden and empty, nothing selected or marked. */
    constructor ()
      ensures State() == FormState(false, "", false, false, [], [])
      ensures Consistent(State())
    {
      errorShown, errorText := false, "";
      logoMarked, qrMarked := false, false;
      logoSelection, qrSelection := [], [];
    }

    /** `validateFile(input)` */
    method ValidateFile(input: Input) returns (ok: bool)
      modifies this
      ensures ok <==> Passes(old(State()), input)
      ensures State() == Validated(old(State()), input)
    {
      var selection := if input.Logo? then logoSelection else qrSelection;
      if |selection| > 0 {
        var fileType := selection[0];
        if fileType !in AllowedTypes {
          errorText := TypeErrorText;
          errorShown := true;
          if input.Logo? { logoMarked := true; } else { qrMarked := true; }
          return false;
        }
      }
      return true;
    }

    /** `hideError()` */
    method HideError()
      modifies this
      ensures State() == Hidden(old(State()))
      ensures !errorShown && !logoMarked && !qrMarked
    {
      errorShown := false;
      logoMarked := false;
      qrMarked := false;
    }

    /** The `change` listener of `input`, after the browser stored the new selection. */
    method OnChange(input: Input, selection: seq<string>)
      modifies this
      ensures State() == Changed(old(State()), input, selection)
      ensures !State().Marked(input.Other())
    {
      if input.Logo? { logoSelection := selection; } else { qrSelection := selection; }
      HideError();
      var _ := ValidateFile(input);
    }

    /** The `submit` listener: `!validateFile(logo) || !validateFile(qr)` decides `preventDefault`. */
    method OnSubmit() returns (prevented: bool)
      modifies this
      ensures prevented <==> !Passes(old(State()), Logo) || !Passes(old(State()), Qr)
      ensures State() == Submitted(old(State()))
      ensures prevented ==> errorShown
      ensures !Passes(old(State()), Logo) ==> qrMarked == old(qrMarked)
    {
      var logoOk := ValidateFile(Logo);
      if !logoOk {
        prevented := true;
      } else {
        var qrOk := ValidateFile(Qr);
        prevented := !qrOk;
      }
    }
  }
}
