/** The save handler: a local guard, one export request whose outcome is a
    parameter, and the name of the file handed to the browser. */
module Export {
  import opened Wrappers
  import opened Strings
  import opened Session

  /** How an export request ended: `Saved` with a success status (the body
      is the file), `SaveNotOk` for any other status, `SaveThrown` when the
      request or the reading of the body threw. */
  datatype SaveOutcome = Saved | SaveNotOk | SaveThrown

  /** The body of an export request. */
  datatype ExportRequest = ExportRequest(jokes: seq<string>, format: string)

  /** One save call: the request it sent (none when the guard refused), the
      name of the file it downloaded (none unless the export succeeded) and
      the state it leaves. */
  datatype SaveRun = SaveRun(request: Option<ExportRequest>, download: Option<string>, after: Session)

  const NothingToSaveMessage := "No jokes to save! Generate some first."
  const SaveFailedMessage := "Failed to save file"
  const SaveErrorMessage := "Error saving file"
  const DownloadBaseName := "deadpandr_jokes"

  /** The file name the download is offered under: the base name and a dot,
      followed by the format. */
  function DownloadName(format: string): (name: string)
    ensures |name| == |"deadpandr_jokes."| + |format|
    ensures name[..|"deadpandr_jokes."|] == "deadpandr_jokes."
    ensures name[|"deadpandr_jokes."|..] == format
    ensures '.' !in format ==> Extension(name) == format
  {
    var name := DownloadBaseName + "." + format;
    assert '.' !in format ==> Extension(name) == format by {
      if '.' !in format {
        ExtensionOfDotted(DownloadBaseName, format);
      }
    }
    name
  }

  /** The confirmation shown after a successful export. */
  function SavedMessage(format: string): string {
    "Saved as " + ToUpperCase(format)
  }

  /** `handleSave(format)` on session `s`, whose export request (if sent)
      ends with `o`. */
  function HandleSave(s: Session, format: string, o: SaveOutcome): (r: SaveRun)
    ensures r.after.jokes == s.jokes && r.after.loading == s.loading
    ensures r.request.None? <==> s.jokes == []
    ensures r.request.Some? ==> r.request.value == ExportRequest(s.jokes, format)
    ensures r.download == (if s.jokes != [] && o == Saved then Some("deadpandr_jokes." + format) else None)
    ensures s.jokes == [] ==> r.after.status == NothingToSaveMessage
  {
    if |s.jokes| == 0 then
      SaveRun(None, None, s.(status := NothingToSaveMessage))
    else
      var request := Some(ExportRequest(s.jokes, format));
      match o
      case Saved => SaveRun(request, Some(DownloadName(format)), s.(status := SavedMessage(format)))
      case SaveNotOk => SaveRun(request, None, s.(status := SaveFailedMessage))
      case SaveThrown => SaveRun(request, None, s.(status := SaveErrorMessage))
  }

  /** With jokes to save, each outcome has its own status line, and a
      successful export downloads a file whose extension is the format. */
  lemma SaveOutcomes(s: Session, format: string, o: SaveOutcome)
    requires s.jokes != []
    ensures o == Saved ==> HandleSave(s, format, o).after.status == "Saved as " + ToUpperCase(format)
    ensures o == Saved && '.' !in format ==> Extension(HandleSave(s, format, o).download.value) == format
    ensures o == SaveNotOk ==> HandleSave(s, format, o).after.status == SaveFailedMessage
    ensures o == SaveThrown ==> HandleSave(s, format, o).after.status == SaveErrorMessage
  {
  }

  /** The two buttons' formats: "txt" and "pdf" give "deadpandr_jokes.txt" /
      "Saved as TXT" and "deadpandr_jokes.pdf" / "Saved as PDF". */
  lemma SaveButtons(s: Session)
    requires s.jokes != []
    ensures HandleSave(s, "txt", Saved).download == Some("deadpandr_jokes.txt")
    ensures HandleSave(s, "txt", Saved).after.status == "Saved as TXT"
    ensures HandleSave(s, "pdf", Saved).download == Some("deadpandr_jokes.pdf")
    ensures HandleSave(s, "pdf", Saved).after.status == "Saved as PDF"
  {
    SaveButton(s, "txt", "TXT");
    assert DownloadBaseName + "." + "txt" == "deadpandr_jokes.txt";
    SaveButton(s, "pdf", "PDF");
    assert DownloadBaseName + "." + "pdf" == "deadpandr_jokes.pdf";
  }

  /** The general form of one button, which `SaveButtons` instantiates for
      TXT and PDF; it restates `HandleSave` and `SaveOutcomes` for a single
      format. `upper` is the upper-cased format given by the caller, so that
      the proof never evaluates `ToUpperCase` on a literal. */
  lemma SaveButton(s: Session, format: string, upper: string)
    requires s.jokes != [] && ToUpperCase(format) == upper
    ensures HandleSave(s, format, Saved).download == Some(DownloadBaseName + "." + format)
    ensures HandleSave(s, format, Saved).after.status == "Saved as " + upper
  {
  }
}
