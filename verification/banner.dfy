/** The status line under the output panel: hidden while the status is
    empty, otherwise styled as an error when the text mentions "Error",
    "Failed" or "No jokes", and as a success otherwise. */
module StatusBanner {
  import opened Wrappers
  import opened Strings
  import opened Session
  import opened Export

  datatype Banner = Hidden | ErrorBanner | SuccessBanner

  /** The substring test that picks the error style. */
  predicate IsErrorStatus(status: string) {
    Includes(status, "Error") || Includes(status, "Failed") || Includes(status, "No jokes")
  }

  function BannerOf(status: string): Banner {
    if status == "" then Hidden
    else if IsErrorStatus(status) then ErrorBanner
    else SuccessBanner
  }

  /** The session as the page presents it: a pending request, nothing yet,
      a green line or a red line with its message. A green line is only the
      styling: a service detail without a marker is green too. */
  datatype Phase = Idle | Loading | GreenLine | Failed(message: string)

  function PhaseOf(s: Session): Phase {
    if s.loading then Loading
    else match BannerOf(s.status)
      case Hidden => Idle
      case ErrorBanner => Failed(s.status)
      case SuccessBanner => GreenLine
  }

  /** A fresh page is idle: no jokes, no status line, nothing pending. */
  lemma InitialSessionIsIdle()
    ensures PhaseOf(InitialSession) == Idle
    ensures InitialSession.jokes == [] && BannerOf(InitialSession.status) == Hidden
  {
  }

  /** A string that starts with one of the three markers is error-styled. */
  lemma StartsWithMarker(status: string, marker: string)
    requires marker == "Error" || marker == "Failed" || marker == "No jokes"
    requires |marker| <= |status| && status[..|marker|] == marker
    ensures BannerOf(status) == ErrorBanner
  {
  }

  /** Every fixed failure message of the two handlers is shown red. */
  lemma FailureMessagesShowAsErrors()
    ensures BannerOf(ConnectFailureMessage) == ErrorBanner
    ensures BannerOf(GenerateFallbackMessage) == ErrorBanner
    ensures BannerOf(NothingToSaveMessage) == ErrorBanner
    ensures BannerOf(SaveFailedMessage) == ErrorBanner
    ensures BannerOf(SaveErrorMessage) == ErrorBanner
  {
    StartsWithMarker(ConnectFailureMessage, "Failed");
    StartsWithMarker(GenerateFallbackMessage, "Error");
    StartsWithMarker(NothingToSaveMessage, "No jokes");
    StartsWithMarker(SaveFailedMessage, "Failed");
    StartsWithMarker(SaveErrorMessage, "Error");
  }

  /** `sub` cannot occur in `prefix + rest` when its first character is not
      in `prefix` and its second is a lower-case letter that `rest` lacks. */
  lemma NoMarkerAcrossUpperCase(prefix: string, rest: string, sub: string)
    requires |sub| >= 2 && sub[0] !in prefix && IsAsciiLower(sub[1])
    requires forall i :: 0 <= i < |rest| ==> !IsAsciiLower(rest[i])
    ensures !Includes(prefix + rest, sub)
  {
  }

  /** The generate confirmation is shown green: it has no 'E', 'F' or 'N'. */
  lemma GenerateSuccessShowsAsSuccess()
    ensures BannerOf(GenerateSuccessMessage) == SuccessBanner
  {
    NoMarkerInitials(GenerateSuccessMessage);
  }

  /** A non-empty status with none of the markers' initials is green. */
  lemma NoMarkerInitials(status: string)
    requires status != "" && 'E' !in status && 'F' !in status && 'N' !in status
    ensures BannerOf(status) == SuccessBanner
  {
    MissingFirstChar(status, "Error");
    MissingFirstChar(status, "Failed");
    MissingFirstChar(status, "No jokes");
  }

  /** The save confirmation is shown green for every format the handler may
      be given: an upper-cased format cannot complete any of the three
      markers, and "Saved as " cannot start one. */
  lemma SavedMessageShowsAsSuccess(format: string)
    ensures BannerOf(SavedMessage(format)) == SuccessBanner
  {
    UpperCaseIsUpper(format);
    NoMarkerAcrossUpperCase("Saved as ", ToUpperCase(format), "Error");
    NoMarkerAcrossUpperCase("Saved as ", ToUpperCase(format), "Failed");
    NoMarkerAcrossUpperCase("Saved as ", ToUpperCase(format), "No jokes");
  }

  /** The generate handler's phases: loading while pending, with the status
      line hidden and the list empty; afterwards
      green on success, red after a thrown request or an empty detail, and
      for a service detail red exactly when the detail itself mentions a
      marker, so a failed generate whose detail has no marker is green. */
  lemma GeneratePhases(s: Session, c: Payload.Config, o: GenerateOutcome)
    ensures PhaseOf(BeginGenerate(s)) == Loading
    ensures BannerOf(BeginGenerate(s).status) == Hidden && BeginGenerate(s).jokes == []
    ensures o.Ok? ==> PhaseOf(HandleGenerate(s, c, o).after) == GreenLine
    ensures o.Thrown? ==> PhaseOf(HandleGenerate(s, c, o).after) == Failed(ConnectFailureMessage)
    ensures o.NotOk? && (o.detail.None? || o.detail.value == "") ==>
      PhaseOf(HandleGenerate(s, c, o).after) == Failed(GenerateFallbackMessage)
    ensures o.NotOk? && o.detail.Some? && o.detail.value != "" ==>
      (PhaseOf(HandleGenerate(s, c, o).after) == Failed(o.detail.value) <==> IsErrorStatus(o.detail.value))
    ensures o.NotOk? && o.detail.Some? && o.detail.value != "" && !IsErrorStatus(o.detail.value) ==>
      PhaseOf(HandleGenerate(s, c, o).after) == GreenLine
  {
    FailureMessagesShowAsErrors();
    GenerateSuccessShowsAsSuccess();
  }

  /** The save handler's status line: red for the empty-list guard and both
      failures, green for a completed export. */
  lemma SaveBanners(s: Session, format: string, o: SaveOutcome)
    ensures BannerOf(HandleSave(s, format, o).after.status) ==
      (if s.jokes != [] && o == Saved then SuccessBanner else ErrorBanner)
  {
    FailureMessagesShowAsErrors();
    SavedMessageShowsAsSuccess(format);
  }
}
