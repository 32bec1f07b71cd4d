/** The page's session state and the generate handler, as a begin step and
    a finish step around one request whose outcome is a parameter. */
module Session {
  import opened Wrappers
  import opened Payload

  /** Everything the handlers change: the joke list shown, the status line
      and whether a generate request is pending. */
  datatype Session = Session(jokes: seq<string>, status: string, loading: bool)

  /** The state a fresh page starts in. */
  const InitialSession := Session([], "", false)

  /** How a generate request ended, as far as the handler can tell:
      `Thrown` when the request or the reading of its JSON body threw,
      `NotOk` for a non-success status with the body's `detail` (`None` when
      it is absent or null), `Ok` with the body's `jokes`. */
  datatype GenerateOutcome = Thrown | NotOk(detail: Option<string>) | Ok(jokes: seq<string>)

  const GenerateSuccessMessage := "Jokes generated successfully!"
  const GenerateFallbackMessage := "Error generating jokes"
  // Two literals joined: the verifier reads characters out of short literals only.
  const ConnectFailureMessage := "Failed to connect to API." + " Make sure the backend is running."

  /** `data.detail || fallback`: the detail when it is a non-empty string. */
  function DetailOr(detail: Option<string>, fallback: string): (m: string)
    ensures detail.Some? && detail.value != "" ==> m == detail.value
    ensures detail.None? || detail.value == "" ==> m == fallback
  {
    if detail.Some? && detail.value != "" then detail.value else fallback
  }

  /** Before the request: pending, no status, no jokes. */
  function BeginGenerate(s: Session): (r: Session)
    ensures r.loading && r.status == "" && r.jokes == []
  {
    Session([], "", true)
  }

  /** After the request: the branch for the outcome, then the `finally`
      that clears `loading`. */
  function FinishGenerate(s: Session, o: GenerateOutcome): (r: Session)
    ensures !r.loading
    ensures !o.Ok? ==> r.jokes == s.jokes
  {
    match o
    case Thrown => s.(status := ConnectFailureMessage, loading := false)
    case NotOk(detail) => s.(status := DetailOr(detail, GenerateFallbackMessage), loading := false)
    case Ok(jokes) => s.(jokes := jokes, status := GenerateSuccessMessage, loading := false)
  }

  /** One generate call: the body it sends and the state it leaves. */
  datatype GenerateRun = GenerateRun(request: JsonObject, after: Session)

  /** `handleGenerate` with settings `c`, whose request ends with `o`.
      Whatever the outcome, the handler is no longer loading; the jokes are
      exactly the returned list on success and empty otherwise. */
  function HandleGenerate(s: Session, c: Config, o: GenerateOutcome): (r: GenerateRun)
    ensures r.request == BuildPayload(c)
    ensures !r.after.loading
    ensures o.Ok? ==> r.after.jokes == o.jokes && r.after.status == GenerateSuccessMessage
    ensures o.NotOk? ==> r.after.jokes == [] && r.after.status == DetailOr(o.detail, GenerateFallbackMessage)
    ensures o.Thrown? ==> r.after.jokes == [] && r.after.status == ConnectFailureMessage
  {
    GenerateRun(BuildPayload(c), FinishGenerate(BeginGenerate(s), o))
  }

  /** A generate call replaces the whole session: what it leaves does not
      depend on the jokes, status or pending flag it started from. */
  lemma GenerateForgetsPriorSession(s1: Session, s2: Session, c: Config, o: GenerateOutcome)
    ensures HandleGenerate(s1, c, o) == HandleGenerate(s2, c, o)
  {
  }

  /** A failed connection is wiped out by the next successful generate,
      which shows exactly the returned jokes in the returned order. */
  lemma RetryAfterConnectFailure(s: Session, c: Config, c': Config, jokes: seq<string>)
    ensures HandleGenerate(s, c, Thrown).after == Session([], ConnectFailureMessage, false)
    ensures HandleGenerate(HandleGenerate(s, c, Thrown).after, c', Ok(jokes)).after
         == Session(jokes, GenerateSuccessMessage, false)
  {
  }

  /** Two overlapping generates, where the first response succeeds and the
      second request throws: the first completion already clears `loading`
      while the second is pending, and the second keeps the first one's jokes
      under its own failure message. */
  lemma InterleavedGenerates(s: Session, jokes: seq<string>)
    ensures FinishGenerate(BeginGenerate(BeginGenerate(s)), Ok(jokes))
         == Session(jokes, GenerateSuccessMessage, false)
    ensures FinishGenerate(FinishGenerate(BeginGenerate(BeginGenerate(s)), Ok(jokes)), Thrown)
         == Session(jokes, ConnectFailureMessage, false)
  {
  }
}
