/** The generation settings and the JSON body the generate request carries. */
module Payload {
  import opened Wrappers

  /** The user-settable parameters. `madness` is in hundredths (the slider
      gives 10 ... 100); the others are the strings the controls hold. */
  datatype Config = Config(
    topic: string,
    tone: string,
    outputType: string,
    transitionType: string,
    madness: int,
    darkness: string,
    numJokes: int)

  /** The settings a fresh page starts with. */
  const DefaultConfig := Config("", "Default", "One-liners", "None", 50, "meh", 5)

  const Tones := ["Default", "Absurdist", "Cynical", "Gallows", "Nihilistic", "Sarcastic", "Surreal"]
  const OutputTypes := ["One-liners", "Routines", "Punchlines", "Random Jokes"]
  const TransitionTypes := ["None", "False Segue", "Thematic", "Absurd Thematic", "Self-aware", "Random"]
  const DarknessLevels := [
    "clean room", "child's birthday party", "meh", "PG-13 movies",
    "the news", "Tom and Colin Hanks", "Jeffrey Dahmer", "Catholic Church"]

  /** What the page's controls can produce: menu choices, a slider position
      on the 0.1 grid and a joke count from 1 to 10. Building the payload
      does not rely on it. */
  predicate ControlsAllow(c: Config) {
    && c.tone in Tones
    && c.outputType in OutputTypes
    && c.transitionType in TransitionTypes
    && 10 <= c.madness <= 100 && c.madness % 10 == 0
    && c.darkness in DarknessLevels
    && 1 <= c.numJokes <= 10
  }

  /** JSON values the payload uses. `JNumber(scaled, places)` is the number
      `scaled / 10^places`. */
  datatype Json = JNull | JString(s: string) | JNumber(scaled: int, places: nat)

  /** A JSON object as `JSON.stringify` writes it: fields in insertion order. */
  type JsonObject = seq<(string, Json)>

  /** The value of the first field called `name`, if any. */
  function Get(obj: JsonObject, name: string): (v: Option<Json>)
    ensures v.Some? <==> exists i :: 0 <= i < |obj| && obj[i].0 == name
  {
    if obj == [] then None
    else if obj[0].0 == name then Some(obj[0].1)
    else Get(obj[1..], name)
  }

  /** The field at position `i` is the first one with its name, so it is
      the one `Get` finds. */
  lemma {:induction false} GetFirst(obj: JsonObject, i: nat)
    requires i < |obj|
    requires forall j :: 0 <= j < i ==> obj[j].0 != obj[i].0
    ensures Get(obj, obj[i].0) == Some(obj[i].1)
  {
    if i > 0 {
      GetFirst(obj[1..], i - 1);
    }
  }

  /** Each wire field is found at its own position in the payload. */
  lemma GetPayloadField(c: Config, i: nat)
    requires i < |WireFields|
    ensures Get(BuildPayload(c), WireFields[i]) == Some(BuildPayload(c)[i].1)
  {
    GetFirst(BuildPayload(c), i);
  }

  function FieldNames(obj: JsonObject): seq<string> {
    seq(|obj|, i requires 0 <= i < |obj| => obj[i].0)
  }

  /** The wire field names, in the order the request lists them. */
  const WireFields := ["topic", "tone", "output_type", "transition_type", "madness", "darkness", "num_jokes"]

  /** The generate endpoint's request schema: the seven fields, text where
      text is expected, `transition_type` text or null, `madness` a number
      and `num_jokes` an integer. */
  predicate MatchesSchema(p: JsonObject) {
    && FieldNames(p) == WireFields
    && p[0].1.JString? && p[1].1.JString? && p[2].1.JString?
    && (p[3].1.JString? || p[3].1.JNull?)
    && p[4].1.JNumber?
    && p[5].1.JString?
    && p[6].1.JNumber? && p[6].1.places == 0
  }

  /** The request body of a generate call. */
  function BuildPayload(c: Config): (p: JsonObject)
    ensures MatchesSchema(p)
  {
    [ ("topic", JString(c.topic)),
      ("tone", JString(c.tone)),
      ("output_type", JString(c.outputType)),
      ("transition_type", if c.outputType == "Routines" then JString(c.transitionType) else JNull),
      ("madness", JNumber(c.madness, 2)),
      ("darkness", JString(c.darkness)),
      ("num_jokes", JNumber(c.numJokes, 0)) ]
  }

  /** `transition_type` is null exactly when the output type is not
      "Routines"; for routines it is the stored transition, whatever it is. */
  lemma TransitionTypeRule(c: Config)
    ensures Get(BuildPayload(c), "transition_type") == Some(JNull) <==> c.outputType != "Routines"
    ensures c.outputType == "Routines" ==> Get(BuildPayload(c), "transition_type") == Some(JString(c.transitionType))
  {
    GetPayloadField(c, 3);
  }

  /** The other six fields carry the settings unchanged under their wire
      names. */
  lemma PayloadCopiesSettings(c: Config)
    ensures Get(BuildPayload(c), "topic") == Some(JString(c.topic))
    ensures Get(BuildPayload(c), "tone") == Some(JString(c.tone))
    ensures Get(BuildPayload(c), "output_type") == Some(JString(c.outputType))
    ensures Get(BuildPayload(c), "madness") == Some(JNumber(c.madness, 2))
    ensures Get(BuildPayload(c), "darkness") == Some(JString(c.darkness))
    ensures Get(BuildPayload(c), "num_jokes") == Some(JNumber(c.numJokes, 0))
  {
    GetPayloadField(c, 0);
    GetPayloadField(c, 1);
    GetPayloadField(c, 2);
    GetPayloadField(c, 4);
    GetPayloadField(c, 5);
    GetPayloadField(c, 6);
  }

  /** Two settings ask for the same thing: they agree on every field, except
      that the transition only matters for routines. */
  predicate SameRequest(a: Config, b: Config) {
    && a.topic == b.topic && a.tone == b.tone && a.outputType == b.outputType
    && a.madness == b.madness && a.darkness == b.darkness && a.numJokes == b.numJokes
    && (a.outputType == "Routines" ==> a.transitionType == b.transitionType)
  }

  /** The payload loses exactly the transition of non-routine settings:
      two settings give the same body if and only if they ask for the same
      thing. */
  lemma PayloadDeterminesRequest(a: Config, b: Config)
    ensures BuildPayload(a) == BuildPayload(b) <==> SameRequest(a, b)
  {
  }

  /** The page starts with settings its controls allow, asking for
      one-liners with no transition. */
  lemma DefaultConfigRequest()
    ensures ControlsAllow(DefaultConfig)
    ensures Get(BuildPayload(DefaultConfig), "transition_type") == Some(JNull)
  {
    TransitionTypeRule(DefaultConfig);
  }
}
