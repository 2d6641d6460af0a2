/** The decision logic of the `POST /upload` handler: the guards on the
    request, the normalisation of the detection service's reply into one
    top prediction, and the assembly of the verdict. The outbound call
    itself is not modelled: its reply is a parameter. */
module Upload {
  import opened Options
  import opened WasteType
  import opened TopPrediction
  import Tips

  /** What the handler reads from the request and the environment: whether
      a file was uploaded, and the three service settings (`None` when the
      variable is unset). */
  datatype Request = Request(
    hasFile: bool,
    modelName: Option<string>,
    modelVersion: Option<string>,
    apiKey: Option<string>)

  /** The detection service's reply: the keyed `predictions` object as its
      entries in `for…in` order (`None` when the field is absent or null)
      and the `predicted_classes` list. */
  datatype Reply = Reply(predictions: Option<seq<Entry>>, predictedClasses: Option<seq<string>>)

  /** The JSON body of a successful response. */
  datatype Classification = Classification(
    name: string,
    category: string,
    confidence: int,
    info: string,
    tips: seq<string>,
    impact: string)

  datatype Outcome =
    | NoFile
    | ConfigError
    | NoPrediction(msg: string)
    | Classified(result: Classification)

  const NoFileMsg := "No file uploaded."
  const ConfigErrorMsg := "Server configuration error"
  const NoDetectionMsg := "No object detected or low confidence."
  const NoTopMsg := "Could not determine the top prediction."

  /** Confidence reported for a label taken from `predicted_classes`. */
  const FallbackConfidence := 90

  /** HTTP status of an outcome. */
  function Status(o: Outcome): (code: int)
    ensures code == 200 <==> o.Classified?
    ensures code == 500 <==> o.ConfigError?
    ensures code == 200 || code == 400 || code == 500
  {
    match o
    case NoFile => 400
    case ConfigError => 500
    case NoPrediction(_) => 400
    case Classified(_) => 200
  }

  /** The JSON key under which a rejected request's text is sent: only the
      configuration error answers `{ error: … }`; the missing file and both
      no-prediction outcomes answer `{ msg: … }`. */
  function BodyKey(o: Outcome): (key: string)
    requires !o.Classified?
    ensures key == "error" <==> o.ConfigError?
    ensures key == "msg" <==> !o.ConfigError?
  {
    if o.ConfigError? then "error" else "msg"
  }

  /** The text of a rejected request, sent under `BodyKey(o)`. Each guard
      has its own non-empty text, and a no-prediction outcome carries its
      own. */
  function Message(o: Outcome): (text: string)
    requires !o.Classified?
    ensures o.NoFile? || o.ConfigError? ==> text != ""
    ensures o.NoFile? ==> text != ConfigErrorMsg && text != NoDetectionMsg && text != NoTopMsg
    ensures o.ConfigError? ==> text != NoFileMsg && text != NoDetectionMsg && text != NoTopMsg
    ensures o.NoPrediction? ==> text == o.msg
  {
    match o
    case NoFile => NoFileMsg
    case ConfigError => ConfigErrorMsg
    case NoPrediction(msg) => msg
  }

  /** JavaScript truthiness of an optional string. */
  predicate Truthy(s: Option<string>)
  {
    s.Some? && s.value != ""
  }

  predicate HasCredentials(req: Request)
  {
    Truthy(req.modelName) && Truthy(req.modelVersion) && Truthy(req.apiKey)
  }

  /** `Math.round`: the nearest integer, halves rounded up. */
  function RoundHalfUp(x: real): (n: int)
    ensures n as real - 0.5 <= x < n as real + 0.5
  {
    (x + 0.5).Floor
  }

  /** `Math.round(confidence * 100)`: a fraction in [0, 1] becomes a
      percentage in 0..100. */
  function Percent(confidence: real): (n: int)
    ensures 0.0 <= confidence <= 1.0 ==> 0 <= n <= 100
  {
    RoundHalfUp(confidence * 100.0)
  }

  /** `predicted_classes?.[0]`. */
  function FallbackClass(reply: Reply): Option<string>
  {
    if reply.predictedClasses.Some? && |reply.predictedClasses.value| > 0
    then Some(reply.predictedClasses.value[0])
    else None
  }

  const InfoPrefix := "This item has been identified as "

  /** The `info` sentence naming the raw label: the label can be read back
      from it, between the fixed prefix and the closing full stop. */
  function Info(name: string): (sentence: string)
    ensures |sentence| == |InfoPrefix| + |name| + 1
    ensures sentence[..|InfoPrefix|] == InfoPrefix
    ensures sentence[|InfoPrefix|..|sentence| - 1] == name
    ensures sentence[|sentence| - 1] == '.'
  {
    InfoPrefix + name + "."
  }

  /** The success body for label `name` reported with `percent`: its
      category, tips and impact are the table entry of the category `name`
      maps to, so the lookup's `trash` fallback is never taken. */
  function Assemble(name: string, percent: int): (r: Classification)
    ensures var entry := Tips.Table[Key(MapWasteType(name))];
      r.category == entry.category && r.tips == entry.tips && r.impact == entry.impact
  {
    KeysAreCategories();
    var profile := Tips.Lookup(Key(MapWasteType(name)));
    Classification(name, profile.category, percent, Info(name), profile.tips, profile.impact)
  }

  /** `!predictions || Object.keys(predictions).length === 0`. */
  predicate NoKeyedPredictions(reply: Reply)
  {
    reply.predictions.None? || |reply.predictions.value| == 0
  }

  /** Everything after the outbound call: the fallback path, the scan over
      `predictions` and the result assembly. */
  function Decide(reply: Reply): (o: Outcome)
    ensures o.NoPrediction? || o.Classified?
    ensures o.Classified? ==> o.result.name != ""
  {
    if NoKeyedPredictions(reply) then
      var fallback := FallbackClass(reply);
      if Truthy(fallback) then Classified(Assemble(fallback.value, FallbackConfidence))
      else NoPrediction(NoDetectionMsg)
    else
      var entries := reply.predictions.value;
      var top := TopClass(entries);
      if !Truthy(top) then NoPrediction(NoTopMsg)
      else Classified(Assemble(top.value, Percent(TopConfidence(entries))))
  }

  /** The handler: the no-file check, then the credential check, then the
      decision on the service's reply. */
  function Classify(req: Request, reply: Reply): (o: Outcome)
    ensures o == NoFile <==> !req.hasFile
    ensures o == ConfigError <==> req.hasFile && !HasCredentials(req)
  {
    if !req.hasFile then NoFile
    else if !HasCredentials(req) then ConfigError
    else Decide(reply)
  }

  /** The two guards run before the service is called and short-circuit:
      their outcome does not depend on the reply. */
  lemma GuardsPrecedeRequest(req: Request, a: Reply, b: Reply)
    requires !req.hasFile || !HasCredentials(req)
    ensures Classify(req, a) == Classify(req, b)
    ensures Status(Classify(req, a)) == (if req.hasFile then 500 else 400)
  {
  }

  /** Without keyed predictions, a truthy first `predicted_classes` label is
      reported as it is with the fixed confidence 90 and no threshold;
      otherwise the request is rejected with 400. */
  lemma FallbackPath(req: Request, reply: Reply)
    requires req.hasFile && HasCredentials(req) && NoKeyedPredictions(reply)
    ensures var o := Classify(req, reply);
      if Truthy(FallbackClass(reply)) then
        o.Classified? && o.result.name == reply.predictedClasses.value[0]
        && o.result.confidence == 90
      else
        o == NoPrediction(NoDetectionMsg) && Status(o) == 400
  {
  }

  /** With keyed predictions, a result is produced exactly when the reference
      top entry exists and its key is truthy; it then carries that key and
      its confidence as a rounded percentage. Otherwise the outcome is 400
      "Could not determine the top prediction.". */
  lemma ScoredPath(req: Request, reply: Reply)
    requires req.hasFile && HasCredentials(req) && !NoKeyedPredictions(reply)
    ensures var entries, o := reply.predictions.value, Classify(req, reply);
      && (o.Classified? <==> exists k: nat :: IsTop(entries, k) && entries[k].className != "")
      && (!o.Classified? ==> o == NoPrediction(NoTopMsg))
      && forall k: nat | IsTop(entries, k) && entries[k].className != "" ::
           o.Classified? && o.result.name == entries[k].className
           && o.result.confidence == Percent(entries[k].confidence.value)
  {
    TopIndexIsTop(reply.predictions.value);
  }

  /** A non-empty `predictions` object whose confidences are all at most 0
      (or missing) yields no result. */
  lemma NonPositiveScoresRejected(req: Request, reply: Reply)
    requires req.hasFile && HasCredentials(req) && !NoKeyedPredictions(reply)
    requires NoneScored(reply.predictions.value)
    ensures Classify(req, reply) == NoPrediction(NoTopMsg)
  {
    TopIndexIsTop(reply.predictions.value);
  }

  /** A result's category, tips and impact are exactly the table entry of
      the category its name maps to (the `trash` fallback of the lookup is
      never taken), the entry is complete, and `info` names the same label. */
  lemma ResultMatchesProfile(req: Request, reply: Reply)
    requires Classify(req, reply).Classified?
    ensures var r := Classify(req, reply).result;
      var key := Key(MapWasteType(r.name));
      && key in Tips.Table
      && r.category == Tips.Table[key].category
      && r.tips == Tips.Table[key].tips
      && r.impact == Tips.Table[key].impact
      && Tips.Complete(Tips.Table[key])
      && r.info == "This item has been identified as " + r.name + "."
      && r.name != ""
  {
    KeysAreCategories();
    Tips.TableComplete();
  }

  /** When the service reports fractions in [0, 1], the reported confidence
      is a percentage. */
  lemma ConfidenceIsPercentage(req: Request, reply: Reply)
    requires reply.predictions.Some? ==>
      forall j | 0 <= j < |reply.predictions.value| :: AtMost(reply.predictions.value[j], 1.0)
    requires Classify(req, reply).Classified?
    ensures 0 <= Classify(req, reply).result.confidence <= 100
  {
    if !NoKeyedPredictions(reply) {
      var entries := reply.predictions.value;
      TopIndexIsTop(entries);
    }
  }
}
