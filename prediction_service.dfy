/**
 * The disease-prediction service: the model globals and their loading,
 * the dispatch of a request between free text and a symptom list, the
 * cascade that maps each reported symptom to a column of the symptom
 * list, the 0/1 input vector, and the top-three answer with its
 * specialists.
 *
 * The fuzzy scorers, the classifier, the label encoder and the symptom
 * extractor are not modelled; they are passed in as functions or outcomes.
 */
module PredictionService {

  import opened Common
  import opened Text
  import SpecialistMapping

  /** A fuzzy similarity score: an integer percentage. */
  type Ratio = x: int | 0 <= x <= 100

  /** The three scorers of the fuzzy-matching library, taken as given. */
  datatype Scorers = Scorers(
    ratio: (string, string) -> Ratio,
    partial: (string, string) -> Ratio,
    tokenSet: (string, string) -> Ratio)

  function Max(a: int, b: int): int
  {
    if a >= b then a else b
  }

  /**
   * The consensus score, times ten: 60% of the plain ratio plus 40% of the
   * better of the partial and token-set ratios.
   */
  function Consensus(sc: Scorers, a: string, b: string): (r: int)
    ensures 0 <= r <= 1000
  {
    6 * sc.ratio(a, b) + 4 * Max(sc.partial(a, b), sc.tokenSet(a, b))
  }

  /** The integer form of the threshold is exactly the decimal one. */
  lemma ConsensusThreshold(sc: Scorers, a: string, b: string)
    ensures Consensus(sc, a, b) >= 600
        <==> 0.6 * sc.ratio(a, b) as real + 0.4 * Max(sc.partial(a, b), sc.tokenSet(a, b)) as real >= 60.0
  {
    var m := Max(sc.partial(a, b), sc.tokenSet(a, b));
    assert (0.6 * sc.ratio(a, b) as real + 0.4 * m as real) * 10.0 == Consensus(sc, a, b) as real;
  }

  /** A consensus match needs a plain ratio of at least 34, however well the flexible scorers agree. */
  lemma ConsensusNeedsStructure(sc: Scorers, a: string, b: string)
    requires Consensus(sc, a, b) >= 600
    ensures sc.ratio(a, b) >= 34
  {
  }

  /** The two scorers `extractOne` is called with. */
  datatype Scorer = TokenSetScorer | ConsensusScorer

  function Score(sc: Scorers, scorer: Scorer, a: string, b: string): int
  {
    match scorer
    case TokenSetScorer => sc.tokenSet(a, b)
    case ConsensusScorer => Consensus(sc, a, b)
  }

  /**
   * `extractOne`: the index of the first choice with the highest score.
   */
  function Best(sc: Scorers, scorer: Scorer, query: string, choices: seq<string>): (i: nat)
    requires |choices| > 0
    ensures i < |choices|
    ensures forall j :: 0 <= j < |choices| ==> Score(sc, scorer, query, choices[j]) <= Score(sc, scorer, query, choices[i])
    ensures forall j :: 0 <= j < i ==> Score(sc, scorer, query, choices[j]) < Score(sc, scorer, query, choices[i])
  {
    if |choices| == 1 then 0
    else
      var i := Best(sc, scorer, query, choices[..|choices| - 1]);
      if Score(sc, scorer, query, choices[|choices| - 1]) > Score(sc, scorer, query, choices[i]) then |choices| - 1 else i
  }

  /** The best choice is a best element of the list, whatever its position. */
  lemma BestIsMaximal(sc: Scorers, scorer: Scorer, query: string, choices: seq<string>, c: string)
    requires |choices| > 0 && c in choices
    ensures Score(sc, scorer, query, c) <= Score(sc, scorer, query, choices[Best(sc, scorer, query, choices)])
  {
    var j :| 0 <= j < |choices| && choices[j] == c;
  }

  /** The cleaned form of a symptom used for the exact match. */
  function Clean(symptom: string): (r: string)
    ensures |r| <= |symptom|
    ensures forall i :: 0 <= i < |r| ==> !('A' <= r[i] <= 'Z')
    ensures r == [] || (!IsSpace(r[0]) && !IsSpace(r[|r| - 1]))
  {
    var lower := Lower(symptom);
    var r := Strip(lower);
    assert forall i :: 0 <= i < |r| ==> !('A' <= r[i] <= 'Z') by {
      StripDropsOnlySpace(lower);
      NoUpperInPiece(lower, r, |lower| - |TrimLeft(lower)|);
    }
    r
  }

  /** A piece of a text without upper-case letters has none either. */
  lemma NoUpperInPiece(s: string, r: string, k: nat)
    requires k + |r| <= |s| && s[k..k + |r|] == r
    requires forall i :: 0 <= i < |s| ==> !('A' <= s[i] <= 'Z')
    ensures forall i :: 0 <= i < |r| ==> !('A' <= r[i] <= 'Z')
  {
    assert forall i :: 0 <= i < |r| ==> r[i] == s[k + i];
  }

  /** The cleaned symptom is a piece of the lower-cased one. */
  lemma CleanIsPiece(symptom: string)
    ensures Contains(Lower(symptom), Clean(symptom))
  {
    StripIsSubstring(Lower(symptom));
  }

  /** Cleaning a cleaned symptom changes nothing. */
  lemma CleanIdempotent(symptom: string)
    ensures Clean(Clean(symptom)) == Clean(symptom)
  {
    var c := Clean(symptom);
    assert Lower(c) == c;
    assert TrimLeft(c) == c;
    assert TrimRight(c) == c;
  }

  /**
   * The match of one reported symptom: its cleaned form if that is a
   * column, otherwise the best token-set candidate scoring at least 80,
   * otherwise the best consensus candidate scoring at least 60.
   */
  function MatchSymptom(symptom: string, columns: seq<string>, sc: Scorers): (r: Option<string>)
    requires |columns| > 0
    ensures r.Some? ==> r.value in columns
    ensures Clean(symptom) in columns ==> r == Some(Clean(symptom))
  {
    Cascade(symptom, Clean(symptom), columns, sc)
  }

  /** The cascade, for a symptom whose cleaned form is `clean`. */
  function Cascade(symptom: string, clean: string, columns: seq<string>, sc: Scorers): (r: Option<string>)
    requires |columns| > 0
    ensures r.Some? ==> r.value in columns
    ensures clean in columns ==> r == Some(clean)
  {
    if clean in columns then Some(clean)
    else
      var t := Best(sc, TokenSetScorer, symptom, columns);
      if sc.tokenSet(symptom, columns[t]) >= 80 then Some(columns[t])
      else
        var c := Best(sc, ConsensusScorer, symptom, columns);
        if Consensus(sc, symptom, columns[c]) >= 600 then Some(columns[c]) else None
  }

  /**
   * Without an exact match, a column with token-set score 80 or more
   * guarantees a match, and the match is a best token-set candidate.
   */
  lemma TokenSetStage(symptom: string, columns: seq<string>, sc: Scorers, c: string)
    requires |columns| > 0 && Clean(symptom) !in columns
    requires c in columns && sc.tokenSet(symptom, c) >= 80
    ensures MatchSymptom(symptom, columns, sc).Some?
    ensures sc.tokenSet(symptom, c) <= sc.tokenSet(symptom, MatchSymptom(symptom, columns, sc).value)
  {
    BestIsMaximal(sc, TokenSetScorer, symptom, columns, c);
  }

  /**
   * When no column reaches token-set 80, there is a match exactly when
   * some column reaches consensus 60, and the match is a best consensus
   * candidate.
   */
  lemma ConsensusStage(symptom: string, columns: seq<string>, sc: Scorers)
    requires |columns| > 0 && Clean(symptom) !in columns
    requires forall c :: c in columns ==> sc.tokenSet(symptom, c) < 80
    ensures MatchSymptom(symptom, columns, sc).Some? <==> exists c :: c in columns && Consensus(sc, symptom, c) >= 600
    ensures MatchSymptom(symptom, columns, sc).Some? ==>
      forall c :: c in columns ==> Consensus(sc, symptom, c) <= Consensus(sc, symptom, MatchSymptom(symptom, columns, sc).value)
  {
    var t := Best(sc, TokenSetScorer, symptom, columns);
    assert sc.tokenSet(symptom, columns[t]) < 80;
    var b := Best(sc, ConsensusScorer, symptom, columns);
    forall c | c in columns
      ensures Consensus(sc, symptom, c) <= Consensus(sc, symptom, columns[b])
    {
      BestIsMaximal(sc, ConsensusScorer, symptom, columns, c);
    }
  }

  /** The matched names, in input order; an empty match counts as no match. */
  function MatchedNames(symptoms: seq<string>, columns: seq<string>, sc: Scorers): (r: seq<string>)
    requires |columns| > 0
    ensures |r| <= |symptoms|
    ensures forall m :: m in r ==> m in columns && m != ""
  {
    if |symptoms| == 0 then []
    else
      var rest := MatchedNames(symptoms[..|symptoms| - 1], columns, sc);
      var m := MatchSymptom(symptoms[|symptoms| - 1], columns, sc);
      if m.Some? && m.value != "" then rest + [m.value] else rest
  }

  /** Index `j` is the first position of its name in the list. */
  predicate FirstOccurrence(columns: seq<string>, j: int)
    requires 0 <= j < |columns|
  {
    forall k :: 0 <= k < j ==> columns[k] != columns[j]
  }

  /** `list.index(name)`. */
  function IndexOf(columns: seq<string>, name: string): (i: nat)
    requires name in columns
    ensures i < |columns| && columns[i] == name && FirstOccurrence(columns, i)
  {
    if columns[0] == name then 0 else 1 + IndexOf(columns[1..], name)
  }

  lemma FirstOccurrenceUnique(columns: seq<string>, i: int, j: int)
    requires 0 <= i < |columns| && 0 <= j < |columns|
    requires FirstOccurrence(columns, i) && FirstOccurrence(columns, j)
    requires columns[i] == columns[j]
    ensures i == j
  {
  }

  /** The value of the input vector at `j` for the given matches. */
  function Bit(columns: seq<string>, matched: seq<string>, j: int): int
    requires 0 <= j < |columns|
  {
    if columns[j] in matched && FirstOccurrence(columns, j) then 1 else 0
  }

  function OneHot(columns: seq<string>, matched: seq<string>): seq<int>
  {
    seq(|columns|, j requires 0 <= j < |columns| => Bit(columns, matched, j))
  }

  /**
   * The matching loop: a zero vector as long as the symptom list, one
   * match looked up per reported symptom, the first index of each match
   * set to 1 and the match appended.
   */
  method BuildInputVector(symptoms: seq<string>, columns: seq<string>, sc: Scorers)
    returns (vector: seq<int>, matched: seq<string>)
    requires |columns| > 0
    ensures matched == MatchedNames(symptoms, columns, sc)
    ensures |vector| == |columns|
    ensures forall j :: 0 <= j < |columns| ==> vector[j] == Bit(columns, matched, j)
    ensures forall j :: 0 <= j < |columns| ==> vector[j] == 0 || vector[j] == 1
    ensures forall m :: m in matched ==> vector[IndexOf(columns, m)] == 1
  {
    var v := new int[|columns|](_ => 0);
    matched := [];
    for i := 0 to |symptoms|
      invariant matched == MatchedNames(symptoms[..i], columns, sc)
      invariant forall j :: 0 <= j < v.Length ==> v[j] == Bit(columns, matched, j)
    {
      assert symptoms[..i + 1][..i] == symptoms[..i];
      var m := MatchSymptom(symptoms[i], columns, sc);
      if m.Some? && m.value != "" {
        var idx := IndexOf(columns, m.value);
        v[idx] := 1;
        forall j | 0 <= j < v.Length
          ensures v[j] == Bit(columns, matched + [m.value], j)
        {
          if j != idx && columns[j] == m.value && FirstOccurrence(columns, j) {
            FirstOccurrenceUnique(columns, idx, j);
          }
        }
        matched := matched + [m.value];
      }
    }
    assert symptoms[..|symptoms|] == symptoms;
    vector := v[..];
    forall m | m in matched
      ensures vector[IndexOf(columns, m)] == 1
    {
    }
  }

  /** One class of the classifier's answer, with its confidence already formatted. */
  datatype Scored = Scored(classIndex: nat, confidence: string)

  /** The classifier: for an input vector, every class in ascending order of probability. */
  type Classifier = seq<int> -> seq<Scored>

  /** The label encoder: the disease name of a class index. */
  type Encoder = nat -> string

  function Reverse<T>(s: seq<T>): (r: seq<T>)
    ensures |r| == |s|
    ensures forall k :: 0 <= k < |s| ==> r[k] == s[|s| - 1 - k]
  {
    if |s| == 0 then [] else [s[|s| - 1]] + Reverse(s[..|s| - 1])
  }

  /** `argsort(p)[-3:][::-1]`: the (at most) three most probable classes, most probable first. */
  function TopThree(ascending: seq<Scored>): (r: seq<Scored>)
    ensures |r| == if |ascending| < 3 then |ascending| else 3
    ensures forall k :: 0 <= k < |r| ==> r[k] == ascending[|ascending| - 1 - k]
  {
    var n := if |ascending| < 3 then |ascending| else 3;
    Reverse(ascending[|ascending| - n..])
  }

  const DefaultSpecialist: string := "General Physician"

  /** `specialist_mapping.get(disease, "General Physician")`. */
  function SpecialistFor(mapping: map<string, string>, disease: string): (r: string)
    ensures disease in mapping ==> r == mapping[disease]
    ensures disease !in mapping ==> r == DefaultSpecialist
  {
    if disease in mapping then mapping[disease] else DefaultSpecialist
  }

  /**
   * With the mapping the mapping generator writes, the service's lookup
   * agrees with the keyword rules for every known disease and never
   * yields a specialist outside the rules' labels.
   */
  lemma GeneratedMappingLookup(classes: seq<string>, mapping: map<string, string>, disease: string)
    requires mapping.Keys == set d | d in classes
    requires forall d :: d in mapping ==> mapping[d] == SpecialistMapping.GetSpecialist(d)
    ensures disease in classes ==> SpecialistFor(mapping, disease) == SpecialistMapping.GetSpecialist(disease)
    ensures SpecialistFor(mapping, disease) in SpecialistMapping.Specialists
  {
    if disease in mapping {
      assert SpecialistFor(mapping, disease) == SpecialistMapping.GetSpecialist(disease);
    } else {
      assert SpecialistMapping.Specialists[|SpecialistMapping.Specialists| - 1] == DefaultSpecialist;
    }
  }

  datatype DiseasePrediction = DiseasePrediction(disease: string, specialist: string, confidence: string)

  function PredictionFor(s: Scored, encoder: Encoder, mapping: map<string, string>): DiseasePrediction
  {
    var disease := encoder(s.classIndex);
    DiseasePrediction(disease, SpecialistFor(mapping, disease), s.confidence)
  }

  /** The predictions for the top classes, in the same order. */
  function Predictions(top: seq<Scored>, encoder: Encoder, mapping: map<string, string>): seq<DiseasePrediction>
  {
    seq(|top|, k requires 0 <= k < |top| => PredictionFor(top[k], encoder, mapping))
  }

  /** The loop that turns the top classes into predictions. */
  method ShapePredictions(top: seq<Scored>, encoder: Encoder, mapping: map<string, string>)
    returns (predictions: seq<DiseasePrediction>)
    ensures predictions == Predictions(top, encoder, mapping)
  {
    predictions := [];
    for i := 0 to |top|
      invariant |predictions| == i
      invariant forall k :: 0 <= k < i ==> predictions[k] == PredictionFor(top[k], encoder, mapping)
    {
      var disease := encoder(top[i].classIndex);
      predictions := predictions + [DiseasePrediction(disease, SpecialistFor(mapping, disease), top[i].confidence)];
    }
  }

  /** The request body: both fields optional. */
  datatype SymptomRequest = SymptomRequest(symptoms: Option<seq<string>>, text: Option<string>)

  predicate HasText(request: SymptomRequest)
  {
    request.text.Some? && request.text.value != ""
  }

  predicate HasSymptoms(request: SymptomRequest)
  {
    request.symptoms.Some? && |request.symptoms.value| > 0
  }

  /** What the symptom extractor does with the request's text. */
  datatype Extraction = Extracted(symptoms: seq<string>) | ExtractionRaised(message: string)

  datatype Failure =
    | ModelsNotLoaded
    | ExtractionFailed(message: string)
    | MissingInput
    | PredictionFailed

  function StatusOf(f: Failure): (code: nat)
    ensures code == 400 <==> f == MissingInput
    ensures code == 400 || code == 500
  {
    if f == MissingInput then 400 else 500
  }

  const ExtractionFailedPrefix: string := "Symptom extraction failed: "
  // in two pieces, so that the verifier sees the first character of the literal
  const MissingInputDetail: string := "Either 'symptoms' list " + "or 'text' must be provided"

  /** The detail text; the text of an exception caught during prediction is not modelled. */
  function DetailOf(f: Failure): (d: string)
    ensures f.ExtractionFailed? <==> |ExtractionFailedPrefix| <= |d| && d[..|ExtractionFailedPrefix|] == ExtractionFailedPrefix
    ensures f.ExtractionFailed? ==> d[|ExtractionFailedPrefix|..] == f.message
  {
    var d := match f
      case ModelsNotLoaded => "Models not loaded"
      case ExtractionFailed(m) => ExtractionFailedPrefix + m
      case MissingInput => MissingInputDetail
      case PredictionFailed => "Prediction failed: ";
    assert !f.ExtractionFailed? ==> d[0] != ExtractionFailedPrefix[0];
    d
  }

  /** The detail text tells the client which failure occurred. */
  lemma DetailIdentifiesFailure(f: Failure, g: Failure)
    requires DetailOf(f) == DetailOf(g)
    ensures f == g
  {
    var d := DetailOf(f);
    if !f.ExtractionFailed? && !g.ExtractionFailed? {
      assert d[0] == DetailOf(g)[0];
    }
  }

  datatype Response =
    | Predicted(
        disease: string,
        specialist: Option<string>,
        confidence: string,
        predictions: seq<DiseasePrediction>,
        extractedSymptoms: seq<string>,
        matchedSymptoms: seq<string>)
    | Failed(failure: Failure)

  /** The fixed answer when there are no symptoms to match; it has no specialist. */
  const EmptyResult: Response := Predicted("Unknown", None, "0%", [], [], [])

  /** The four globals once all of them are set. */
  datatype Models = Models(
    classifier: Classifier,
    encoder: Encoder,
    columns: seq<string>,
    mapping: map<string, string>)

  /** The symptoms the request asks about, when it asks about any. */
  function InputSymptoms(request: SymptomRequest, extraction: Extraction): (r: Option<seq<string>>)
    ensures HasText(request) && extraction.Extracted? ==> r == Some(extraction.symptoms)
    ensures !HasText(request) && HasSymptoms(request) ==> r == request.symptoms
    ensures !HasText(request) && !HasSymptoms(request) ==> r.None?
  {
    if HasText(request) then
      (if extraction.Extracted? then Some(extraction.symptoms) else None)
    else if HasSymptoms(request) then request.symptoms
    else None
  }

  /** The answer for a non-empty list of symptoms. */
  function Answer(m: Models, symptoms: seq<string>, sc: Scorers): (r: Response)
    requires |symptoms| > 0
    ensures r.Failed? ==> r.failure == PredictionFailed
    ensures r.Failed? <==> |m.columns| == 0 || |m.classifier(OneHot(m.columns, MatchedNames(symptoms, m.columns, sc)))| == 0
    ensures r.Predicted? ==>
      && 0 < |r.predictions| <= 3
      && r.disease == r.predictions[0].disease
      && r.confidence == r.predictions[0].confidence
      && r.specialist == Some(SpecialistFor(m.mapping, r.disease))
      && r.extractedSymptoms == symptoms
      && r.matchedSymptoms == MatchedNames(symptoms, m.columns, sc)
      && r.predictions == Predictions(TopThree(m.classifier(OneHot(m.columns, r.matchedSymptoms))), m.encoder, m.mapping)
      && |r.matchedSymptoms| <= |symptoms|
      && (forall s :: s in r.matchedSymptoms ==> s in m.columns)
  {
    if |m.columns| == 0 then Failed(PredictionFailed)
    else
      var matched := MatchedNames(symptoms, m.columns, sc);
      var top := TopThree(m.classifier(OneHot(m.columns, matched)));
      if |top| == 0 then Failed(PredictionFailed)
      else
        var predictions := Predictions(top, m.encoder, m.mapping);
        Predicted(predictions[0].disease, Some(predictions[0].specialist), predictions[0].confidence,
                  predictions, symptoms, matched)
  }

  /** `POST /predict`, for the given state of the globals. */
  function Respond(loaded: Option<Models>, request: SymptomRequest, extraction: Extraction, sc: Scorers): (r: Response)
    ensures loaded.None? ==> r == Failed(ModelsNotLoaded)
    ensures r == Failed(MissingInput) <==> loaded.Some? && !HasText(request) && !HasSymptoms(request)
    ensures r.Failed? && r.failure.ExtractionFailed? <==>
      loaded.Some? && HasText(request) && extraction.ExtractionRaised?
    ensures loaded.Some? && HasText(request) && extraction.ExtractionRaised? ==>
      r == Failed(ExtractionFailed(extraction.message))
    ensures loaded.Some? && InputSymptoms(request, extraction) == Some([]) ==> r == EmptyResult
    ensures (&& loaded.Some? && !(HasText(request) && extraction.ExtractionRaised?)
             && InputSymptoms(request, extraction).Some? && |InputSymptoms(request, extraction).value| > 0) ==>
      r == Answer(loaded.value, InputSymptoms(request, extraction).value, sc)
    ensures r.Predicted? && r != EmptyResult ==>
      && loaded.Some?
      && InputSymptoms(request, extraction).Some?
      && r.extractedSymptoms == InputSymptoms(request, extraction).value
      && 0 < |r.predictions| <= 3
      && r.disease == r.predictions[0].disease
      && r.specialist == Some(SpecialistFor(loaded.value.mapping, r.disease))
      && (forall s :: s in r.matchedSymptoms ==> s in loaded.value.columns)
  {
    if loaded.None? then Failed(ModelsNotLoaded)
    else if HasText(request) && extraction.ExtractionRaised? then Failed(ExtractionFailed(extraction.message))
    else
      match InputSymptoms(request, extraction)
      case None => Failed(MissingInput)
      case Some(symptoms) =>
        if |symptoms| == 0 then EmptyResult else Answer(loaded.value, symptoms, sc)
  }

  /** Non-empty text wins over the list, whatever the list holds. */
  lemma TextTakesPrecedence(loaded: Option<Models>, request: SymptomRequest, extraction: Extraction, sc: Scorers, list: Option<seq<string>>)
    requires HasText(request)
    ensures Respond(loaded, request, extraction, sc) == Respond(loaded, request.(symptoms := list), extraction, sc)
  {
  }

  /**
   * The guarded part of `predict` for a non-empty symptom list: the
   * matching loop, the classifier call and the shaping of the answer.
   */
  method Classify(m: Models, symptoms: seq<string>, sc: Scorers) returns (resp: Response)
    requires |symptoms| > 0
    ensures resp == Answer(m, symptoms, sc)
  {
    if |m.columns| == 0 {
      // extractOne over no choices yields nothing to unpack
      return Failed(PredictionFailed);
    }
    var vector, matched := BuildInputVector(symptoms, m.columns, sc);
    assert vector == OneHot(m.columns, matched);
    var top := TopThree(m.classifier(vector));
    var predictions := ShapePredictions(top, m.encoder, m.mapping);
    if |predictions| == 0 {
      // predictions[0] raises
      return Failed(PredictionFailed);
    }
    var topResult := predictions[0];
    resp := Predicted(topResult.disease, Some(SpecialistFor(m.mapping, topResult.disease)),
                      topResult.confidence, predictions, symptoms, matched);
  }

  /** The service: the four globals, unset until loading succeeds. */
  class Service {
    var classifier: Option<Classifier>
    var encoder: Option<Encoder>
    var columns: Option<seq<string>>
    var mapping: Option<map<string, string>>

    function Loaded(): (r: Option<Models>)
      reads this
      ensures r.Some? <==> classifier.Some? && encoder.Some? && columns.Some? && mapping.Some?
    {
      if classifier.Some? && encoder.Some? && columns.Some? && mapping.Some? then
        Some(Models(classifier.value, encoder.value, columns.value, mapping.value))
      else None
    }

    constructor ()
      ensures classifier == None && encoder == None && columns == None && mapping == None
    {
      classifier := None;
      encoder := None;
      columns := None;
      mapping := None;
    }

    /**
     * `load_models`: the four loads in order, each given as its result or
     * `None` when it raises; the first failure ends loading and leaves the
     * globals loaded so far in place.
     */
    method LoadModels(
      classifierLoad: Option<Classifier>, encoderLoad: Option<Encoder>,
      columnsLoad: Option<seq<string>>, mappingLoad: Option<map<string, string>>)
      modifies this
      ensures classifier == if classifierLoad.Some? then classifierLoad else old(classifier)
      ensures encoder == if classifierLoad.Some? && encoderLoad.Some? then encoderLoad else old(encoder)
      ensures columns == if classifierLoad.Some? && encoderLoad.Some? && columnsLoad.Some? then columnsLoad else old(columns)
      ensures mapping == if classifierLoad.Some? && encoderLoad.Some? && columnsLoad.Some? && mappingLoad.Some?
                         then mappingLoad else old(mapping)
      ensures old(classifier) == None && old(encoder) == None && old(columns) == None && old(mapping) == None ==>
        (Loaded().Some? <==> classifierLoad.Some? && encoderLoad.Some? && columnsLoad.Some? && mappingLoad.Some?)
    {
      if classifierLoad.None? { return; }
      classifier := classifierLoad;
      if encoderLoad.None? { return; }
      encoder := encoderLoad;
      if columnsLoad.None? { return; }
      columns := columnsLoad;
      if mappingLoad.None? { return; }
      mapping := mappingLoad;
    }

    /** `predict`, with the extractor's outcome and the scorers given. */
    method Predict(request: SymptomRequest, extraction: Extraction, sc: Scorers) returns (resp: Response)
      ensures resp == Respond(Loaded(), request, extraction, sc)
    {
      if classifier.None? || encoder.None? || columns.None? || mapping.None? {
        return Failed(ModelsNotLoaded);
      }
      var userSymptoms: seq<string> := [];
      if request.text.Some? && request.text.value != "" {
        match extraction {
          case ExtractionRaised(message) =>
            return Failed(ExtractionFailed(message));
          case Extracted(symptoms) =>
            userSymptoms := symptoms;
        }
      } else if request.symptoms.Some? && |request.symptoms.value| > 0 {
        userSymptoms := request.symptoms.value;
      } else {
        return Failed(MissingInput);
      }
      if |userSymptoms| == 0 {
        return EmptyResult;
      }
      var loaded := Models(classifier.value, encoder.value, columns.value, mapping.value);
      resp := Classify(loaded, userSymptoms, sc);
    }
  }

}
