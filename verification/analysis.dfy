/** The result-shaping part of `analyze` in orchestrator.py. The symptom
    extractor, triage engine, disease matcher and precaution loader are not
    part of this model; they enter as function values, and an exception
    raised by any of them enters as the message it carries. */
module Analysis {
  import opened Common
  import opened Text
  import Urgency

  /** Keys of the matcher's dictionary that the orchestrator never reads
      and passes through unchanged; the clients read `likelihood` and
      `reasoning` (other such keys are omitted). */
  datatype MatcherKeys = MatcherKeys(likelihood: Option<string>, reasoning: Option<string>)

  /** A ranked match as the disease matcher returns it. */
  datatype Match = Match(name: string, matchCount: int, keys: MatcherKeys)

  /** A ranked match after the orchestrator attached urgency and precautions. */
  datatype Diagnosis = Diagnosis(name: string, matchCount: int, keys: MatcherKeys,
                                 urgency: Urgency.Info, precautions: seq<string>)

  /** `mapped_precautions`: `{}` or `{'disease': d, 'precautions': ps}`. */
  datatype TopPrecautions = NoTop | Top(disease: string, precautions: seq<string>)

  /** The collaborators `analyze` calls. `rank` stands for
      `rank_diseases(find_matching_diseases(symptoms))`. */
  datatype Components = Components(
    extract: string -> seq<string>,
    triage: seq<string> -> Triage,
    rank: seq<string> -> seq<Match>,
    precautions: string -> seq<string>)

  /** The dictionary `analyze` returns. The failure shape has no `age` and
      `sex` keys; they read as `None` here. */
  datatype Result = Result(
    transcript: string,
    symptomsExtracted: seq<Item>,
    diagnoses: seq<Diagnosis>,
    overallTriage: Option<Triage>,
    mappedPrecautions: TopPrecautions,
    age: Option<int>,
    sex: Option<string>,
    success: bool,
    error: Option<string>)

  /** What the triage engine is asked about: the extracted symptoms followed
      by the words of the lowercased transcript. */
  function TriageInput(extracted: seq<string>, transcript: string): seq<string>
  {
    extracted + Words(Lower(transcript), Py)
  }

  /** The loop over ranked diagnoses: each keeps its name and match count and
      gains an urgency and its precautions, in ranking order. */
  function AttachUrgency(ranked: seq<Match>, precautionsOf: string -> seq<string>): (ds: seq<Diagnosis>)
    ensures |ds| == |ranked|
    ensures forall i :: 0 <= i < |ds| ==>
              && ds[i].name == ranked[i].name
              && ds[i].matchCount == ranked[i].matchCount
              && ds[i].keys == ranked[i].keys
              && ds[i].urgency == Urgency.DetermineDiseaseUrgency(ranked[i].name, ranked[i].matchCount)
              && ds[i].precautions == precautionsOf(ranked[i].name)
  {
    if ranked == [] then []
    else
      var m := ranked[0];
      [Diagnosis(m.name, m.matchCount, m.keys, Urgency.DetermineDiseaseUrgency(m.name, m.matchCount), precautionsOf(m.name))]
      + AttachUrgency(ranked[1..], precautionsOf)
  }

  /** `[{'name': s} for s in extracted]`. */
  function WrapSymptoms(extracted: seq<string>): (items: seq<Item>)
    ensures |items| == |extracted|
    ensures forall i :: 0 <= i < |items| ==> items[i] == Obj(Some(extracted[i]))
  {
    if extracted == [] then [] else [Obj(Some(extracted[0]))] + WrapSymptoms(extracted[1..])
  }

  /** `mapped_precautions`: the top-ranked disease and its precautions. */
  function MapPrecautions(ranked: seq<Match>, precautionsOf: string -> seq<string>): (p: TopPrecautions)
    ensures p.NoTop? <==> ranked == []
    ensures ranked != [] ==> p == Top(ranked[0].name, precautionsOf(ranked[0].name))
  {
    if ranked == [] then NoTop
    else Top(ranked[0].name, precautionsOf(ranked[0].name))
  }

  /** `analyze(transcript, age, sex)`; `raised` is the message of an
      exception thrown by a collaborator, if one was. */
  function Analyze(transcript: string, age: Option<int>, sex: Option<string>,
                   c: Components, raised: Option<string>): (r: Result)
    ensures r.transcript == transcript
    ensures r.success <==> raised.None?
    ensures raised.Some? ==>
              && r.symptomsExtracted == [] && r.diagnoses == []
              && r.overallTriage.None? && r.mappedPrecautions.NoTop?
              && r.error == raised
    ensures raised.None? ==>
              var extracted := c.extract(transcript);
              var ranked := c.rank(extracted);
              && |r.symptomsExtracted| == |extracted|
              && (forall i :: 0 <= i < |extracted| ==> r.symptomsExtracted[i] == Obj(Some(extracted[i])))
              && r.overallTriage == Some(c.triage(TriageInput(extracted, transcript)))
              && |r.diagnoses| == |ranked|
              && (forall i :: 0 <= i < |ranked| ==>
                    && r.diagnoses[i].name == ranked[i].name
                    && r.diagnoses[i].matchCount == ranked[i].matchCount
                    && r.diagnoses[i].keys == ranked[i].keys
                    && r.diagnoses[i].urgency == Urgency.DetermineDiseaseUrgency(ranked[i].name, ranked[i].matchCount)
                    && r.diagnoses[i].precautions == c.precautions(ranked[i].name))
              && (r.mappedPrecautions.NoTop? <==> ranked == [])
              && (ranked != [] ==> r.mappedPrecautions.disease == ranked[0].name)
              && r.age == age && r.sex == sex && r.error.None?
  {
    match raised
    case Some(e) =>
      Result(transcript, [], [], None, NoTop, None, None, false, Some(e))
    case None =>
      var extracted := c.extract(transcript);
      var overall := c.triage(TriageInput(extracted, transcript));
      var ranked := c.rank(extracted);
      Result(transcript, WrapSymptoms(extracted), AttachUrgency(ranked, c.precautions),
             Some(overall), MapPrecautions(ranked, c.precautions), age, sex, true, None)
  }

  /** The mapped precautions are those of the first listed diagnosis. */
  lemma MappedPrecautionsMatchFirstDiagnosis(transcript: string, age: Option<int>, sex: Option<string>, c: Components)
    ensures var r := Analyze(transcript, age, sex, c, None);
            r.diagnoses != [] ==>
              r.mappedPrecautions == Top(r.diagnoses[0].name, r.diagnoses[0].precautions)
  {
  }

  /** Urgency of a successful analysis never exceeds Moderate for a
      diagnosis matched by fewer than two symptoms. */
  lemma FewMatchesAtMostModerate(transcript: string, age: Option<int>, sex: Option<string>, c: Components, i: int)
    requires 0 <= i < |Analyze(transcript, age, sex, c, None).diagnoses|
    requires Analyze(transcript, age, sex, c, None).diagnoses[i].matchCount < 2
    ensures Urgency.Rank(Analyze(transcript, age, sex, c, None).diagnoses[i].urgency.level) <= 1
  {
  }
}
