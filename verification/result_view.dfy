/** Rendering rules of App.tsx's analysis views: the urgency colour classes
    of a diagnosis card, the precaution preview, and the symptom analyser's
    conversion of diagnoses into suggestions with likelihood classes. */
module ResultView {
  import opened Common
  import opened Text
  import Urgency
  import Analysis
  import Chat

  const RedCard := "border-emergency-300 bg-emergency-50 dark:bg-emergency-900/30"
  const WarningCard := "border-warning-300 bg-warning-50 dark:bg-warning-900/30"
  const GreenCard := "border-health-300 bg-health-50 dark:bg-health-900/30"
  const NeutralCard := "border-neutral-300 bg-neutral-50 dark:bg-gray-900/30"

  const RedText := "text-emergency-800 dark:text-emergency-200"
  const WarningText := "text-warning-800 dark:text-warning-200"
  const GreenText := "text-health-800 dark:text-health-200"
  const NeutralText := "text-neutral-800 dark:text-neutral-200"

  /** The colour names with a class of their own. */
  predicate KnownColor(c: string)
  {
    c == "red" || c == "amber" || c == "yellow" || c == "green"
  }

  /** `getUrgencyColor`. */
  function UrgencyColor(c: string): (cls: string)
    ensures c == "red" ==> cls == RedCard
    ensures c == "amber" || c == "yellow" ==> cls == WarningCard
    ensures c == "green" ==> cls == GreenCard
    ensures cls == NeutralCard <==> !KnownColor(c)
  {
    match c
    case "red" => RedCard
    case "amber" => WarningCard
    case "yellow" => WarningCard
    case "green" => GreenCard
    case _ => NeutralCard
  }

  /** `getUrgencyTextColor`. */
  function UrgencyTextColor(c: string): (cls: string)
    ensures c == "red" ==> cls == RedText
    ensures c == "amber" || c == "yellow" ==> cls == WarningText
    ensures c == "green" ==> cls == GreenText
    ensures cls == NeutralText <==> !KnownColor(c)
  {
    match c
    case "red" => RedText
    case "amber" => WarningText
    case "yellow" => WarningText
    case "green" => GreenText
    case _ => NeutralText
  }

  /** The two maps agree: equal card classes give equal text classes, so
      amber and yellow are indistinguishable in both. */
  lemma ColorMapsAgree(c1: string, c2: string)
    ensures UrgencyColor(c1) == UrgencyColor(c2) <==> UrgencyTextColor(c1) == UrgencyTextColor(c2)
  {
  }

  /** A card's colour name: `(diagnosis.urgency || {}).color || 'gray'`. */
  function CardColor(urgencyColor: Option<string>): (c: string)
    ensures Truthy(urgencyColor) ==> c == urgencyColor.value
    ensures !Truthy(urgencyColor) ==> c == "gray" && UrgencyColor(c) == NeutralCard
  {
    OrElse(urgencyColor, "gray")
  }

  /** Every urgency the orchestrator attaches gets a coloured card: the
      neutral class is reached only when the colour is missing. */
  lemma OrchestratorCardsAreColored(name: string, matchCount: int)
    ensures var info := Urgency.DetermineDiseaseUrgency(name, matchCount);
            UrgencyColor(CardColor(Some(info.color))) != NeutralCard
            && UrgencyTextColor(CardColor(Some(info.color))) != NeutralText
  {
  }

  // -------------------------------------------------------- precaution preview

  datatype PreviewItem = Bullet(text: string) | More(count: nat)

  const PreviewSize := 2

  /** The "Quick Precautions" list: absent when there are no precautions,
      otherwise the first two and a "+n more" line for the rest. */
  function PrecautionPreview(ps: Option<seq<string>>): (r: Option<seq<PreviewItem>>)
    ensures r.None? <==> ps.GetOr([]) == []
    ensures r.Some? ==>
              var n := |ps.value|;
              var shown := if n < PreviewSize then n else PreviewSize;
              && |r.value| == shown + (if n > PreviewSize then 1 else 0)
              && (forall k :: 0 <= k < shown ==> r.value[k] == Bullet(ps.value[k]))
              && (n > PreviewSize <==> r.value[|r.value| - 1].More?)
              && (n > PreviewSize ==> r.value[|r.value| - 1] == More(n - PreviewSize))
  {
    match ps
    case None => None
    case Some(xs) =>
      if xs == [] then None
      else
        var top := Take(xs, PreviewSize);
        var bullets := seq(|top|, k requires 0 <= k < |top| => Bullet(top[k]));
        Some(if |xs| > PreviewSize then bullets + [More(|xs| - PreviewSize)] else bullets)
  }

  /** The preview accounts for every precaution: the bullets shown plus the
      "more" count give the full number. */
  lemma PreviewAccountsForAll(ps: seq<string>)
    requires ps != []
    ensures var items := PrecautionPreview(Some(ps)).value;
            var last := items[|items| - 1];
            |ps| == (if last.More? then |items| - 1 + last.count else |items|)
  {
  }

  // ------------------------------------------------------- symptom analyser

  /** One element of `data.result.diagnoses`: a string, or an object with
      the keys the analyser reads. */
  datatype DiagnosisJson =
    | DStr(s: string)
    | DObj(name: Option<string>, likelihood: Option<string>, reasoning: Option<string>)

  /** A `DiagnosisSuggestion`; `condition` is `None` when the code falls back
      to the object itself (`d.name || d` with no name). */
  datatype Suggestion = Suggestion(condition: Option<string>, likelihood: string, reasoning: string)

  const DefaultLikelihood := "Medium"
  const DefaultReasoning := "Based on symptom analysis"

  function Suggest(d: DiagnosisJson): (s: Suggestion)
    ensures d.DStr? ==> s == Suggestion(Some(d.s), DefaultLikelihood, DefaultReasoning)
    ensures d.DObj? ==>
              && (Truthy(d.name) ==> s.condition == d.name)
              && (!Truthy(d.name) ==> s.condition.None?)
              && s.likelihood == OrElse(d.likelihood, DefaultLikelihood)
              && s.reasoning == OrElse(d.reasoning, DefaultReasoning)
  {
    match d
    case DStr(s) => Suggestion(Some(s), DefaultLikelihood, DefaultReasoning)
    case DObj(name, likelihood, reasoning) =>
      Suggestion(if Truthy(name) then name else None,
                 OrElse(likelihood, DefaultLikelihood), OrElse(reasoning, DefaultReasoning))
  }

  /** `formattedDiagnoses`: one suggestion per diagnosis, in order. */
  function FormatSuggestions(ds: seq<DiagnosisJson>): (r: seq<Suggestion>)
    ensures |r| == |ds|
    ensures forall i :: 0 <= i < |ds| ==> r[i] == Suggest(ds[i])
  {
    seq(|ds|, i requires 0 <= i < |ds| => Suggest(ds[i]))
  }

  /** Suggestions of a concatenation are the concatenated suggestions. */
  lemma FormatSuggestionsAppend(a: seq<DiagnosisJson>, b: seq<DiagnosisJson>)
    ensures FormatSuggestions(a + b) == FormatSuggestions(a) + FormatSuggestions(b)
  {
  }

  /** An orchestrator diagnosis as the analyser reads it: an object with
      its name and whatever `likelihood` and `reasoning` the matcher put in
      it. The orchestrator's own reasoning sits under `urgency`, which the
      analyser does not read. */
  function DiagnosisJsons(ds: seq<Analysis.Diagnosis>): seq<DiagnosisJson>
  {
    seq(|ds|, i requires 0 <= i < |ds| => DObj(Some(ds[i].name), ds[i].keys.likelihood, ds[i].keys.reasoning))
  }

  /** The urgency the orchestrator attaches never reaches a suggestion: two
      analyses that differ only in their urgency records give the same
      suggestions. */
  lemma SuggestionsIgnoreUrgency(ds1: seq<Analysis.Diagnosis>, ds2: seq<Analysis.Diagnosis>)
    requires |ds1| == |ds2|
    requires forall i :: 0 <= i < |ds1| ==> ds1[i].(urgency := ds2[i].urgency) == ds2[i]
    ensures FormatSuggestions(DiagnosisJsons(ds1)) == FormatSuggestions(DiagnosisJsons(ds2))
  {
    var r1 := FormatSuggestions(DiagnosisJsons(ds1));
    var r2 := FormatSuggestions(DiagnosisJsons(ds2));
    forall i | 0 <= i < |r1| ensures r1[i] == r2[i] {
      assert ds1[i].name == ds2[i].name && ds1[i].keys == ds2[i].keys;
    }
  }

  /** For the diagnoses of any successful analysis, the likelihood and
      reasoning shown are the matcher's own values, or the defaults when
      the matcher gives none; the urgency reasoning is never shown. */
  lemma OrchestratorSuggestionsFromMatcher(transcript: string, age: Option<int>, sex: Option<string>,
                                           c: Analysis.Components)
    ensures var ds := Analysis.Analyze(transcript, age, sex, c, None).diagnoses;
            var ranked := c.rank(c.extract(transcript));
            var r := FormatSuggestions(DiagnosisJsons(ds));
            && |r| == |ranked|
            && forall i :: 0 <= i < |r| ==>
                 && r[i].likelihood == OrElse(ranked[i].keys.likelihood, DefaultLikelihood)
                 && r[i].reasoning == OrElse(ranked[i].keys.reasoning, DefaultReasoning)
                 && (ranked[i].name != "" ==> r[i].condition == Some(ranked[i].name))
  {
  }

  const HighClass := "bg-red-100 text-red-800 dark:bg-red-900 dark:text-red-200"
  const MediumClass := "bg-yellow-100 text-yellow-800 dark:bg-yellow-900 dark:text-yellow-200"
  const LowClass := "bg-green-100 text-green-800 dark:bg-green-900 dark:text-green-200"
  const OtherClass := "bg-gray-100 text-gray-800 dark:bg-gray-700 dark:text-gray-200"

  /** `getLikelihoodColor`: switches on the lowercased value. */
  function LikelihoodColor(l: string): (cls: string)
    ensures Lower(l) == "high" <==> cls == HighClass
    ensures Lower(l) == "medium" <==> cls == MediumClass
    ensures Lower(l) == "low" <==> cls == LowClass
    ensures cls == OtherClass <==> Lower(l) !in {"high", "medium", "low"}
  {
    match Lower(l)
    case "high" => HighClass
    case "medium" => MediumClass
    case "low" => LowClass
    case _ => OtherClass
  }

  /** The likelihood class ignores case. */
  lemma LikelihoodIgnoresCase(l: string)
    ensures LikelihoodColor(Lower(l)) == LikelihoodColor(l)
  {
    LowerIdempotent(l);
  }

  /** The default likelihood "Medium" gets the yellow class. */
  lemma DefaultLikelihoodIsYellow()
    ensures LikelihoodColor(DefaultLikelihood) == MediumClass
  {
    var l := Lower(DefaultLikelihood);
    assert l == "medium" by {
      forall k | 0 <= k < 6 ensures l[k] == "medium"[k] {
      }
    }
  }

  /** `data.result` as the analyser reads it. */
  datatype AnalyzerResult = AnalyzerResult(diagnoses: Option<seq<DiagnosisJson>>)

  datatype AnalyzerState = AnalyzerState(symptoms: string, isLoading: bool,
                                         results: Option<seq<Suggestion>>, error: Option<string>)

  const AnalyzerFallback := "An error occurred during analysis. Please try again."

  /** `SymptomAnalyzerView.handleAnalyze`. */
  function AnalyzeSymptoms(st: AnalyzerState, reply: Chat.Reply<AnalyzerResult>): (r: AnalyzerState)
    ensures IsBlank(st.symptoms, Js) ==> r == st
    ensures !IsBlank(st.symptoms, Js) ==>
              && r.symptoms == st.symptoms && !r.isLoading
              && (r.results.Some? <==> r.error.None?)
              && match Chat.Interpret(reply, AnalyzerFallback)
                 case Answered(res) => r.results == Some(FormatSuggestions(res.diagnoses.GetOr([])))
                 case Failed(m) => r.error == Some(m)
  {
    if IsBlank(st.symptoms, Js) then st
    else match Chat.Interpret(reply, AnalyzerFallback)
      case Answered(res) => st.(isLoading := false, results := Some(FormatSuggestions(res.diagnoses.GetOr([]))), error := None)
      case Failed(m) => st.(isLoading := false, results := None, error := Some(m))
  }
}
