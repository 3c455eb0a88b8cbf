/** Per-disease urgency classification of orchestrator.py: a disease name is
    placed in a severity class by case-insensitive substring search in two
    fixed lists (the high list is consulted first), and the number of
    matching symptoms picks the level within that class. */
module Urgency {
  import opened Text

  datatype Level = Mild | Moderate | Urgent | Critical

  /** The order Mild < Moderate < Urgent < Critical. */
  function Rank(l: Level): nat
  {
    match l
    case Mild => 0
    case Moderate => 1
    case Urgent => 2
    case Critical => 3
  }

  /** The icon shown next to the level (the file stores the glyphs
      double-encoded, so they are named here rather than spelled). */
  datatype Icon = Siren | WarningSign | Stopwatch | CheckMark

  /** The urgency record attached to a diagnosis. */
  datatype Info = Info(level: Level, color: string, icon: Icon, reasoning: string, action: string)

  const HighSeverityDiseases: seq<string> := [
    "heart attack", "stroke", "myocardial infarction",
    "sepsis", "acute respiratory distress", "pneumonia",
    "meningitis", "encephalitis", "anaphylaxis",
    "status asthmaticus", "hemorrhage", "trauma"
  ]

  const MediumSeverityDiseases: seq<string> := [
    "appendicitis", "pancreatitis", "cholecystitis",
    "dengue", "malaria", "typhoid", "hepatitis",
    "gastroenteritis", "urinary tract infection", "kidney stones",
    "severe infection", "diabetes"
  ]

  /** `any(key in name.lower() for key in keys)`. */
  predicate MentionsAny(name: string, keys: seq<string>)
  {
    exists k | 0 <= k < |keys| :: IsSubstring(keys[k], Lower(name))
  }

  predicate IsHighSeverity(name: string)
  {
    MentionsAny(name, HighSeverityDiseases)
  }

  predicate IsMediumSeverity(name: string)
  {
    MentionsAny(name, MediumSeverityDiseases)
  }

  datatype Severity = High | Medium | Low

  /** The severity class; the high list takes precedence over the medium one. */
  function SeverityOf(name: string): (s: Severity)
    ensures s == High <==> IsHighSeverity(name)
    ensures s == Medium <==> !IsHighSeverity(name) && IsMediumSeverity(name)
    ensures s == Low <==> !IsHighSeverity(name) && !IsMediumSeverity(name)
  {
    if IsHighSeverity(name) then High
    else if IsMediumSeverity(name) then Medium
    else Low
  }

  /** The action of the Critical level, the only one that names the
      emergency services. */
  const EmergencyAction := "Call emergency services (102/911) immediately"

  /** `determine_disease_urgency(disease_name, symptoms, match_count)`; the
      `symptoms` argument is never read by the source and is omitted. */
  function DetermineDiseaseUrgency(name: string, matchCount: int): (r: Info)
    ensures r.level == Critical <==> IsHighSeverity(name) && matchCount >= 4
    ensures r.level == Urgent <==>
              || (IsHighSeverity(name) && 2 <= matchCount < 4)
              || (!IsHighSeverity(name) && IsMediumSeverity(name) && matchCount >= 4)
    ensures r.level == Moderate <==>
              || (IsHighSeverity(name) && matchCount < 2)
              || (!IsHighSeverity(name) && IsMediumSeverity(name) && 2 <= matchCount < 4)
              || (!IsHighSeverity(name) && !IsMediumSeverity(name) && matchCount >= 4)
    ensures r.level == Mild <==>
              || (!IsHighSeverity(name) && IsMediumSeverity(name) && matchCount < 2)
              || (!IsHighSeverity(name) && !IsMediumSeverity(name) && matchCount < 4)
    ensures r.color == "red" <==> IsHighSeverity(name) && matchCount >= 2
    ensures r.color == "green" <==> r.level == Mild
    ensures r.color == "amber" <==> r.color != "red" && r.level != Mild
    ensures r.color in {"red", "amber", "green"}
    ensures r.icon == Siren <==> r.level == Critical
    ensures r.icon == WarningSign <==> r.level == Urgent
    ensures r.icon == Stopwatch <==> r.level == Moderate
    ensures r.icon == CheckMark <==> r.level == Mild
    ensures r.level == Critical <==> r.action == EmergencyAction
  {
    match SeverityOf(name)
    case High =>
      if matchCount >= 4 then
        Info(Critical, "red", Siren, name + " is a critical condition", EmergencyAction)
      else if matchCount >= 2 then
        Info(Urgent, "red", WarningSign, name + " requires immediate hospital visit",
             "Go to hospital/emergency center NOW")
      else
        Info(Moderate, "amber", Stopwatch, "Symptoms suggest " + name + ", needs urgent evaluation",
             "Visit hospital within 2-4 hours")
    case Medium =>
      if matchCount >= 4 then
        Info(Urgent, "amber", WarningSign, name + " needs prompt medical attention",
             "Visit hospital/clinic today")
      else if matchCount >= 2 then
        Info(Moderate, "amber", Stopwatch, name + " requires medical consultation soon",
             "See doctor within 24 hours")
      else
        Info(Mild, "green", CheckMark, "Possible " + name + ", monitor symptoms",
             "Home care, consult doctor if symptoms worsen")
    case Low =>
      if matchCount >= 4 then
        Info(Moderate, "amber", Stopwatch, "Likely " + name + ", moderate match",
             "See doctor within 2-3 days")
      else if matchCount >= 2 then
        Info(Mild, "green", CheckMark, "Possible " + name + ", monitor symptoms",
             "Home care, consult doctor if needed")
      else
        Info(Mild, "green", CheckMark, "Low likelihood of " + name,
             "Monitor symptoms, consult if they persist")
  }

  /** `a + name + b` contains `name`. */
  lemma ContainsMiddle(a: string, name: string, b: string)
    ensures IsSubstring(name, a + name + b)
  {
    assert OccursAt(name, a + name + b, |a|);
  }

  /** Every reasoning text names the disease it is about. */
  lemma ReasoningNamesDisease(name: string, c: int)
    ensures IsSubstring(name, DetermineDiseaseUrgency(name, c).reasoning)
  {
    var r := DetermineDiseaseUrgency(name, c);
    match SeverityOf(name)
    case High =>
      if c >= 4 { ContainsStart(name, " is a critical condition"); }
      else if c >= 2 { ContainsStart(name, " requires immediate hospital visit"); }
      else { ContainsMiddle("Symptoms suggest ", name, ", needs urgent evaluation"); }
    case Medium =>
      if c >= 4 { ContainsStart(name, " needs prompt medical attention"); }
      else if c >= 2 { ContainsStart(name, " requires medical consultation soon"); }
      else { ContainsMiddle("Possible ", name, ", monitor symptoms"); }
    case Low =>
      if c >= 4 { ContainsMiddle("Likely ", name, ", moderate match"); }
      else if c >= 2 { ContainsMiddle("Possible ", name, ", monitor symptoms"); }
      else {
        assert "Low likelihood of " + name == "Low likelihood of " + name + "";
        ContainsMiddle("Low likelihood of ", name, "");
      }
  }

  /** `name + b` contains `name`. */
  lemma ContainsStart(name: string, b: string)
    ensures IsSubstring(name, name + b)
  {
    assert OccursAt(name, name + b, 0);
  }

  /** The docstring's promise "higher match count = higher urgency": for a
      fixed disease name the level never drops as the count grows. */
  lemma LevelMonotoneInMatchCount(name: string, c1: int, c2: int)
    requires c1 <= c2
    ensures Rank(DetermineDiseaseUrgency(name, c1).level)
            <= Rank(DetermineDiseaseUrgency(name, c2).level)
  {
  }

  /** Critical is reserved for high-severity diseases. */
  lemma CriticalOnlyForHighSeverity(name: string, c: int)
    ensures DetermineDiseaseUrgency(name, c).level == Critical ==> IsHighSeverity(name)
  {
  }

  /** A name that mentions both a high- and a medium-severity disease is
      classified exactly as a name that mentions only the high one would be. */
  lemma HighListTakesPrecedence(name: string, other: string, c: int)
    requires IsHighSeverity(name) && IsMediumSeverity(name)
    requires IsHighSeverity(other) && !IsMediumSeverity(other)
    ensures DetermineDiseaseUrgency(name, c).level == DetermineDiseaseUrgency(other, c).level
    ensures DetermineDiseaseUrgency(name, c).color == DetermineDiseaseUrgency(other, c).color
  {
  }

  /** Severity membership ignores case. */
  lemma SeverityIgnoresCase(name: string)
    ensures SeverityOf(Lower(name)) == SeverityOf(name)
  {
    LowerIdempotent(name);
  }

  /** Concrete instances: "Heart Attack" is critical with four matching
      symptoms, urgent with three and only moderate with one. */
  lemma HeartAttackExamples()
    ensures DetermineDiseaseUrgency("Heart Attack", 4).level == Critical
    ensures DetermineDiseaseUrgency("Heart Attack", 3).level == Urgent
    ensures DetermineDiseaseUrgency("Heart Attack", 1).level == Moderate
  {
    var lowered := Lower("Heart Attack");
    assert lowered == "heart attack" by {
      forall k | 0 <= k < 12 ensures lowered[k] == "heart attack"[k] {
      }
    }
    assert OccursAt("heart attack", lowered, 0);
    assert HighSeverityDiseases[0] == "heart attack";
    assert IsSubstring(HighSeverityDiseases[0], lowered);
  }
}
