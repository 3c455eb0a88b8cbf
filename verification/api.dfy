/** Request validation and response shaping of the Flask handlers in
    api_server.py: `/api/chat`, `/api/disease`, `/api/medicine-search`,
    `/api/transcribe` and `/api/voice/record`. Each handler is a function from
    the request fields it reads (and the collaborators it calls, as function
    values) to the JSON body and status code it returns. */
module Api {
  import opened Common
  import opened Text
  import Analysis

  // ---------------------------------------------------------------- /api/chat

  /** The value of the `message` key: a string, or something else (a number,
      `null`, ...) on which `.strip()` raises. */
  datatype Field = TextField(text: string) | OtherField

  /** The parsed JSON body. `NoBody` is a missing or empty body (`not data`). */
  datatype ChatRequest =
    | NoBody
    | Body(message: Option<Field>, age: Option<int>, sex: Option<string>)

  /** The analysis dictionary: the keys the handler reads with `.get`, and
      the `triage` key the local client reads from the `result` the handler
      passes through. Every key may be missing. */
  datatype ResultDict = ResultDict(
    diagnoses: Option<seq<Analysis.Diagnosis>>,
    overallTriage: Option<Triage>,
    symptomsExtracted: Option<seq<Item>>,
    mappedPrecautions: Option<Analysis.TopPrecautions>,
    triage: Option<Triage>)

  /** The dictionary `orchestrator.analyze` returns carries the four keys
      the handler reads, and no `triage` key. */
  function FromAnalysis(r: Analysis.Result): (d: ResultDict)
    ensures d.triage.None?
  {
    ResultDict(Some(r.diagnoses), r.overallTriage, Some(r.symptomsExtracted), Some(r.mappedPrecautions), None)
  }

  /** A failure carries the status and the error text; `None` stands for
      the text of a Python exception, which is not modelled. */
  datatype ChatResponse =
    | ChatFailure(status: int, error: Option<string>)
    | ChatSuccess(message: string, result: ResultDict,
                  diagnoses: seq<Analysis.Diagnosis>, triage: Option<Triage>,
                  overallTriage: Option<Triage>, symptomsExtracted: seq<Item>,
                  precautions: Analysis.TopPrecautions)
  {
    function Status(): int
    {
      match this
      case ChatFailure(s, _) => s
      case ChatSuccess(_, _, _, _, _, _, _) => 200
    }
  }

  const MissingMessage := "Missing 'message' field in request"
  const EmptyMessage := "Message cannot be empty"

  type Analyzer = (string, Option<int>, Option<string>) -> ResultDict

  /** `chat()`. */
  function Chat(req: ChatRequest, analyze: Analyzer): (r: ChatResponse)
    ensures (req.NoBody? || req.message.None?) ==> r == ChatFailure(400, Some(MissingMessage))
    ensures req.Body? && req.message == Some(OtherField) ==> r.ChatFailure? && r.status == 500
    ensures req.Body? && req.message.Some? && req.message.value.TextField? ==>
              var raw := req.message.value.text;
              && (IsBlank(raw, Py) ==> r == ChatFailure(400, Some(EmptyMessage)))
              && (!IsBlank(raw, Py) ==>
                    && r.ChatSuccess?
                    && r.message == Strip(raw, Py)
                    && r.result == analyze(Strip(raw, Py), req.age, req.sex))
    ensures r.ChatSuccess? ==>
              && r.triage == r.result.overallTriage
              && r.overallTriage == r.result.overallTriage
              && r.diagnoses == r.result.diagnoses.GetOr([])
              && r.symptomsExtracted == r.result.symptomsExtracted.GetOr([])
              && r.precautions == r.result.mappedPrecautions.GetOr(Analysis.NoTop)
    ensures r.Status() == 200 <==> r.ChatSuccess?
  {
    match req
    case NoBody => ChatFailure(400, Some(MissingMessage))
    case Body(message, age, sex) =>
      match message
      case None => ChatFailure(400, Some(MissingMessage))
      case Some(OtherField) => ChatFailure(500, None)
      case Some(TextField(raw)) =>
        var msg := Strip(raw, Py);
        if msg == [] then ChatFailure(400, Some(EmptyMessage))
        else
          var result := analyze(msg, age, sex);
          ChatSuccess(msg, result,
                      result.diagnoses.GetOr([]),
                      result.overallTriage,
                      result.overallTriage,
                      result.symptomsExtracted.GetOr([]),
                      result.mappedPrecautions.GetOr(Analysis.NoTop))
  }

  /** A blank message is rejected before the analyzer is consulted: the
      response is the same whatever the analyzer would have said. */
  lemma BlankMessageSkipsAnalyzer(raw: string, age: Option<int>, sex: Option<string>, a1: Analyzer, a2: Analyzer)
    requires IsBlank(raw, Py)
    ensures Chat(Body(Some(TextField(raw)), age, sex), a1) == Chat(Body(Some(TextField(raw)), age, sex), a2)
    ensures Chat(Body(Some(TextField(raw)), age, sex), a1).Status() == 400
  {
  }

  /** Wired to `orchestrator.analyze`, the top-level fields are exactly the
      analysis fields: the defaults never apply. */
  lemma ChatMirrorsOrchestrator(raw: string, age: Option<int>, sex: Option<string>,
                                c: Analysis.Components, raised: Option<string>)
    requires !IsBlank(raw, Py)
    ensures var r := Chat(Body(Some(TextField(raw)), age, sex),
                          (m, a, s) => FromAnalysis(Analysis.Analyze(m, a, s, c, raised)));
            var an := Analysis.Analyze(Strip(raw, Py), age, sex, c, raised);
            && r.ChatSuccess?
            && r.diagnoses == an.diagnoses
            && r.triage == an.overallTriage
            && r.symptomsExtracted == an.symptomsExtracted
            && r.precautions == an.mappedPrecautions
  {
  }

  /** When a collaborator of `analyze` raised, the chat endpoint still
      answers 200 with `success: true`; the failure is visible only as empty
      diagnoses and a missing triage. */
  lemma AnalysisFailureStillAnswers200(raw: string, age: Option<int>, sex: Option<string>,
                                       c: Analysis.Components, e: string)
    requires !IsBlank(raw, Py)
    ensures var r := Chat(Body(Some(TextField(raw)), age, sex),
                          (m, a, s) => FromAnalysis(Analysis.Analyze(m, a, s, c, Some(e))));
            && r.Status() == 200
            && r.diagnoses == [] && r.triage.None? && r.symptomsExtracted == []
            && r.precautions == Analysis.NoTop
  {
  }

  // ------------------------------------------------------------- /api/disease

  /** What the knowledge loader returns: a string, or anything else. */
  datatype KbInfo = InfoText(text: string) | InfoOther

  datatype DiseaseResponse =
    | DiseaseFailure(status: int, error: string)
    | DiseaseSuccess(name: string, description: string, symptoms: seq<string>,
                     precautions: seq<string>, recommendations: seq<string>)

  const MissingName := "Missing 'name' query parameter"

  const Recommendations: seq<string> := [
    "Consult with a qualified healthcare professional",
    "Do not self-diagnose or self-medicate",
    "Follow medical advice from licensed practitioners"
  ]

  /** `get_disease()`; `precautionsOf` returns `None` for Python `None`. */
  function Disease(name: Option<string>, info: string -> KbInfo,
                   precautionsOf: string -> Option<seq<string>>): (r: DiseaseResponse)
    ensures !Truthy(name) <==> r.DiseaseFailure?
    ensures r.DiseaseFailure? ==> r == DiseaseFailure(400, MissingName)
    ensures r.DiseaseSuccess? ==>
              && r.name == name.value
              && (info(name.value).InfoText? ==> r.description == info(name.value).text)
              && (info(name.value).InfoOther? ==> r.description == "Information about " + name.value)
              && r.symptoms == []
              && r.precautions == precautionsOf(name.value).GetOr([])
              && r.recommendations == Recommendations
  {
    if !Truthy(name) then DiseaseFailure(400, MissingName)
    else
      var n := name.value;
      var description := match info(n)
        case InfoText(s) => s
        case InfoOther => "Information about " + n;
      var ps := precautionsOf(n);
      DiseaseSuccess(n, description, [], if ps.Some? && ps.value != [] then ps.value else [],
                     Recommendations)
  }

  /** The loaders are consulted for the requested name only: loaders that
      agree on that name give the same response, and a missing name is
      answered without them. */
  lemma DiseaseConsultsOnlyName(name: Option<string>, info1: string -> KbInfo, info2: string -> KbInfo,
                                ps1: string -> Option<seq<string>>, ps2: string -> Option<seq<string>>)
    requires Truthy(name) ==> info1(name.value) == info2(name.value) && ps1(name.value) == ps2(name.value)
    ensures Disease(name, info1, ps1) == Disease(name, info2, ps2)
  {
  }

  // ----------------------------------------------------- /api/medicine-search

  /** The medicine service's answer: its `success` flag and the rest of the
      JSON, which the handler passes through untouched. */
  datatype ServiceResult<B> = ServiceResult(success: bool, payload: B)

  datatype MedicineResponse<B> =
    | MedicineRejected(status: int, error: string)
    | MedicineAnswered(status: int, result: ServiceResult<B>)

  const MissingMedicine := "Missing 'medicine' query parameter"

  /** `medicine_search()`; `lat`/`lon` are the parsed query values (`None`
      when absent or not a number). */
  function MedicineSearch<B>(medicine: Option<string>, lat: Option<real>, lon: Option<real>,
                             search: (string, Option<real>, Option<real>) -> ServiceResult<B>): (r: MedicineResponse<B>)
    ensures IsBlank(medicine.GetOr(""), Py) <==> r.MedicineRejected?
    ensures r.MedicineRejected? ==> r == MedicineRejected(400, MissingMedicine)
    ensures r.MedicineAnswered? ==>
              && r.result == search(Strip(medicine.value, Py), lat, lon)
              && (r.status == 200 <==> r.result.success)
              && (r.status == 404 <==> !r.result.success)
  {
    var m := Strip(medicine.GetOr(""), Py);
    if m == [] then MedicineRejected(400, MissingMedicine)
    else
      var result := search(m, lat, lon);
      MedicineAnswered(if result.success then 200 else 404, result)
  }

  /** Padding around the medicine name changes nothing, and a blank name
      never reaches the service. */
  lemma MedicineSearchIgnoresPadding<B>(medicine: string, lat: Option<real>, lon: Option<real>,
                                        search: (string, Option<real>, Option<real>) -> ServiceResult<B>,
                                        other: (string, Option<real>, Option<real>) -> ServiceResult<B>)
    ensures MedicineSearch(Some(medicine), lat, lon, search)
            == MedicineSearch(Some(Strip(medicine, Py)), lat, lon, search)
    ensures IsBlank(medicine, Py) ==>
              MedicineSearch(Some(medicine), lat, lon, search) == MedicineSearch(Some(medicine), lat, lon, other)
  {
    StripIdempotent(medicine, Py);
  }

  // ---------------------------------------------------------- /api/transcribe

  /** The multipart `audio` part: absent, present with an empty file name
      (a falsy upload), or present with its bytes. */
  datatype Upload = NoAudioPart | UnnamedUpload | AudioUpload(data: seq<int>)

  datatype TranscribeResponse =
    | TranscribeFailure(status: int, error: string)
    | Transcribed(text: string, detectedLanguage: string, confidence: nat)

  const VoiceNotConfigured := "Voice processing not configured. Install vosk and pyaudio."
  const NoAudio := "No audio file provided"
  const EmptyAudio := "Audio file is empty"
  const NotTranscribed := "Could not transcribe audio. Please speak clearly."

  /** `request.form.get('language', 'en').lower()[:2]`. The handler computes
      it but never passes it on. */
  function RequestedLanguage(form: Option<string>): (r: string)
    ensures |r| == if |form.GetOr("en")| < 2 then |form.GetOr("en")| else 2
    ensures r <= Lower(form.GetOr("en"))
  {
    Take(Lower(form.GetOr("en")), 2)
  }

  /** Normalising a requested language twice changes nothing. */
  lemma RequestedLanguageIdempotent(form: Option<string>)
    ensures RequestedLanguage(Some(RequestedLanguage(form))) == RequestedLanguage(form)
  {
    var r := RequestedLanguage(form);
    assert Lower(r) == r by {
      forall k | 0 <= k < |r| ensures Lower(r)[k] == r[k] {
        assert r[k] == Lower(form.GetOr("en"))[k];
      }
    }
  }

  /** `lang_map.get(detected, 'EN')`. */
  function LanguageTag(detected: string): (tag: string)
    ensures tag in {"EN", "HI", "PA"}
    ensures tag == "HI" <==> detected == "hi"
    ensures tag == "PA" <==> detected == "pa"
  {
    if detected == "hi" then "HI"
    else if detected == "pa" then "PA"
    else "EN"
  }

  /** The tag map inverts lowercasing on the three supported tags. */
  lemma LanguageTagRoundTrip(tag: string)
    requires tag in {"EN", "HI", "PA"}
    ensures LanguageTag(Lower(tag)) == tag
  {
    var l := Lower(tag);
    if tag == "HI" { assert l == "hi" by { assert l[0] == 'h' && l[1] == 'i'; } }
    else if tag == "PA" { assert l == "pa" by { assert l[0] == 'p' && l[1] == 'a'; } }
    else { assert l[0] == 'e'; }
  }

  /** What `voice_processor.detect_language(audio_data)` does: return the
      language code and the text (`None` for Python `None`), or raise an
      exception with the given message. */
  datatype Detection = Detected(lang: string, text: Option<string>) | Raised(message: string)

  /** The prefix of the 500 answer to an exception inside the handler. */
  const TranscriptionError := "Transcription error: "

  /** `transcribe_audio()`. */
  function Transcribe(voiceEnabled: bool, audio: Upload, language: Option<string>,
                      detect: seq<int> -> Detection): (r: TranscribeResponse)
    ensures !voiceEnabled ==> r == TranscribeFailure(500, VoiceNotConfigured)
    ensures voiceEnabled && audio.NoAudioPart? ==> r == TranscribeFailure(400, NoAudio)
    ensures voiceEnabled && audio.UnnamedUpload? ==> r == TranscribeFailure(400, EmptyAudio)
    ensures voiceEnabled && audio.AudioUpload? && detect(audio.data).Raised? ==>
              r == TranscribeFailure(500, TranscriptionError + detect(audio.data).message)
    ensures voiceEnabled && audio.AudioUpload? && detect(audio.data).Detected? ==>
              var d := detect(audio.data);
              && (!Truthy(d.text) ==> r == TranscribeFailure(400, NotTranscribed))
              && (Truthy(d.text) ==>
                    && r.Transcribed?
                    && r.text == Strip(d.text.value, Py)
                    && r.detectedLanguage == LanguageTag(d.lang)
                    && r.confidence == |Words(d.text.value, Py)|)
    ensures r.Transcribed? <==> voiceEnabled && audio.AudioUpload? && detect(audio.data).Detected?
                                && Truthy(detect(audio.data).text)
  {
    if !voiceEnabled then TranscribeFailure(500, VoiceNotConfigured)
    else match audio
      case NoAudioPart => TranscribeFailure(400, NoAudio)
      case UnnamedUpload => TranscribeFailure(400, EmptyAudio)
      case AudioUpload(data) =>
        match detect(data)
        case Raised(m) => TranscribeFailure(500, TranscriptionError + m)
        case Detected(lang, text) =>
          if !Truthy(text) then TranscribeFailure(400, NotTranscribed)
          else Transcribed(Strip(text.value, Py), LanguageTag(lang), |Words(text.value, Py)|)
  }

  /** The message Python gives for the call at api_server.py:273: the
      `VoiceProcessor` of voice_processor.py has no `detect_language`
      method (it defines `record_audio`, `text_to_speech`, `play_audio`
      and `get_available_voices` only). */
  const NoDetectLanguage := "'VoiceProcessor' object has no attribute 'detect_language'"

  /** The repository's voice processor: every call raises. The message is
      the missing attribute's only when `get_voice_processor()`
      (api_server.py:270) constructs the processor; if `pyttsx3.init()`
      raises in its constructor (voice_processor.py:23), the answer is
      still a 500, carrying that exception's message instead. */
  function RepositoryDetect(data: seq<int>): (d: Detection)
    ensures d == Raised(NoDetectLanguage)
  {
    Raised(NoDetectLanguage)
  }

  /** With the repository's voice processor, no upload is ever transcribed:
      every request either fails a check (500 or 400) or reaches detection
      and answers 500 with the attribute error. */
  lemma RepositoryNeverTranscribes(voiceEnabled: bool, audio: Upload, language: Option<string>)
    ensures var r := Transcribe(voiceEnabled, audio, language, RepositoryDetect);
            && r.TranscribeFailure?
            && (voiceEnabled && audio.AudioUpload? ==>
                  r == TranscribeFailure(500, TranscriptionError + NoDetectLanguage))
  {
  }

  /** For a processor that returns text, the confidence counts the words of
      that text, and is zero exactly when the returned (stripped) text is
      empty: a transcript of white space only passes the emptiness check
      and comes back as "" with confidence 0. */
  lemma ConfidenceCountsWords(data: seq<int>, language: Option<string>,
                              detect: seq<int> -> Detection)
    requires detect(data).Detected? && Truthy(detect(data).text)
    ensures var r := Transcribe(true, AudioUpload(data), language, detect);
            && r.Transcribed?
            && Concat(Words(detect(data).text.value, Py)) == NonSpace(detect(data).text.value, Py)
            && (r.confidence == 0 <==> r.text == "")
            && r.confidence == WordStarts(detect(data).text.value, Py, true)
  {
    var text := detect(data).text.value;
    WordsCount(text, Py);
    WordsCoverNonSpace(text, Py);
    WordsEmptyIffBlank(text, Py);
  }

  // -------------------------------------------------------- /api/voice/record

  const DefaultDuration := 5
  const MinDuration := 1
  const MaxDuration := 30

  /** `data.get('duration', 5)`, replaced by 5 when outside [1, 30]. */
  function EffectiveDuration(requested: Option<int>): (d: int)
    ensures MinDuration <= d <= MaxDuration
    ensures requested.Some? && MinDuration <= requested.value <= MaxDuration ==> d == requested.value
    ensures requested.None? || requested.value < MinDuration || requested.value > MaxDuration ==> d == DefaultDuration
  {
    var d := requested.GetOr(DefaultDuration);
    if d < MinDuration || d > MaxDuration then DefaultDuration else d
  }

  /** Clamping an accepted duration again changes nothing. */
  lemma EffectiveDurationIdempotent(requested: Option<int>)
    ensures EffectiveDuration(Some(EffectiveDuration(requested))) == EffectiveDuration(requested)
  {
  }

  datatype RecordResponse =
    | RecordFailure(status: int, error: string)
    | Recorded(audio: seq<int>, duration: int, format: string)

  const VoiceUnavailable := "Voice processing not available"
  const RecordFailed := "Failed to record audio"

  /** `voice_record()`; `record` is the voice processor's `record_audio`
      (`None` for Python `None`). The base64 encoding of the audio is not
      modelled: the bytes are returned as they are. */
  function VoiceRecord(voiceEnabled: bool, requested: Option<int>,
                       record: int -> Option<seq<int>>): (r: RecordResponse)
    ensures !voiceEnabled ==> r == RecordFailure(500, VoiceUnavailable)
    ensures voiceEnabled ==>
              var audio := record(EffectiveDuration(requested));
              && (audio.None? || audio.value == [] ==> r == RecordFailure(500, RecordFailed))
              && (audio.Some? && audio.value != [] ==>
                    r == Recorded(audio.value, EffectiveDuration(requested), "wav"))
    ensures r.Recorded? ==> MinDuration <= r.duration <= MaxDuration
  {
    if !voiceEnabled then RecordFailure(500, VoiceUnavailable)
    else
      var d := EffectiveDuration(requested);
      match record(d)
      case None => RecordFailure(500, RecordFailed)
      case Some(bytes) =>
        if bytes == [] then RecordFailure(500, RecordFailed)
        else Recorded(bytes, d, "wav")
  }
}
