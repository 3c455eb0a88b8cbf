# Health assistant core, modelled in Dafny

This project models the decision and formatting rules of a voice-enabled health assistant. The assistant has two parts:

- a Python back end (`orchestrator.py`, `api_server.py`);
- a React client (`App.tsx`, `App_local.tsx`, `MedicineAvailability.tsx`, `LoginPage.tsx`, `UserDashboard.tsx`).

Each rule is a pure function over immutable datatypes. Collaborators whose code is not part of this model enter as function-valued parameters: the symptom extractor, triage engine, disease matcher, precaution and knowledge loaders, medicine service, and voice processor.

Modules, one per source component:

- `Common` (common.dfy): optional values, JavaScript truthiness and `a || b`, and the JSON item and triage shapes.
- `Text` (text.dfy): Python `strip`/`split` and JavaScript `trim`, each with its own white-space set. Also lower-casing, substring search and slicing.
- `Urgency` (urgency.dfy): `determine_disease_urgency`.
- `SymptomTable` (symptom_table.dfy): `build_symptom_dict`.
- `Analysis` (analysis.dfy): the result-shaping part of `analyze`.
- `Api` (api.dfy): validation, normalisation and status selection in the Flask handlers `chat`, `get_disease`, `medicine_search`, `transcribe_audio` and `voice_record`.
- `Pharmacy` (pharmacy.dfy): the medicine search page. This covers the query guard, the query parameters, the state after a response, the filter-then-sort of the shown list, and the availability classes.
- `Login` (login.dfy): the phone sanitiser and the ordered form validation.
- `Chat` (chat.dfy): the chatbot transcripts of both clients. This covers the send transitions, the voice-transcript sends and the bot-text formatter of `App_local.tsx`.
- `ResultView` (result_view.dfy): the urgency colour classes, the precaution preview and the symptom analyser's suggestions and likelihood classes.
- `AppShell` (app_shell.dfy): login and logout at the top of `App.tsx`.
- `Dashboard` (dashboard.dfy): greeting by hour band and language tag, avatar initial, gender label.

Behaviours of the code that its comments or its other paths do not suggest are stated as lemmas:

- `/api/chat` answers 200 with `success: true` even when `analyze` caught an exception (`Api.AnalysisFailureStillAnswers200`).
- `App_local.tsx` prints a triage line when `result.triage` has a level (`Chat.TriageKeyIsShown`). The orchestrator's dictionary names that entry `overall_triage` and has no `triage` key, so the line never appears for an orchestrator analysis (`Chat.OrchestratorResultShowsNoTriage`).
- The voice sends of `App.tsx` ignore the HTTP status, which the typed send does not (`Chat.VoiceIgnoresStatus`).
- The login form accepts a one-digit phone although it shows "10 digits" (`Login.ShortPhoneAccepted`).
- `/api/transcribe` calls `detect_language` on the voice processor, which voice_processor.py's `VoiceProcessor` does not define. Every upload that passes the checks therefore answers 500 with the attribute error, and nothing is ever transcribed (`Api.RepositoryNeverTranscribes`). The exact message assumes the processor constructs; if `pyttsx3.init()` raises in its constructor, the answer is still 500, with that exception's text.
- The symptom analyser never shows the orchestrator's urgency reasoning. It shows the matcher's own `likelihood` and `reasoning` keys, or its defaults (`ResultView.SuggestionsIgnoreUrgency`, `ResultView.OrchestratorSuggestionsFromMatcher`).

## Model

| member | source | states |
|---|---|---|
| Text.Strip | api_server.py:76 | the stripped string is the slice left after removing white space only, at both ends; it is empty exactly when the input is all white space, and otherwise starts and ends with a non-space |
| Text.IsBlank | api_server.py:76-80 | a string is blank (`not s.strip()`, `!s.trim()`) exactly when every character is white space |
| Text.StripIdempotent | api_server.py:286 | stripping twice gives the same result as stripping once |
| Text.Words | api_server.py:288 | every word of `split()` is non-empty and contains no white space |
| Text.WordsCount | api_server.py:288 | the number of words equals an independent count: the positions where a non-white-space character follows white space or the start |
| Text.WordsCoverNonSpace | api_server.py:288 | gluing the words back together gives exactly the non-white-space characters of the input, in order |
| Text.WordsEmptyIffBlank | api_server.py:275-288 | a string has no words exactly when it strips to the empty string |
| Text.Lower | orchestrator.py:172 | same length, each ASCII capital replaced by its small letter and every other character kept |
| Text.LowerIdempotent | orchestrator.py:172 | lowercasing twice gives the same result as lowercasing once |
| Common.DisplayName | App_local.tsx:62 | a string item shows as itself; an object shows its name when that is non-empty, else "[object Object]" |
| Urgency.SeverityOf | orchestrator.py:172-205 | the class is High exactly when the lowercased name contains a high-list key; Medium when it contains a medium-list key but no high-list key; Low otherwise |
| Urgency.DetermineDiseaseUrgency | orchestrator.py:149-258 | each of the four levels holds exactly on its band of severity class and match count (thresholds 2 and 4); the colour is red exactly for high severity with at least 2 matches, green exactly for Mild, and amber otherwise; the icon follows the level (siren, warning sign, stopwatch, check mark); the emergency-services action is given exactly at Critical |
| Urgency.ReasoningNamesDisease | orchestrator.py:175-258 | in all nine branches the reasoning text contains the disease name |
| Urgency.LevelMonotoneInMatchCount | orchestrator.py:155 | for a fixed name, the level never decreases as the match count grows |
| Urgency.CriticalOnlyForHighSeverity | orchestrator.py:175-202 | a Critical level implies the name is in the high-severity class |
| Urgency.HighListTakesPrecedence | orchestrator.py:175-205 | a name matching both lists gets the same level and colour as a name matching only the high list |
| Urgency.SeverityIgnoresCase | orchestrator.py:172 | lowercasing the name first does not change its class |
| Urgency.HeartAttackExamples | orchestrator.py:158-202 | "Heart Attack" is Critical at 4 matches, Urgent at 3 and Moderate at 1 |
| SymptomTable.IndexOf | orchestrator.py:49 | none is returned exactly when the column is absent; otherwise the result is a position holding that column name |
| SymptomTable.PickFromSpec | orchestrator.py:52-56 | a value is collected from column j onward exactly when some later `Symptom_` column holds it, and it is neither empty nor "nan" |
| SymptomTable.RowSymptoms | orchestrator.py:52-56 | every value collected from a row is non-empty and not "nan", and a row yields at most one value per column |
| SymptomTable.RowSymptomsSpec | orchestrator.py:50-56 | a row yields `s` exactly when one of its `Symptom_` cells strips to `s` and `s` is neither empty nor "nan" |
| SymptomTable.MergeFromExtends | orchestrator.py:57-59 | the row loop only adds: every key already recorded stays, and its list is only extended at the end |
| SymptomTable.MergeFromKeys | orchestrator.py:57-59 | after the row loop, a key is present exactly when it was present before or some remaining row names it |
| SymptomTable.MergeFromValues | orchestrator.py:57-59 | after the row loop, a value is listed under a key exactly when it was there before or some remaining row with that key supplies it |
| SymptomTable.Dedup | orchestrator.py:61-62 | the result has no duplicates and has the same members as the input |
| SymptomTable.BuildSymptomDict | orchestrator.py:46-63 | with no Disease column the map is empty; the keys are exactly the stripped Disease cells; each list has no duplicates; it holds exactly the symptoms of the rows naming that disease |
| SymptomTable.SymptomListedIffInSomeCell | orchestrator.py:49-62 | `s` is listed for `d` exactly when some row naming `d` has a `Symptom_` cell that strips to `s` |
| Analysis.AttachUrgency | orchestrator.py:112-116 | one diagnosis per ranked match, in ranking order, keeping name, match count and the matcher's other keys, with the urgency and precautions of that name |
| Analysis.WrapSymptoms | orchestrator.py:126 | one `{'name': s}` item per extracted symptom, in extractor order |
| Analysis.MapPrecautions | orchestrator.py:118-122 | empty exactly when there are no ranked diagnoses; otherwise names the first one and its precautions |
| Analysis.Analyze | orchestrator.py:100-146 | success exactly when no collaborator raised; on failure, empty lists, no triage and the error message; on success, the items, triage, diagnoses and top precautions as stated for the parts, plus age and sex |
| Analysis.MappedPrecautionsMatchFirstDiagnosis | orchestrator.py:112-122 | the mapped precautions are the first diagnosis's name and precautions |
| Analysis.FewMatchesAtMostModerate | orchestrator.py:112-116 | a diagnosis matched by fewer than two symptoms is at most Moderate |
| Api.Chat | api_server.py:67-111 | a missing body or message gives 400 "Missing 'message' field in request"; a non-string message gives 500; a blank one gives 400 "Message cannot be empty"; otherwise 200, with the stripped message sent to the analyzer and `triage` and `overall_triage` both mirroring the result's triage; diagnoses and symptoms default to [] and precautions default to {} |
| Api.BlankMessageSkipsAnalyzer | api_server.py:76-87 | for a blank message the response (400) is the same whatever the analyzer would return |
| Api.ChatMirrorsOrchestrator | api_server.py:90-100 | wired to the orchestrator, the top-level fields equal the analysis fields |
| Api.AnalysisFailureStillAnswers200 | api_server.py:87-102 | when analyze caught an exception, the response is still 200, with empty diagnoses and no triage |
| Api.Disease | api_server.py:133-163 | a missing or empty name gives 400; otherwise the description is the knowledge text when it is a string, else "Information about " + name; symptoms are empty, precautions default to [], and the three fixed recommendations follow |
| Api.DiseaseConsultsOnlyName | api_server.py:138-155 | the loaders are consulted only for the requested name: loaders that agree on it give the same response, and a missing name is answered without them |
| Api.MedicineSearch | api_server.py:194-216 | a blank medicine gives 400; otherwise the service gets the stripped name and the status is 200 exactly when the service reports success, else 404 |
| Api.MedicineSearchIgnoresPadding | api_server.py:202-216 | padding around the medicine name changes nothing, and a blank name gets the same 400 whatever the service would answer |
| Api.RequestedLanguage | api_server.py:261 | a prefix, of at most two characters, of the lowercased form value (default "en") |
| Api.RequestedLanguageIdempotent | api_server.py:261 | normalising an already normalised language changes nothing |
| Api.LanguageTag | api_server.py:282-287 | the tag is always EN, HI or PA; HI exactly for "hi" and PA exactly for "pa" |
| Api.LanguageTagRoundTrip | api_server.py:282-287 | lowercasing a supported tag and mapping it back gives the tag again |
| Api.Transcribe | api_server.py:246-297 | the checks run in order: voice disabled gives 500, no audio part gives 400, an empty upload gives 400; an exception from `detect_language` gives 500 with "Transcription error: " and its message; no text gives 400; otherwise the response carries the stripped text, the mapped language and the word count, and only this case is a success |
| Api.RepositoryNeverTranscribes | api_server.py:273 | with voice_processor.py's `VoiceProcessor`, which has no `detect_language`, every request fails, and every audio upload reaching detection answers 500 with the missing-attribute message |
| Api.ConfidenceCountsWords | api_server.py:275-288 | the confidence is the number of white-space-delimited runs in the transcript, the words cover its non-space characters, and it is 0 exactly when the returned text is empty |
| Api.EffectiveDuration | api_server.py:376-381 | always within [1, 30]; a requested value in range is kept; anything else, or no value, becomes 5 |
| Api.EffectiveDurationIdempotent | api_server.py:377-381 | clamping an effective duration again changes nothing |
| Api.VoiceRecord | api_server.py:370-401 | voice disabled gives 500; no or empty audio gives 500 "Failed to record audio"; otherwise the audio is returned with the effective duration and format "wav" |
| Pharmacy.Filter | MedicineAvailability.tsx:102-105 | each pharmacy keeps its multiplicity if shown, and is dropped otherwise |
| Pharmacy.FilterAllKeepsEverything | MedicineAvailability.tsx:102-103 | the filter value 'all' keeps the list unchanged |
| Pharmacy.InsertPermutes | MedicineAvailability.tsx:106-109 | inserting adds exactly the one element |
| Pharmacy.InsertSorted | MedicineAvailability.tsx:106-109 | inserting into an ordered list keeps it ordered |
| Pharmacy.SortBy | MedicineAvailability.tsx:106-109 | the result is ordered by the chosen key and is a permutation of the input |
| Pharmacy.SortByKeepsSorted | MedicineAvailability.tsx:106-109 | an already ordered list is left unchanged |
| Pharmacy.FilteredResults | MedicineAvailability.tsx:101-109 | ordered by the key; a permutation of the shown subset; a pharmacy appears exactly when it is in the results and matches the filter |
| Pharmacy.AllShowsEveryResult | MedicineAvailability.tsx:101-109 | with 'all', the view is a reordering of every result |
| Pharmacy.AvailabilityClass | MedicineAvailability.tsx:111-122 | each of the three availabilities has its own class; any other value gives '' |
| Pharmacy.AvailabilityClassDeterminesLabel | MedicineAvailability.tsx:111-122 | two values with the same non-empty class are the same availability |
| Pharmacy.StartSearch | MedicineAvailability.tsx:58-79 | a blank query sets 'Please enter a medicine name', sends nothing and leaves the results alone; otherwise it clears and loads, and sends the trimmed medicine, then lat and lon when a location is known |
| Pharmacy.CoordinatesIffLocation | MedicineAvailability.tsx:76-79 | a latitude parameter is sent exactly when a location is known |
| Pharmacy.FinishSearch | MedicineAvailability.tsx:86-98 | a successful body with pharmacies sets the results; otherwise the body's error, or 'No results found'; a thrown fetch gives the server message; loading ends in every case |
| Pharmacy.SearchRoundTrip | MedicineAvailability.tsx:58-98 | a sent search ends with results only from its own answer, and with no error exactly when the answer succeeded |
| Login.Digits | LoginPage.tsx:156 | only ASCII digits remain, and the result is no longer than the input |
| Login.DigitsOfDigits | LoginPage.tsx:156 | a string of digits is kept whole |
| Login.DigitsOfNonDigits | LoginPage.tsx:156 | a string without digits is removed entirely; with the two lemmas around it, this fixes the filter on every input |
| Login.DigitsAppend | LoginPage.tsx:156 | removing non-digits distributes over concatenation |
| Login.SanitizePhone | LoginPage.tsx:156 | the result is digits only, at most 10 long, and equals the first min(10, digit count) digits of the input, in order |
| Login.SanitizeFixedPoints | LoginPage.tsx:156 | the sanitiser keeps exactly the strings of at most ten digits unchanged, so it is idempotent |
| Login.SanitizeExtends | LoginPage.tsx:156 | while fewer than ten digits are kept, typing more never changes the digits already kept |
| Login.Submit | LoginPage.tsx:22-55 | accepted exactly when both fields are non-blank; a blank phone reports the phone error first; otherwise a blank name reports the name error; accepted values are passed on untrimmed |
| Login.ErrorsAreDistinct | LoginPage.tsx:27-47 | in every language the phone and name errors differ; with both fields blank, the phone error is shown |
| Login.SanitizedBlankIsEmpty | LoginPage.tsx:27 | on a sanitised phone, the blank check is the empty check |
| Login.ShortPhoneAccepted | LoginPage.tsx:50-54 | a one-digit phone is accepted, because no length check exists |
| Chat.Interpret | App.tsx:65-80 | a reply answers exactly when the response is OK and its body has success and a result; otherwise the failure message is, by case, "API Error: " + status text, the parse error, the body's error or "Unknown error", or the thrown message |
| Chat.ErrorTextInjective | App.tsx:84 | the bot's error text determines the failure message: different messages give different texts |
| Chat.Send | App.tsx:44-90 | a blank input changes nothing; otherwise exactly two messages are appended after the unchanged earlier ones: the raw input from the user, then 'structured_result' (storing the result) or the error text (keeping the old result); the input is cleared and loading ends |
| Chat.SessionGrowth | App.tsx:44-90 | over any sequence of sends, the transcript keeps its prefix and grows by two per non-blank send |
| Chat.SessionAlternates | App.tsx:47-86 | the appended messages come in (user, bot) pairs |
| Chat.PairsCons | App.tsx:47-86 | a (user, bot) pair followed by c pairs makes c + 1 pairs |
| Chat.SessionKeepsGreeting | App.tsx:32-42 | a session started after mounting always begins with the bot greeting |
| Chat.VoiceSend | App.tsx:92-123 | the text is always appended as a user message, even when blank; a successful body adds 'structured_result' whatever the status, and any other body adds nothing; a thrown fetch or parse sets 'Could not process voice input' |
| Chat.VoiceIgnoresStatus | App.tsx:65-66 | for an error status with a successful body, the typed send shows an API error while the voice send shows the result |
| Chat.Bullets | App_local.tsx:61-64 | a non-empty bullet list ends with a line break |
| Chat.BulletsAreLines | App_local.tsx:61-72 | the list is the items' "  • name" lines joined, one per item, in order |
| Chat.BulletsAppend | App_local.tsx:61-72 | the bullets of a concatenation are the concatenated bullets |
| Chat.TriageBlock | App_local.tsx:54-57 | empty unless the triage has a level; the level line, then the Reason line only when a reason is present |
| Chat.SymptomBlock | App_local.tsx:59-66 | empty exactly when there are no symptoms; otherwise the heading, one bullet per symptom and a blank line |
| Chat.DiagnosisBlock | App_local.tsx:68-76 | the closing sentence when there are no diagnoses, otherwise the heading and one bullet per diagnosis |
| Chat.FormatBotText | App_local.tsx:52 | the text always begins with "Analysis Results:" and a blank line |
| Chat.ClosingIffNoDiagnoses | App_local.tsx:68-76 | the text ends with the closing sentence exactly when there are no diagnoses |
| Chat.LocalSend | App_local.tsx:18-95 | a blank input changes nothing; otherwise exactly one user message with the raw input, then one bot message holding either the formatted text or the error text |
| Chat.LocalSessionGrowth | App_local.tsx:18-95 | over any sequence of sends, the local transcript keeps its prefix and grows by two per non-blank send |
| Chat.LocalSessionAlternates | App_local.tsx:21-91 | the messages a local session appends come in (user, bot) pairs |
| Chat.ClientView | App_local.tsx:47-49 | the client reads the result's diagnoses as named objects, and its symptoms and `triage` entry as they are |
| Chat.TriageKeyIsShown | App_local.tsx:49-57 | a result whose `triage` entry has a level gets the "Triage Level" line right after the header |
| Chat.OrchestratorResultShowsNoTriage | App_local.tsx:49-57 | for any orchestrator analysis the bot text is the header, symptoms and diagnoses with no triage line, even when the analysis has a triage level, because orchestrator.py's dictionary has no `triage` key |
| ResultView.UrgencyColor | App.tsx:125-138 | red, amber/yellow and green each get their card class, amber and yellow the same one; the neutral class is given exactly to other values |
| ResultView.UrgencyTextColor | App.tsx:140-153 | the same case split for the text classes |
| ResultView.ColorMapsAgree | App.tsx:125-153 | two colours get the same card class exactly when they get the same text class |
| ResultView.CardColor | App.tsx:283-284 | a missing or empty colour becomes 'gray', which gets the neutral class |
| ResultView.OrchestratorCardsAreColored | App.tsx:283-284 | every urgency the orchestrator produces gets a non-neutral card and text class |
| ResultView.PrecautionPreview | App.tsx:321-330 | absent exactly when there are no precautions; otherwise the first min(2, n) as bullets, then "+(n-2) more" exactly when n > 2 |
| ResultView.PreviewAccountsForAll | App.tsx:321-330 | the bullets shown plus the "more" count equal the number of precautions |
| ResultView.Suggest | App.tsx:592-596 | a string becomes the condition; an object's name becomes it when non-empty; likelihood defaults to 'Medium' and reasoning to 'Based on symptom analysis' |
| ResultView.FormatSuggestions | App.tsx:589-596 | one suggestion per diagnosis, in order |
| ResultView.FormatSuggestionsAppend | App.tsx:592-596 | the suggestions of a concatenation are the concatenated suggestions |
| ResultView.SuggestionsIgnoreUrgency | App.tsx:592-596 | two analyses that differ only in their urgency records give the same suggestions |
| ResultView.OrchestratorSuggestionsFromMatcher | App.tsx:592-596 | for any successful analysis, one suggestion per ranked match, showing the matcher's likelihood and reasoning or the defaults |
| ResultView.LikelihoodColor | App.tsx:610-617 | the class is decided by the lowercased value: high, medium and low each have their own class, and everything else is gray |
| ResultView.LikelihoodIgnoresCase | App.tsx:611 | lowercasing first does not change the class |
| ResultView.DefaultLikelihoodIsYellow | App.tsx:594 | the default 'Medium' gets the medium (yellow) class |
| ResultView.AnalyzeSymptoms | App.tsx:564-608 | a blank input changes nothing; otherwise the results come from the answer or the error from the failure (exactly one of the two is set), and loading ends |
| AppShell.InitialState | App.tsx:672-675 | starts logged out, with no user, on the dashboard |
| AppShell.HandleLogin | App.tsx:678-681 | logged in, with user {name, phone} from the (phone, name) arguments; view and language unchanged |
| AppShell.HandleLogout | App.tsx:683-687 | logged out, no user, dashboard view; language unchanged |
| AppShell.LogoutUndoesLogin | App.tsx:678-687 | logging out after a login leaves the same state as logging out directly |
| AppShell.LoginOverrides | App.tsx:678-681 | a second login replaces the first |
| AppShell.SubmitLogin | LoginPage.tsx:50-54 | a rejected form changes nothing; an accepted form logs in the user with the values as typed |
| AppShell.PaddedNameKept | LoginPage.tsx:52 | a name with surrounding spaces is recorded with those spaces |
| Dashboard.BandOf | UserDashboard.tsx:31-33 | morning below 12, midday from 12 to below 18, evening from 18 |
| Dashboard.Greeting | UserDashboard.tsx:28-43 | the greeting for the hour's band in the tag's language; any tag other than HI or PA greets in English |
| Dashboard.GreetingDeterminesBand | UserDashboard.tsx:30-42 | in one language, two hours get the same greeting exactly when they fall in the same band |
| Dashboard.AvatarInitial | UserDashboard.tsx:94 | 'U' when the name is missing or empty, else the upper-cased first character |
| Dashboard.AvatarIsOneCharacter | UserDashboard.tsx:94 | with ASCII case mapping, the initial is always one character |
| Dashboard.GenderLabel | UserDashboard.tsx:123-145 | absent unless the gender is set; 'M' gives the male label and any other value the female label |
| Dashboard.OnlyExactMIsMale | UserDashboard.tsx:133-143 | 'm' and 'Male' get the female label, and the two labels differ |
| Dashboard.GenderLabelSeparatesMale | UserDashboard.tsx:133-143 | for a set gender, two values get the same label exactly when both or neither are exactly 'M' |

## Left out

- I/O and hardware: voice_processor.py (recording, speech recognition, text to speech), CSV loading by pandas, file writes, traceback printing, Flask routing and CORS. The voice processor enters only as `detect`/`record` function parameters; `detect` returns a language and text or the message of an exception.
- The unseen orchestrator components (SymptomExtractor, TriageEngine, DiseaseMatcher, KnowledgeLoader, PrecautionLoader) and the medicine service are function parameters. An exception raised inside `analyze` enters as its message (`raised`).
- Async timing: fetches, `setTimeout` delays and React state batching. Each handler is one atomic transition from its settled outcome. The intermediate `isLoading = true` state is not observable in the model.
- Api.Chat: an unexpected exception other than a non-string message (for example a body that is a JSON list) is not modelled. The text of Python exception messages is represented as `None`. A body that `get_json()` cannot parse is modelled as `NoBody`; newer Flask versions raise instead, which the handler turns into a 500.
- Api.Disease: exceptions from the knowledge and precaution loaders (the 500 path) are not modelled.
- Api.MedicineSearch: the service's exceptions (the 500 path) are not modelled. Nor is a failure of the service import at api_server.py:200, which runs before the blank-name check at :206 and so answers 500 even for a blank name; `Api.MedicineSearchIgnoresPadding` assumes the import succeeds. The JSON passed through is an opaque payload.
- Api.Transcribe: exceptions raised by the checks themselves (for example while reading the request) are not modelled; an exception from the voice processor is. The success path applies only to a voice processor other than voice_processor.py's. An upload is falsy when its file name is empty; this is modelled as `UnnamedUpload`.
- Api.VoiceRecord: the base64 encoding of the audio is not modelled (the bytes are returned as they are). An exception from `get_voice_processor()` (api_server.py:383), which answers 500 with its text, is not modelled. A non-integer `duration` (which Python would compare or reject) is not modelled.
- `/api/health`, `/api/symptoms`, `/api/health-record`, `/api/helplines` and `/api/voice/speak` fall outside the modelled core.
- Text.Lower: case mapping is ASCII only. Python's `str.lower` and JavaScript's `toLowerCase`/`toUpperCase` also map non-ASCII letters. JavaScript's `charAt` works on UTF-16 code units; here a string is a sequence of Unicode scalar values.
- SymptomTable.Dedup: Python's `list(set(...))` leaves the order unspecified. The model keeps first occurrences in order, and the contract states only distinctness and membership. Duplicate column names in the table are not modelled, and the Disease column is the first one so named.
- Pharmacy.SortBy: distance and price are real numbers; NaN and the floating-point display (`toFixed`) are not modelled. The sort is stable, but stability is not stated as a contract. JavaScript's sort is stable as well.
- Pharmacy.StartSearch: the number-to-string formatting of lat and lon in the query is not modelled; the parameters carry the numbers.
- Chat.LocalSend: exceptions thrown while formatting a malformed result (for example a `diagnoses` value that is not a list) are not modelled.
- ResultView.AnalyzeSymptoms: a `null` element of `diagnoses` makes `d.name` throw a TypeError. The error path would show it, but `DiagnosisJson` cannot represent `null`.
- Dashboard.AvatarIsOneCharacter: JavaScript's `toUpperCase` can lengthen a character ("ß" becomes "SS"); with the ASCII case mapping the initial is one character.
- Api.ChatMirrorsOrchestrator, Api.AnalysisFailureStillAnswers200 and Chat.OrchestratorResultShowsNoTriage hold for orchestrator.py's `analyze`. api_server.py imports `orchestrator_simple.analyze` first and falls back to orchestrator.py only when that import fails (api_server.py:20-24). orchestrator_simple is not part of this model. For any other analyzer, `Api.Chat` and `Chat.TriageKeyIsShown` apply.
- The disease matcher's dictionaries may carry keys other than `likelihood` and `reasoning` (App.tsx reads `score`); they are passed through but not modelled.
- The presentational views (DiseaseModal, MedicineFinder, EmergencySOS, HealthRecord, VideoConsult, FeatureCard, LanguageSelector), App_backup.tsx, VoiceChat.tsx and VoiceInput.tsx fall outside the modelled core. So do the match-score rounding and the suggestion list of the medicine page.
- Language: components compare against the tags 'HI' and 'PA'. The model takes the language as that tag string and does not model how the `Language` enum's values reach those comparisons.
- The icon glyphs of the urgency records are named by an enumeration (`Urgency.Icon`), not spelled out.
