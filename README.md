# OpenSight / Sift: a verified model of the application logic

OpenSight is two small applications.

- **Web tool.** A Flask backend (`backend/app.py`, and a second version, `backend/app_debug.py`, which logs more, keeps 4000 characters of page text instead of 8000, calls the model through the OpenAI client instead of a direct HTTP POST, and has no `/api/extract-actions` route) fetches a web page and cleans its visible text. It asks a language model for a summary and key actions, and parses the model's answer line by line. It also lists a page's buttons, keyword links and submit inputs as "actions". A React page (`src/App.js`) submits a URL to the backend, shows the summary and the key actions, and keeps a list of saved links.
- **Android "Sift" app.** Its Sensory Shield feature keeps seven audio-filter settings in memory and mirrors them into a key/value preference store. Named presets overwrite four numeric parameters, and custom updates clamp each value into its range. The AirPods screen maps these parameters to and from slider positions.

The Dafny model follows the program's structure:

| file | module | models |
|---|---|---|
| `wrappers.dfy` | `Wrappers` | the `Option` type |
| `strings.dfy` | `Strings` | the string operations the backends use: substring search, `split`, `join`, `replace`, slicing, trimming over a character set |
| `pytext.dfy` | `PyText` | Python's `str.strip`, `str.splitlines` and `str.lower` |
| `text_cleanup.dfy` | `TextCleanup` | URL scheme defaulting and the whitespace cleanup of `fetch_website_text` (shared by both backends) |
| `response_parser.dfy` | `ResponseParser` | the `SUMMARY:` / `KEY_ACTIONS:` parsing loop of `summarize_with_ai` (the same in both backends) |
| `backend.dfy` | `Backend` | `backend/app.py`: `classify_type`, `extract_actions`, `fetch_website_text`, `summarize_with_ai` |
| `backend_debug.dfy` | `DebugBackend` | `backend/app_debug.py` lines 1-202: `summarize`, `fetch_website_text`, `summarize_with_ai` |
| `sensory_shield.dfy` | `SensoryShield` | the class `SensoryShieldManager` together with its preference store |
| `airpods_screen.dfy` | `AirPodsScreen` | the slider maps, the preset-button selection test, the percentage label and the slider callbacks |
| `web_app.dfy` | `WebApp` | the `App` component's state: submit, reset and saved links, plus the key-action normalisation with its link regex |

How state-changing code is modelled:

- **Loops become methods.** These are the parser loop (`ResponseParser.ParseResponse`) and the three passes of `extract_actions` (`Backend.ExtractActions`). Each is proved equal to a specification function, and the properties are proved about that function.
- **`SensoryShieldManager` is a class.** It keeps its seven fields plus a `prefs: map<string, Pref>` field for the preference store. `Load(prefs)` is what a manager created over that store reads back. Every mutator states its whole new in-memory state. `SetEnabled` and `SaveSettings` state the exact new store; `SetPreset`, the preset methods, `SetCustomSettings` and the slider callbacks state the new store through `Load` and the `"preset"` entry.
- **`App` is a class** with one field per `useState` setting that the modelled handlers touch.
- **Network, HTML parser and language model are parameters.** The page fetch, the HTML parse (a page is its document-order list of element records), `urljoin`, the OpenRouter reply and the client's completion are all passed in.

Two scenario methods walk through example sequences:

- `SensoryShield.CustomPresetIsNotPersisted`: defaults, then `setPreset("shopping")`, then a clamped `setCustomSettings(highFreqDamping = 1.5)`, then a restart.
- `WebApp.BlankSubmitThenReset`: a blank submit, a reset, and a duplicate save.

**Two behaviours of the manager worth knowing.**

- `setCustomSettings` does not persist the preset, so a reload does not reproduce every field: `saveSettings` (SensoryShieldManager.kt:112-120) never writes `"preset"`. After a restart, the preset reads back as whatever `setPreset` last stored, not `"custom"`. `SensoryShieldManager.SetCustomSettings` states this, and `CustomPresetIsNotPersisted` shows it.
- `setPreset` (SensoryShieldManager.kt:63-72) accepts any string. It stores the name and skips the numeric overwrite for names that are not presets. `SetPreset` states exactly that.

## Model

| member | source | states |
|---|---|---|
| Strings.Split | backend/app.py:227 | `s.split(sep)` for a non-empty separator: at least one piece; the text itself when the separator does not occur, and otherwise a first piece that is the text before the leftmost occurrence |
| Strings.SplitPieces | backend/app.py:236 | no piece of a split holds the separator, and every piece is a substring of the input |
| Strings.JoinSplit | backend/app.py:236 | joining the pieces of a split with the same separator gives back the input |
| Strings.ReplaceIsJoinOfSplit | backend/app.py:233 | `s.replace(pat, repl)` equals joining the pieces of `s.split(pat)` with `repl` |
| Strings.Join | backend/app.py:157 | `sep.join(parts)` of no parts is "", and every part occurs in the result |
| Strings.Replace | backend/app.py:233-235 | `s.replace(pat, repl)` returns a text without the pattern unchanged; with a replacement no longer than the pattern the result is no longer, and at least the length difference shorter when the pattern occurs |
| Strings.ReplaceChars | backend/app.py:233-235 | every character of a replacement's result is a character of the text or of the replacement |
| Strings.Truncate | backend/app.py:160 | `text[:n]` has at most n characters, is a prefix of the text, and is the whole text when that is short enough |
| Strings.TrimBy | backend/app.py:155 | trimming cuts only trimmed characters and only at the two ends (the result is `s[i..j]` with everything outside trimmed), leaves no trimmed character at either end, and gives the empty string exactly when every character is trimmed |
| Strings.TrimByIdempotent | backend/app.py:156 | trimming twice equals trimming once |
| PyText.Strip | backend/app.py:155 | `str.strip()` removes Python whitespace at the two ends only, leaves none there, and gives "" exactly when the input is all whitespace |
| PyText.StripIdempotent | backend/app.py:233 | stripping an already stripped string changes nothing |
| PyText.SplitLines | backend/app.py:155 | `str.splitlines()` gives no line exactly for the empty text; every line is a piece of the text with no line boundary in it |
| PyText.CrLfIsOneBreak | backend/app.py:155 | `\r\n` ends one line, not two: the line before it is followed by the lines after it |
| PyText.FinalBreakAddsNoLine | backend/app.py:155 | a boundary at the very end of the text adds no empty line |
| PyText.SplitLinesJoin | backend/app.py:155 | for a text whose only boundary is `\n` and which does not end with one, joining the lines with `\n` gives the text back |
| PyText.Lower | backend/app.py:117 | `label.lower()` keeps the length and lowercases each character |
| TextCleanup.WithScheme | backend/app.py:134-135 | the result starts with "http"; the URL comes back unchanged exactly when it already starts with "http", and otherwise "https://" is prepended |
| TextCleanup.WithSchemeIdempotent | backend/app.py:134-135 | defaulting the scheme twice equals defaulting it once |
| TextCleanup.StripAll | backend/app.py:156 | each phrase is stripped, in order |
| TextCleanup.DropEmpty | backend/app.py:157 | every kept chunk is non-empty and comes from the input, and every non-empty input chunk is kept |
| TextCleanup.DropEmptyAppend | backend/app.py:157 | dropping empty chunks keeps their order: it distributes over concatenation |
| TextCleanup.DropEmptyOne | backend/app.py:157 | of a single chunk, exactly a non-empty one is kept |
| TextCleanup.PhrasesTidy | backend/app.py:155-156 | every stripped phrase of lines without line boundaries is empty or "tidy": no edge whitespace, no line boundary, no doubled space |
| TextCleanup.ChunksTidy | backend/app.py:155-157 | every chunk of any page text is tidy |
| TextCleanup.JoinTidy | backend/app.py:157 | tidy chunks joined with single spaces give one tidy line, which is empty only when there are no chunks |
| TextCleanup.CleanText | backend/app.py:155-160 | the cleaned text is at most `limit` long, is a prefix of the space-joined chunks (equal to them when short enough), has no line break and no doubled space, and does not start with whitespace |
| TextCleanup.CleanTextEmpty | backend/app_debug.py:113-119 | with a positive limit, the cleaned text is empty exactly when the page has no chunk |
| ResponseParser.LastMarked | backend/app.py:231-236 | the index of the last line with the marker prefix, or None when no line has it |
| ResponseParser.SummaryOf | backend/app.py:233 | `line.replace('SUMMARY:', '').strip()` is stripped, built from the line's characters, and for a marked line at least the marker's length shorter |
| ResponseParser.ActionsOf | backend/app.py:235-236 | a `KEY_ACTIONS:` line without `\|` yields at most one action |
| ResponseParser.MarkersExclusive | backend/app.py:232-234 | no line starts with both "SUMMARY:" and "KEY_ACTIONS:", so the `elif` never hides a marker |
| ResponseParser.ParseResponse | backend/app.py:227-236 | the parsing loop returns the summary of the last "SUMMARY:" line ("" if none) and the actions of the last "KEY_ACTIONS:" line ([] if none) |
| ResponseParser.ParseStep | backend/app.py:231-236 | one more line: a summary line replaces the summary, an actions line replaces the actions, and any other line changes neither |
| ResponseParser.ParseLines | backend/app.py:228-236 | the loop over the lines returns the summary and the actions of the last marked lines |
| ResponseParser.ActionsOfClean | backend/app.py:234-236 | every action of a "KEY_ACTIONS:" line is non-empty, stripped and free of `\|` |
| ResponseParser.ParsedClean | backend/app_debug.py:176-181 | every parsed action is non-empty, stripped and free of `\|`, and the parsed summary is stripped |
| Backend.ClassifyType | backend/app.py:116-126 | the kind is one of the five labels, and it is "other" exactly when the lowercased label holds none of the action keywords |
| Backend.ClassifyTypeIsTable | backend/app.py:116-126 | the classifier equals the first match in the priority table apply, contact, register, submit over the lowercased label, whatever the url |
| Backend.ButtonPick | backend/app.py:83-89 | exactly a `<button>` gives an action: its text as label, the page URL, and the classifier's kind, which is "other" exactly when the label holds no keyword |
| Backend.AnchorPick | backend/app.py:91-101 | exactly an `<a href>` whose label holds a keyword gives an action: its text, `urljoin(url, href)`, and a kind other than "other" classified on the href |
| Backend.SubmitPick | backend/app.py:103-109 | exactly an `<input type="submit">` gives an action: its `value` or "Submit" as label, the page URL, and kind "form_submit" |
| Backend.CollectStep | backend/app.py:83-89 | one more element in document order appends its action, if it gives one |
| Backend.CollectAppend | backend/app.py:81-109 | collecting keeps document order: the actions of a concatenation are those of the first part followed by those of the second |
| Backend.CollectFrom | backend/app.py:81-109 | every collected action comes from some element of the page |
| Backend.ExtractActions | backend/app.py:69-113 | a missing or non-http(s) URL gives 400 "Invalid URL"; a failed fetch gives 500; otherwise the result is all buttons, then keyword anchors, then submit inputs, each group in document order |
| Backend.AnchorActionsClassified | backend/app.py:91-101 | every anchor action's label holds an action keyword, so its kind is never "other" |
| Backend.ButtonAndSubmitActions | backend/app.py:83-109 | every submit action has kind "form_submit", the page URL, and the `value` or "Submit" of an input of the page as label; every button action has the page URL and the classifier's kind of its label |
| TextCleanup.FetchWebsiteText | backend/app.py:130-167 | None exactly when the fetch of the scheme-defaulted URL fails; otherwise at most `limit` characters (8000 in app.py, 4000 in app_debug.py), a prefix of the joined chunks, with no line break and no doubled space |
| Backend.FetchWebsiteText | backend/app.py:130-167 | None exactly when the fetch of the scheme-defaulted URL fails, and otherwise at most 8000 characters |
| DebugBackend.FetchWebsiteText | backend/app_debug.py:83-135 | None exactly when the fetch of the scheme-defaulted URL fails, and otherwise at most 4000 characters |
| Backend.ReplyContent | backend/app.py:224 | the `.get` chain raises (None) exactly for a non-JSON body or an empty `choices` list; a missing `choices`, `message` or `content` gives "", and a present content is returned as it is |
| Backend.SummarizeWithAi | backend/app.py:171-245 | no client, a non-200 status, a raised call (or failed lookup) and a good reply each give their own result; a good reply is parsed as `ParseResponse` states |
| DebugBackend.SummarizeWithAi | backend/app_debug.py:139-190 | no client gives ("No API key", ["Configure your API key in .env"]); a raised call gives the error pair; otherwise the answer is parsed |
| DebugBackend.Summarize | backend/app_debug.py:37-79 | a missing or empty url gives 400 before any fetch; an empty or failed extraction gives 400 and no prompt; otherwise the answer is the page summary, and the model is prompted with the non-empty cleaned text only when a client exists |
| SensoryShield.GetBoolean | sensory_shield--main/Sift--main/app/src/main/java/com/opensight/sift/features/sensoryshield/SensoryShieldManager.kt:37 | the stored boolean, or the default when the key is absent |
| SensoryShield.GetFloat | sensory_shield--main/Sift--main/app/src/main/java/com/opensight/sift/features/sensoryshield/SensoryShieldManager.kt:43-52 | the stored float, or the default when the key is absent |
| SensoryShield.GetString | sensory_shield--main/Sift--main/app/src/main/java/com/opensight/sift/features/sensoryshield/SensoryShieldManager.kt:40 | the stored string, or the default when the key is absent |
| SensoryShield.Load | sensory_shield--main/Sift--main/app/src/main/java/com/opensight/sift/features/sensoryshield/SensoryShieldManager.kt:37-56 | each of the seven settings is the stored value of its key when it has the right type, and its default (false, "transit", 0.3, 1.2, 0.7, 1.0, true) when the key is absent |
| SensoryShield.LoadEmpty | sensory_shield--main/Sift--main/app/src/main/java/com/opensight/sift/features/sensoryshield/SensoryShieldManager.kt:29-56 | over an empty store, the settings are disabled, "transit", 0.3, 1.2, 0.7, 1.0, and emergency sounds preserved |
| SensoryShield.LoadSetPreset | sensory_shield--main/Sift--main/app/src/main/java/com/opensight/sift/features/sensoryshield/SensoryShieldManager.kt:65 | writing the "preset" key changes only the preset a reload reads |
| SensoryShield.PresetTuning | sensory_shield--main/Sift--main/app/src/main/java/com/opensight/sift/features/sensoryshield/SensoryShieldManager.kt:67-96 | exactly transit, shopping and office have a tuning, namely (0.2, 1.3, 0.5, 1.2), (0.4, 1.1, 0.6, 1.1) and (0.5, 1.0, 0.4, 1.0) |
| SensoryShield.PresetsInRange | sensory_shield--main/Sift--main/app/src/main/java/com/opensight/sift/features/sensoryshield/SensoryShieldManager.kt:74-96 | every preset tuning lies in the declared ranges |
| SensoryShield.Clamp | sensory_shield--main/Sift--main/app/src/main/java/com/opensight/sift/features/sensoryshield/SensoryShieldManager.kt:104-107 | `coerceIn` returns the point of [lo, hi] nearest to x, and x itself when x is inside |
| SensoryShield.CustomTuning | sensory_shield--main/Sift--main/app/src/main/java/com/opensight/sift/features/sensoryshield/SensoryShieldManager.kt:104-107 | each supplied value is clamped into its range and each absent one kept; values in range stay in range, and four supplied values are always in range |
| SensoryShield.SensoryShieldManager.constructor | sensory_shield--main/Sift--main/app/src/main/java/com/opensight/sift/features/sensoryshield/SensoryShieldManager.kt:34-56 | a new manager holds exactly what its store loads, and the store is mirrored |
| SensoryShield.SensoryShieldManager.SetEnabled | sensory_shield--main/Sift--main/app/src/main/java/com/opensight/sift/features/sensoryshield/SensoryShieldManager.kt:58-61 | only `enabled` and the "enabled" key change; mirroring is kept |
| SensoryShield.SensoryShieldManager.SaveSettings | sensory_shield--main/Sift--main/app/src/main/java/com/opensight/sift/features/sensoryshield/SensoryShieldManager.kt:112-120 | writes exactly the four numeric keys with the in-memory values, never "preset" |
| SensoryShield.SensoryShieldManager.ApplyTuning | sensory_shield--main/Sift--main/app/src/main/java/com/opensight/sift/features/sensoryshield/SensoryShieldManager.kt:74-96 | the four numerics take the tuning and are stored; every other key keeps its value |
| SensoryShield.SensoryShieldManager.ApplyTransitPreset | sensory_shield--main/Sift--main/app/src/main/java/com/opensight/sift/features/sensoryshield/SensoryShieldManager.kt:74-80 | numerics become (0.2, 1.3, 0.5, 1.2) in memory and in the store; nothing else changes |
| SensoryShield.SensoryShieldManager.ApplyShoppingPreset | sensory_shield--main/Sift--main/app/src/main/java/com/opensight/sift/features/sensoryshield/SensoryShieldManager.kt:82-88 | numerics become (0.4, 1.1, 0.6, 1.1) in memory and in the store; nothing else changes |
| SensoryShield.SensoryShieldManager.ApplyOfficePreset | sensory_shield--main/Sift--main/app/src/main/java/com/opensight/sift/features/sensoryshield/SensoryShieldManager.kt:90-96 | numerics become (0.5, 1.0, 0.4, 1.0) in memory and in the store; nothing else changes |
| SensoryShield.SensoryShieldManager.SetPreset | sensory_shield--main/Sift--main/app/src/main/java/com/opensight/sift/features/sensoryshield/SensoryShieldManager.kt:63-72 | records and stores the name; a named preset also sets and stores its tuning, while any other name changes neither the numerics nor their keys; mirroring and the numeric ranges are preserved |
| SensoryShield.SensoryShieldManager.SetCustomSettings | sensory_shield--main/Sift--main/app/src/main/java/com/opensight/sift/features/sensoryshield/SensoryShieldManager.kt:98-110 | the numerics become the custom tuning of the old ones and are stored; the preset becomes "custom" but the stored "preset" entry is untouched, so a reload gives the old settings with the new numerics and the old preset; enabled and emergency flags are kept |
| SensoryShield.SensoryShieldManager.GetPresetDescription | sensory_shield--main/Sift--main/app/src/main/java/com/opensight/sift/features/sensoryshield/SensoryShieldManager.kt:122-130 | total and non-empty: one fixed text per preset name including "custom", and the fallback exactly for every other string |
| SensoryShield.DescriptionsDistinct | sensory_shield--main/Sift--main/app/src/main/java/com/opensight/sift/features/sensoryshield/SensoryShieldManager.kt:122-130 | different preset names get different descriptions |
| AirPodsScreen.DampingSlider | sensory_shield--main/Sift--main/app/src/main/java/com/opensight/sift/ui/screens/AirPodsScreen.kt:171-172 | the damping map `1 - x`, used both to show a damping and to send a position, maps [0, 1] onto itself, in both directions |
| AirPodsScreen.VoiceSlider | sensory_shield--main/Sift--main/app/src/main/java/com/opensight/sift/ui/screens/AirPodsScreen.kt:180 | the shown position is in [0, 1] exactly when the amplification is in [0.5, 2] |
| AirPodsScreen.VoiceFromSlider | sensory_shield--main/Sift--main/app/src/main/java/com/opensight/sift/ui/screens/AirPodsScreen.kt:181 | the sent amplification is in [0.5, 2] exactly when the position is in [0, 1] |
| AirPodsScreen.DampingRoundTrip | sensory_shield--main/Sift--main/app/src/main/java/com/opensight/sift/ui/screens/AirPodsScreen.kt:171-190 | the damping map is its own inverse, so the high- and low-frequency sliders' shown position and sent damping undo each other |
| AirPodsScreen.VoiceRoundTrip | sensory_shield--main/Sift--main/app/src/main/java/com/opensight/sift/ui/screens/AirPodsScreen.kt:180-181 | the voice slider's shown position and sent amplification are mutual inverses |
| AirPodsScreen.SentValuesUnclamped | sensory_shield--main/Sift--main/app/src/main/java/com/opensight/sift/ui/screens/AirPodsScreen.kt:171-190 | a slider position in [0, 1] sends values the manager's clamp leaves unchanged |
| AirPodsScreen.SelectedButtons | sensory_shield--main/Sift--main/app/src/main/java/com/opensight/sift/ui/screens/AirPodsScreen.kt:116-134 | a button is selected exactly when the current preset equals its constant; at most one is selected, and none is selected when the preset is not one of the three |
| AirPodsScreen.CustomSelectsNone | sensory_shield--main/Sift--main/app/src/main/java/com/opensight/sift/ui/screens/AirPodsScreen.kt:116-134 | no button is selected while the preset is "custom" |
| AirPodsScreen.ToInt | sensory_shield--main/Sift--main/app/src/main/java/com/opensight/sift/ui/screens/AirPodsScreen.kt:383 | `toInt()` rounds toward zero inside the `Int` range and gives `Int.MAX_VALUE` above it and `Int.MIN_VALUE` below it |
| AirPodsScreen.Percent | sensory_shield--main/Sift--main/app/src/main/java/com/opensight/sift/ui/screens/AirPodsScreen.kt:383 | for a value in [0, 1] the label number is the floor of value×100, within [0, 100], and 100 at 1 |
| AirPodsScreen.OnHighSliderChange | sensory_shield--main/Sift--main/app/src/main/java/com/opensight/sift/ui/screens/AirPodsScreen.kt:171-172 | the move goes through `setCustomSettings`: only the high damping changes, to the clamped `1 - v`; the preset becomes "custom"; a reload gives the old settings with the new numerics, and of a mirrored store only the high damping; a position in [0, 1] reads back unchanged |
| AirPodsScreen.OnVoiceSliderChange | sensory_shield--main/Sift--main/app/src/main/java/com/opensight/sift/ui/screens/AirPodsScreen.kt:180-181 | the same for the voice slider: only the amplification changes, to the clamped `0.5 + 1.5v`, and of a mirrored store a reload differs only in it |
| AirPodsScreen.OnLowSliderChange | sensory_shield--main/Sift--main/app/src/main/java/com/opensight/sift/ui/screens/AirPodsScreen.kt:189-190 | the same for the low-frequency slider: only its damping changes, to the clamped `1 - v`, and of a mirrored store a reload differs only in it |
| WebApp.Trim | src/App.js:46 | `url.trim()` removes JavaScript whitespace at the two ends only, leaves none there, and is empty exactly when the input is all whitespace |
| WebApp.SchemeLength | src/App.js:165 | `https?://` matches with length 8 (with the `s`) or 7 (without), case-insensitively, and the two cannot both match |
| WebApp.UrlRun | src/App.js:165 | the greedy run of class characters is maximal |
| WebApp.FirstMatchFrom | src/App.js:165 | the leftmost position at which the pattern matches, or None when it matches nowhere |
| WebApp.UrlMatch | src/App.js:165-167 | `exec` finds nothing exactly when the pattern matches nowhere; otherwise it returns the link at the leftmost matching position: a scheme plus a non-empty run of class characters, not followed by another class character |
| WebApp.MatchIsFirstLink | src/App.js:165-167 | the greedy match at the leftmost matching position occurs there, is link-shaped, has no match before it, and cannot be extended |
| WebApp.NoLinkWithoutH | src/App.js:165 | a text without the letter h has no link |
| WebApp.NormalizeAction | src/App.js:159-168 | an object with a truthy label and url is shown as it is; anything else gets its own text (strings) or "" as caption, and the first link of its string form as url |
| WebApp.TextActionShown | src/App.js:165-167 | a string action keeps its whole text as caption, and its link is a link-shaped substring of it |
| WebApp.IncompleteRecordShown | src/App.js:161-167 | an object lacking a truthy label or url is shown as "" with no link |
| WebApp.FailureMessage | src/App.js:63-71 | a rejected request or a non-ok reply sets "Failed to fetch summary: " followed by the rejection's message or "Error: " plus the status text |
| WebApp.App.constructor | src/App.js:6-12 | the initial state is empty and has no saved links |
| WebApp.App.ShowsResults | src/App.js:147 | the results section is shown exactly when a submit happened, loading has stopped and the summary is non-empty |
| WebApp.App.SetUrl | src/App.js:130 | the input replaces the url |
| WebApp.App.StartSubmit | src/App.js:35-50 | the result is cleared and `submitted` set; a blank url sets the error, stops loading and sends nothing; otherwise the request carries the trimmed url |
| WebApp.App.FinishSubmit | src/App.js:52-74 | an ok reply fills summary and key actions ('' and [] when missing); a failure sets the error message; loading stops in every case |
| WebApp.App.Reset | src/App.js:77-83 | url, summary, key actions, error and submitted are cleared, and saved links are untouched |
| WebApp.App.SaveLink | src/App.js:86-89 | an empty or already saved url leaves the list unchanged; otherwise the link is appended at the end; the url is then saved, and distinct urls stay distinct |

## Left out

- `Backend.ExtractActions`: a request body that is not a JSON object is not modelled. There `request.json` or `data.get('url')` raises at backend/app.py:71-72, and the handler returns 500 "Failed to extract actions." (lines 111-113); the `url: Option<string>` parameter cannot express it.
- All I/O is left out: HTTP requests, Flask routing and `jsonify`, CORS, `.env` loading, logging and `print`. The page fetch, the HTML parse, `urljoin` and the language-model reply are parameters.
- BeautifulSoup is abstracted away: `get_text`, `decompose` and `find_all` are replaced by the page's visible text or its document-order list of element records.
- `TextCleanup.FetchWebsiteText` collapses every exception of the fetch into a None fetch result; the network errors that `app_debug.py` distinguishes all return None there too.
- The `summarize` handler of backend/app.py (lines 33-65) is not modelled; only its debug twin (backend/app_debug.py:37-79) is. The handler bodies differ only in their error texts; the helpers the app.py handler calls are modelled as `Backend.FetchWebsiteText` and `Backend.SummarizeWithAi`.
- The exception branch of `DebugBackend.Summarize` (the 500 reply at backend/app_debug.py:75-79) is not modelled. It is reached only through a failing request body or `jsonify`.
- Lines 204-384 of backend/app_debug.py are not modelled. They are a second copy of the handlers: started as a script, the file blocks in `app.run` (line 202, under `if __name__ == '__main__'`) before it reaches them. Unlike the modelled parser, their parser keeps empty actions (line 355).
- `DebugBackend.SummarizeWithAi`: a client reply whose content is `None` is treated as a raised call. In the source, `result_text[:100]` (backend/app_debug.py:169) raises on `None` and reaches the same branch.
- `Backend.ReplyContent`: a JSON `null` content, a non-dictionary element of `choices`, a top-level JSON value that is not an object, `"choices": null` and `"message": null` are not modelled. The last three raise at backend/app.py:224, which gives ("Error summarizing website", ["Please try again"]) at lines 242-244; `ChatBody` cannot represent them, and its `Choice(None)` means a missing message, which reads as "".
- `PyText.Lower`: only ASCII letters are lowercased. Python's full Unicode case mapping is not modelled.
- `PyText.Strip` and `PyText.SplitLines` use the whitespace and line-boundary sets of the Basic Multilingual Plane.
- SensoryShield numbers are `real`. IEEE float rounding and NaN (which `coerceIn` passes through) are not modelled.
- `SensoryShield.Load`: a stored entry of the wrong type reads as the default. Android would throw `ClassCastException` instead.
- `StateFlow` reactivity and the asynchronous `SharedPreferences.apply()` are not modelled. The store is a map updated synchronously.
- The Compose UI is not part of this model: layout, colours, navigation, `AccessibleComponents.kt`, `HomeScreen.kt`, `MainActivity.kt` and the theme files.
- `AirPodsScreen.Percent`: the integer-to-text formatting of the label, and the float products `value * 100`, are not modelled.
- The QR scanner (`src/QrScanner.js`, `handleQrScan`, `handleQrError`) and the `showScanner` toggle are not modelled. They wrap a camera library, the browser `URL` constructor and `setTimeout`.
- `WebApp.App.StartSubmit` and `FinishSubmit` split the asynchronous `handleSubmit` at its `await`. Interleaving with other events during the request, and React's batching of state updates, are not modelled.
- `WebApp.NormalizeAction`: a `null` key action, which makes `action.label` throw, is not modelled. Neither are `label` or `url` values that are not strings.
- Rendering decisions beyond `App.ShowsResults` and the caption/link pair are not modelled: the JSX itself, button styling and `window.open`.
