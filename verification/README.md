# Screenshot-to-AI assistant, modelled in Dafny

The system is a desktop helper. The user drags a rectangle over the screen
and presses F10. The tool grabs that region, reads its text with an OCR
engine (Tesseract or EasyOCR), and sends the text to an AI provider: OpenAI
or a local Ollama server. The short answer is shown in the window and
copied to the clipboard. F11 and F12 change the window's opacity. A
settings dialog edits a JSON settings file. A second, simplified
program, `main_simple.py`, sends the screenshot itself to OpenAI as an
image and has none of the rest.

The model keeps what the tool decides:

- which settings are in force;
- what the settings dialog accepts, and what a save changes;
- which area a drag stores and what the status line says;
- which OCR engine runs, with which language and reader, and which detections survive;
- which request goes to which provider, and how each reply becomes an answer or a failure;
- how the answer's words are counted;
- which Ollama models the dialog offers.

Everything outside the tool is a parameter: the screen, the OCR engines,
the HTTP server and the OpenAI client are all functions from the request
to what came back (a value, or the message of the exception raised).

Modules, one per file:

- `pyvalue.dfy`, **PyValue**: JSON values as `json.load` returns them, Python truthiness and `str()`, and the returned-or-raised outcome of a foreign call.
- `pytext.dfy`, **PyText**: Python's `str.strip`, `str.split()`, `str.lower` (as far as keyword matching needs), `in` on strings and `str.join`, over Python's whitespace set.
- `settings.dfy`, **Settings**: `SettingsManager` (a class), the defaults, load/get/set, and the dialog's validation and save.
- `selection.dfy`, **Selection**: the full tool's `ScreenshotApp` as a class. It covers region selection, the capture gate, hotkeys and opacity.
- `ocr.dfy`, **Ocr**: `OCRProcessor` as a class. The confidence filter is a loop proved against a recursive specification.
- `dispatch.dfy`, **Dispatch**: the provider requests, the reply handling, the word count and the Ollama model filter.
- `simple.dfy`, **SimpleApp**: `main_simple.py`'s `ScreenshotApp` as a class, related to module Selection.

Where the program's own comments promise more than its code does, the
model follows the code:

- With `send_text_only` false, the comments (main.py:46, main.py:1453) say both text and image are sent. The code attaches no image to either provider; only the Ollama prompt's separator changes, to `" "` instead of a blank line.
- An Ollama reply without a `"response"` key is not an error: the answer is the sentence "No response from Ollama" (main.py:1469).
- `main_simple.py` has no minimum size and no start guard (main_simple.py:91-95).
- `main_simple.py` records `event.x`/`event.y`, which are relative to its overlay window (main_simple.py:84, 92). The overlay's position is left to the window manager (main_simple.py:69). The stored area is then passed to the screenshot call as a screen region (main_simple.py:105). So the grabbed region is the dragged one only when the overlay sits at the screen origin (SimpleApp.GrabRegionOffset). The full tool records screen coordinates (main.py:1260-1261, 1296-1297).

## Model

| member | source | states |
|---|---|---|
| PyText.Strip | main.py:616 | Python's `strip()`: the left strip, then the right strip; its properties are stated by StripEnds, StripEmpty and StripIdempotent |
| PyText.StripLeft | main.py:616 | the result is a suffix of the input, everything dropped is whitespace, and the result does not start with whitespace |
| PyText.StripRight | main.py:616 | the result is a prefix of the input, everything dropped is whitespace, and the result does not end with whitespace |
| PyText.StripEnds | main.py:788 | a stripped string is empty or has non-whitespace at both ends |
| PyText.StripEmpty | main.py:713 | `strip()` gives "" exactly when the string is all whitespace |
| PyText.StripNoSpace | main.py:723 | stripping a string without whitespace leaves it unchanged |
| PyText.StripIdempotent | main.py:723 | stripping twice is stripping once, so a saved URL that is put back in the entry (main.py:581) and saved again is unchanged |
| PyText.TakeWord | main.py:1489 | the first word is a whitespace-free prefix, maximal, and non-empty when the string starts with a non-space |
| PyText.Split | main.py:1489 | Python's `split()` with no argument; its properties are stated by SplitWords and SplitCountsRuns |
| PyText.SplitStep | main.py:1489 | `split()` of a string with a word is that first word followed by the split of the rest |
| PyText.ConsWords | main.py:1489 | prepending a word to a list of words gives a list of words |
| PyText.SplitWords | main.py:1489 | every element `split()` returns is non-empty and whitespace-free |
| PyText.RunEndsSpacePrefix | main.py:1489 | leading whitespace adds no word ends |
| PyText.RunEndsWordPrefix | main.py:1489 | a word followed by whitespace or the end adds exactly one word end |
| PyText.SplitCountsRuns | main.py:1489 | the number of words `split()` returns equals the number of positions that end a whitespace-free run |
| PyText.LowerChar | main.py:630 | lower-casing one character maps A-Z to a-z, KELVIN SIGN to "k", U+0130 to "i" and a combining dot, and keeps every other character |
| PyText.Lower | main.py:630 | lower-casing gives between one and two characters per input character |
| PyText.LowerAscii | main.py:630 | on ASCII text lower-casing keeps the length and changes exactly the capital letters, each to its small letter |
| PyText.UpperAscii | main.py:630 | upper-casing the small ASCII letters keeps the length and every other character |
| PyText.LowerIgnoresCase | main.py:630 | a string and its upper-cased form lower-case to the same string |
| PyText.Contains | main.py:630 | Python's `needle in hay` on strings; its meaning is stated by ContainsAt |
| PyText.ContainsAt | main.py:630 | `keyword in name` holds exactly when the keyword occurs at some index |
| PyText.Join | main.py:832 | Python's `sep.join(parts)`; JoinSnoc states how it grows |
| PyText.JoinSnoc | main.py:832 | joining a list with one more line appends the separator and that line |
| PyValue.Truthy | main.py:1440 | Python's `bool(v)` on a JSON value: empty strings, lists and dicts, zero, False and None are false |
| PyValue.AsReal | main.py:1183 | adding a float succeeds exactly for int, float and bool settings, giving the int's value, 1.0 or 0.0 for a bool, and a float as is |
| PyValue.NatToString | main.py:1490 | the decimal rendering is non-empty, made of digits, and without a leading zero unless the number is 0 |
| PyValue.NatToStringValue | main.py:1490 | the digits written denote the number itself |
| PyValue.Show | main.py:1438 | Python's `str(v)` inside an f-string: exact for str, int, bool and None |
| Settings.Load | main.py:52-66 | the loaded settings have every default key plus the file's keys; the file's values win; a missing or unreadable file gives the defaults |
| Settings.Lookup | main.py:78-80 | a stored key gives its value, else the default, else None |
| Settings.LookupAfterLoad | main.py:52-80 | after loading, a lookup gives the file's value, else the default, else None |
| Settings.LookupAfterSet | main.py:78-84 | setting a key changes the lookup of that key only |
| Settings.SettingsManager.constructor | main.py:35-50 | the manager starts with the loaded settings, which contain every default key |
| Settings.SettingsManager.Get | main.py:78-80 | `get` returns the stored value or the default fallback; while every default key is present, a default key always reads the stored value |
| Settings.SettingsManager.Set | main.py:82-84 | `set` overwrites one key and keeps every default key present |
| Settings.Validate | main.py:705-718 | the dialog's checks in their order; ValidateAccepts states when it passes |
| Settings.ValidateAccepts | main.py:705-718 | the dialog saves exactly when OpenAI has a key and a model, or Ollama has a non-blank URL and a model |
| Settings.ValidateIgnoresOtherProvider | main.py:705-718 | the fields of the provider not chosen never affect validation |
| Settings.FormSettings | main.py:720-735 | a save writes exactly the eleven settings the tool has defaults for |
| Settings.SaveSettings | main.py:701-753 | a refused save changes nothing; an unparsable max-tokens or temperature entry leaves the earlier settings already changed; a full save overlays the dialog's settings and reports whether the file write succeeded |
| Settings.SetsMakeUnion | main.py:721-735 | the eleven `set` calls in a row equal overlaying the dialog's settings map |
| Selection.BoundingBox | main.py:1300-1306 | the stored box has non-negative sides, and its edges are exactly the two points' coordinates |
| Selection.BoundingBoxUnique | main.py:1300-1306 | the box is determined by the two points, whichever is the anchor |
| Selection.DragFrame | main.py:1279-1287 | the frame drawn while dragging has non-negative sides |
| Selection.DragFrameMatchesRelease | main.py:1275-1306 | the frame drawn while dragging equals the area a release at that point would store, moved into overlay coordinates |
| Selection.DecideRelease | main.py:1289-1315 | a release cancels exactly when an anchor coordinate is unset or 0; otherwise it reports the bounding box, stored exactly when both sides are at least 10 |
| Selection.SelectedIsLargeEnough | main.py:1308-1315 | a stored area has both sides at least 10 |
| Selection.ReleaseDirectionFree | main.py:1300-1315 | for corners with no coordinate 0, swapping anchor and release point decides the same way |
| Selection.DirectionMattersAtZero | main.py:1292-1315 | at coordinate 0 the direction matters: a drag from (100, 50) to (0, 0) stores the box, the reverse drag is cancelled |
| Selection.ZeroAnchorNeverSelects | main.py:1292-1294 | a drag anchored at screen x = 0 or y = 0 is cancelled |
| Selection.UndersizedDragExample | main.py:1308-1312 | a 5 by 2 drag is reported too small |
| Selection.ClampTransparency | main.py:1183 | the new opacity lies in [0.3, 1.0], and equals current + delta when that is in range |
| Selection.ClampRoundTrip | main.py:1143-1150 | away from the bounds, F11 then F12 returns to the starting opacity |
| Selection.Route | main.py:1140-1153 | F10 captures, F11 lowers opacity by 0.1, F12 raises it by 0.1, any other key does nothing |
| Selection.ScreenshotApp.constructor | main.py:841-884 | the app starts with no area, no anchor, no frame, the overlay closed and an empty status log |
| Selection.ScreenshotApp.SelectArea | main.py:1192-1241 | opening the overlay hides the main window, resets the anchor and frame, and keeps the stored area |
| Selection.ScreenshotApp.CancelSelection | main.py:1248-1256 | cancelling closes the overlay, shows the main window and keeps the stored area |
| Selection.ScreenshotApp.StartSelection | main.py:1258-1273 | a press records the screen anchor and places a 1 by 1 frame |
| Selection.ScreenshotApp.DragSelection | main.py:1275-1287 | the frame follows the pointer only when the anchor is truthy and a frame exists |
| Selection.ReleaseMessages | main.py:1292-1324 | the status messages a release shows: cancelled, too small then cancelled, or the selected area |
| Selection.ScreenshotApp.CompleteSelection | main.py:1289-1329 | only a large-enough release replaces the stored area; the status messages follow the decision; the overlay always closes; the frame attribute is left as it was |
| Selection.ScreenshotApp.ClearSelection | main.py:1119-1122 | clearing forgets the stored area |
| Selection.ScreenshotApp.CaptureScreenshot | main.py:1331-1338 | without a stored area nothing is grabbed and an error is shown; otherwise the stored area is the region grabbed |
| Selection.ScreenshotApp.AdjustOpacity | main.py:1179-1190 | a numeric stored opacity is replaced by the clamped value, and the percentage is shown; a non-numeric one changes nothing |
| Selection.ScreenshotApp.OnKeyPress | main.py:1140-1153 | F10 grabs the stored area or logs that none is selected; F11 and F12 store the clamped opacity minus or plus 0.1 and show its percentage, or change nothing for a non-numeric value; other keys change nothing; no key touches the area, the anchor, the frame or the windows |
| Ocr.Kept | main.py:828-830 | the detections above 0.5, in order; KeptMembers and KeptAppend state this |
| Ocr.KeptMembers | main.py:827-830 | a detection is kept exactly when it was returned with confidence above 0.5 |
| Ocr.KeptAppend | main.py:827-830 | the filter commutes with concatenation, so kept lines keep the engine's order |
| Ocr.Texts | main.py:828-830 | one text per detection, position by position |
| Ocr.TextsAppend | main.py:828-830 | taking texts commutes with concatenation |
| Ocr.CollectLines | main.py:827-830 | the loop collects exactly the texts of the detections above the threshold, in order |
| Ocr.EasyOcrText | main.py:827-832 | the kept lines joined with newlines and stripped; EasyOcrLinesConfident states its properties |
| Ocr.EasyOcrLinesConfident | main.py:827-832 | every joined line comes from a confident detection, and with none above the threshold the text is "" |
| Ocr.EasyOcrLanguage | main.py:803-817 | a known code maps through the table, and anything else gives "en" |
| Ocr.ReaderFor | main.py:800-818 | an existing reader is reused, and a new one is built for the mapped language |
| Ocr.EasyOcrOutput | main.py:820-837 | the string `_extract_with_easyocr` returns for a reader; ExtractWithEasyOcr is proved to return it |
| Ocr.TesseractOutput | main.py:782-792 | the stripped Tesseract text, or the error message; ExtractDispatch states its properties |
| Ocr.ReaderIgnoresLaterLanguage | main.py:800-818 | once a reader exists, changing the language setting has no effect on it |
| Ocr.ExtractOutput | main.py:764-780 | the string `extract_text` returns; ExtractDispatch states its properties |
| Ocr.ExtractDispatch | main.py:764-792 | missing libraries give the install message; any method other than the two names gives "Unknown OCR method"; Tesseract's text is stripped |
| Ocr.OcrProcessor.constructor | main.py:760-762 | a processor starts with no reader |
| Ocr.OcrProcessor.ExtractWithEasyOcr | main.py:794-837 | the text equals the EasyOCR output for the reader used; the reader is memoised after a successful build |
| Ocr.OcrProcessor.ExtractText | main.py:764-818 | the text equals the dispatch over the current settings; only an EasyOCR run can set the reader, to the one built for the mapped language, and an existing reader is kept |
| Dispatch.OllamaBody | main.py:1432-1463 | the Ollama body carries the stored model, system prompt, temperature and max tokens, has streaming off, and its prompt starts with the instruction and ends with the text |
| Dispatch.OllamaBranchesDifferOnlyInSeparator | main.py:1440-1463 | the two `send_text_only` branches build the same body except the separator after the instruction |
| Dispatch.ChatBody | main.py:1403-1427 | the OpenAI request carries the stored model, system prompt, max tokens and temperature |
| Dispatch.ProvidersAskTheSame | main.py:1403-1463 | the OpenAI user message equals Ollama's non-text-only prompt, with the same system prompt and token limit |
| Dispatch.OllamaReply | main.py:1465-1475 | a non-200 reply is rejected with its status and body; a 200 JSON object yields "response" or "No response from Ollama"; any other 200 body is malformed |
| Dispatch.OllamaEndpoint | main.py:1434-1438 | the POST goes to the stored URL, rendered by `str()`, followed by "/api/generate" |
| Dispatch.SendToAi | main.py:1373-1475 | one run of `send_to_ai`; SendToAiRouting states its outcomes |
| Dispatch.SendToAiRouting | main.py:1373-1475 | OpenAI is asked exactly when the provider is "openai"; a missing client sends nothing; a returned answer is displayed and a raised exception is a failure; every other provider goes to Ollama, whose reply is handled by OllamaReply and whose exception is a failure |
| Dispatch.WordCount | main.py:1489 | the word count is the number of maximal whitespace-free runs of the answer |
| Dispatch.DisplayStatus | main.py:1477-1497 | a string answer's status reports its word count; any other value reports a display error |
| Dispatch.OneWordAnswer | main.py:1489 | "4" counts as one word |
| Dispatch.OneWordStatus | main.py:1489-1490 | the status for "4" says 1 word |
| Dispatch.IsVisionModel | main.py:629-630 | a name is a vision model when its lower-cased form contains one of the five keywords |
| Dispatch.VisionMatchIgnoresCase | main.py:630 | the keyword test gives the same answer for a name and its upper-cased form |
| Dispatch.VisionModels | main.py:630 | the vision models among the names; VisionModelsMembers and VisionModelsAppend state this |
| Dispatch.VisionModelsMembers | main.py:629-630 | a model is offered as a vision model exactly when it is listed and its lower-cased name contains a keyword |
| Dispatch.VisionModelsAppend | main.py:630 | the filter keeps the server's order |
| Dispatch.VisionModelsEmpty | main.py:630-632 | the filter is empty exactly when no listed model is a vision model |
| Dispatch.ShownModels | main.py:632-638 | with a vision model present the box offers the vision models, else the first ten names; every choice is a listed model |
| Dispatch.RefreshModels | main.py:613-646 | a blank URL asks for one; otherwise `<url>/api/tags` is fetched, a connection failure and a non-200 status are reported as such, and a 200 reply is listed |
| Dispatch.Listing | main.py:632-639 | a listing offers the shown models, previews the first five of them, and counts the vision models if any, else all models |
| SimpleApp.SimpleRelease | main_simple.py:91-95 | a release stores the bounding box of press and release, of any size; without a press nothing is stored |
| SimpleApp.ClickStoresEmptyArea | main_simple.py:91-95 | a click without a drag stores a zero-size area at the click |
| SimpleApp.SimpleReleaseSymmetric | main_simple.py:93-95 | swapping press and release stores the same area |
| SimpleApp.SimpleKeepsMore | main_simple.py:91-95 | for the same press and release numbers, the simple rule stores every area the full rule stores; it also stores a drag anchored at 0, which the full rule cancels |
| SimpleApp.GrabRegionOffset | main_simple.py:69-105 | a drag over an overlay at (ox, oy) stores the screen box of the drag moved by (-ox, -oy); the grab region is the dragged one exactly when the overlay is at the screen origin |
| SimpleApp.ImageRequestFor | main_simple.py:120-146 | no request is made exactly when the image is None or empty; otherwise the fixed model and instruction are sent with a data URL |
| SimpleApp.ImageUrlCarriesImage | main_simple.py:140 | dropping the data-URL prefix gives back the stored image unchanged |
| SimpleApp.ScreenshotApp.constructor | main_simple.py:15-39 | the app starts with no area and no image, the placeholder answer, and the clipboard as the system had it |
| SimpleApp.ScreenshotApp.SelectArea | main_simple.py:64-81 | opening the overlay forgets the previous press |
| SimpleApp.ScreenshotApp.StartSelection | main_simple.py:83-86 | a press records its coordinates |
| SimpleApp.ScreenshotApp.CompleteSelection | main_simple.py:91-99 | a release after a press stores the bounding box and closes the overlay; without a press nothing changes |
| SimpleApp.ScreenshotApp.SendToOpenAi | main_simple.py:120-155 | the request is the one for the stored image; a returned answer goes to the answer box and the clipboard; otherwise both are unchanged |
| SimpleApp.ScreenshotApp.CaptureScreenshot | main_simple.py:101-155 | only F10 acts; a failed grab changes nothing; a successful grab stores the encoding and sends it; a returned answer goes to the answer box and the clipboard, otherwise both are unchanged |

## Left out

- The GUI: Tk widgets, window geometry, colours, the answer-only view, message boxes and the settings dialog's layout. Only the facts the handlers change are modelled (overlay open, main window shown, status messages as a log).
- SimpleApp: the overlay's position on the screen is not part of the class state. The class stores the overlay-relative numbers the handlers receive; GrabRegionOffset relates them to screen coordinates.
- Threads: the keyboard-listener thread, the per-capture `send_to_ai` thread and `root.after` marshalling. In `main_simple.py`, the `listen_for_f10` loop never returns, and its `pyautogui.press` branch never runs because `press` returns None.
- The steps of the full capture after the gate (main.py:1340-1371) are not composed into one member. These are the screen grab, saving under `ss/`, base64 encoding, the OCR call and starting the send thread. The OCR and the send are modelled on their own in Ocr and Dispatch.
- File I/O: reading `settings.json` is abstracted to its outcome (`Settings.SettingsFile`). Writing it is a boolean, and the write-back after an opacity change is not modelled.
- HTTP, the OpenAI client, pytesseract, EasyOCR, pyautogui, PIL, base64 and uuid are functions passed in, or their outcomes are. `initialize_ai_client`, the "Test connection" button and the global `client` are left out; the client's existence is the `clientReady` flag.
- Floating point: confidence, temperature and opacity are exact reals. `int(new_value * 100)` is `Floor`, which is the same for these non-negative values; float rounding is not modelled.
- PyValue.Show: `str()` of floats, lists and dicts is shown by kind only (`"<float>"` and so on). Strings, ints, booleans and None are exact.
- PyText.Lower: only the mappings that can affect a match against an all-ASCII lower-case keyword are modelled (A-Z, KELVIN SIGN and U+0130). Other characters are kept as they are.
- Ocr.EasyOcrLanguage: a list or dict language setting makes `dict.get` raise in Python ("EasyOCR error"); the model maps it to "en".
- Ocr: the `ImportError` branches inside the two engine helpers cannot be reached once both imports succeeded at start-up, which is the only case in which the helpers run. The outer `except` of `extract_text` cannot be reached either, because both helpers catch every exception. Neither is modelled.
- Dispatch.OllamaReply: the exception text for a 200 reply that is not a JSON object is not modelled; it is the single outcome `MalformedReply`.
- Dispatch.RefreshModels: the tag list is given as the model names already taken from the reply. A reply body that is not JSON, or whose entries lack `name`, is not modelled.
- The `hasattr(self, 'extracted_text')` guard of `send_to_ai` (main.py:1377-1379) always passes, because `__init__` sets the attribute to None (main.py:875), and `send_to_ai` only runs after a capture has set the text. It is not modelled.
- Dispatch.SendToAiRouting: the answer's OpenAI reply object (`choices[0].message.content`) is given as a string; a None content is not modelled.
- Printing and error logging (`print`, `log_error`, timestamps) and the 200-character console preview are left out.
- `toggle_answer_only_view`, `open_settings`, `on_settings_saved`, `update_transparency`, `quit_app` and `start_keyboard_listener` only drive the GUI or threads, and are left out.
