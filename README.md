# Voice transcriber: recording-loop policy in Dafny

This project models the decision core of a Tkinter desktop voice transcriber.
The application records from a microphone, passes each captured utterance to a
local Whisper speech-to-text model, and appends the transcript to a text widget.
With auto-copy on, it then mirrors the text to the system clipboard. The model
covers:

- the recording worker (`record_audio`): calibrate, loop over listen outcomes,
  check the clip format, encode it as WAV, stage it in a temporary file,
  transcribe it, classify failures, and always finish with `stop_recording`;
- the record button (`toggle_recording`, `start_recording`, `stop_recording`);
- the text widget and clipboard (`append_text`, `copy_to_clipboard`, `clear_text`);
- the locale-to-Whisper language table (`get_whisper_language_code`);
- input-device enumeration (`get_input_devices`) and the device selector
  (`on_device_selected`, with the `"{id}: {name}"` labels built for it).

Files:

- `strings.dfy` (module `Strings`): Python's `str.strip` (over the exact set of
  characters `str.isspace` accepts), ASCII `str.lower`, the substring test,
  `split(':')[0]`, and `f"{n}"` / `int()` on decimal literals.
- `language.dfy` (module `Language`): the language table.
- `devices.dfy` (module `Devices`): device enumeration and the selector.
- `capture.dfy` (module `Capture`): the recording policy as functions on an
  abstract `AppState`. `Step` is one loop iteration, `Run` is the loop, and
  `RecordSession` is the whole worker. The lemmas about them are here.
- `app.dfy` (module `App`): the class `VoiceTranscriberApp`. Its fields are
  updated in place by methods with `while` loops and `modifies` frames. Each
  state-changing method of the recording loop and the text widget ensures
  that the new `State()` equals the matching `Capture` function applied to
  `old(State())`; the device-selector methods state the selection directly.
  The class invariant `Valid()` says that every temporary file on disk was
  named by an earlier clip; the recording methods keep it.

Collaborators become inputs:

- The microphone: a flag for whether it opens, a flag for whether calibration
  succeeds, and a sequence of listen `Outcome`s. When the sequence runs out,
  the user has pressed stop.
- The WAV encoder: `WavOk`, `WavStructError`, or `WavOtherError`.
- The temporary-file step: `TempSaved(stillExists)`, `TempCreateFailed`, or
  `TempWriteFailed`.
- The Whisper engine: `Text(s)`, `FileNotFound`, or `Failed(message)`.
- The device library: an `Enumeration` of per-index lookups.

Callbacks posted to the UI thread are applied at the moment they are posted.

Notes on what the code does:

- Each utterance is transcribed and appended as soon as it is captured.
- An exception from the WAV encoder other than `struct.error` is not isolated
  to its iteration. It reaches the listen loop's generic handler and ends the
  session (`Fatal`, `WavOtherError`).
- At start-up the selector shows the first device, but `selected_device_id`
  stays `None` (the system default) until the user picks an entry.

## Model

| member | source | states |
|---|---|---|
| Strings.IsSpace | voice_transcriber.py:482 | the characters `str.isspace()` accepts, which `.strip()` removes; `Strip`, `StripInfix` and the trim lemmas are stated over it |
| Strings.Strip | voice_transcriber.py:482 | what `.strip()` returns neither starts nor ends with whitespace |
| Strings.StripInfix | voice_transcriber.py:499 | the stripped text is an infix of the original with only whitespace around it |
| Strings.TrimLeftRemovesSpace | voice_transcriber.py:482 | the left trim keeps a suffix of the text and removes only whitespace |
| Strings.TrimRightRemovesSpace | voice_transcriber.py:482 | the right trim keeps a prefix of the text and removes only whitespace |
| Strings.StripEmptyIffBlank | voice_transcriber.py:482-484 | a text strips to the empty string exactly when all of its characters are whitespace |
| Strings.StripAppendBlank | voice_transcriber.py:482 | appending whitespace (the text widget's final newline) does not change what the text strips to |
| Strings.Lower | voice_transcriber.py:421 | the model of `str.lower()` keeps the length (ASCII letters only are mapped) |
| Strings.LowerPointwise | voice_transcriber.py:421 | each character is lower-cased on its own and no ASCII capital remains |
| Strings.Contains | voice_transcriber.py:421 | Python's `p in s`, scanning from the left; `ContainsIffOccurs` states what it means |
| Strings.ContainsIffOccurs | voice_transcriber.py:421 | the substring test is true exactly when the pattern occurs at some position |
| Strings.BeforeColon | voice_transcriber.py:548 | `split(':')[0]` is a colon-free prefix, followed by a colon whenever it is shorter than the text |
| Strings.BeforeColonOfPrefix | voice_transcriber.py:548 | a colon-free head followed by a colon is exactly what the split keeps |
| Strings.Decimal | voice_transcriber.py:190 | `f"{n}"` is a non-empty string of digits with no leading zero |
| Strings.DecimalRoundTrip | voice_transcriber.py:190 | reading the digits of `f"{n}"` back gives `n` |
| Strings.ParseDecimal | voice_transcriber.py:550 | `int(f"{n}") == n` |
| Strings.ParseInt | voice_transcriber.py:550 | `int()` on a stripped, optionally signed digit string, None otherwise; it never succeeds on a string holding one of U+001C..U+001F, which `.strip()` would remove but `int()` rejects; `ParseDecimal` and `NoDigitNoInt` state what it returns for device numerals and for text without digits |
| Strings.InfoSeparatorRejected | voice_transcriber.py:550 | an information separator U+001C..U+001F anywhere in the string, even at an end, makes `int()` fail |
| Strings.NoDigitNoInt | voice_transcriber.py:549-552 | a string without any digit makes `int()` fail |
| Language.WhisperLanguageCode | voice_transcriber.py:514-523 | each of the five offered tags maps to its language part ("ru-RU" to "ru" and so on); every other tag maps to "en"; the result is always one of the five codes |
| Language.EnglishIffDefaultOrEnUs | voice_transcriber.py:516-523 | the code is "en" exactly for "en-US" and for tags outside the table |
| Language.OfferedTagsDistinguished | voice_transcriber.py:177 | distinct offered tags select distinct languages |
| Devices.GetInputDevices | voice_transcriber.py:525-541 | the loop builds `InputList` of the per-index answers when the enumeration completes, and any enumeration exception gives the empty list |
| Devices.InputList | voice_transcriber.py:532-535 | the reference list of `(index, name)` pairs for the answers with `maxInputChannels > 0`; characterised by the three lemmas below |
| Devices.InputListSound | voice_transcriber.py:532-535 | every listed entry is a device with `maxInputChannels > 0`, carrying that device's own name |
| Devices.InputListComplete | voice_transcriber.py:532-535 | every device with `maxInputChannels > 0` is listed, with its index and name |
| Devices.InputListSorted | voice_transcriber.py:532-535 | indices are below the device count and strictly increasing, so no device is listed twice |
| Devices.DeviceLabel | voice_transcriber.py:190 | the label `"{id}: {name}"`; `LabelPrefix` states that splitting it at the first colon gives back the numeral |
| Devices.SelectorValues | voice_transcriber.py:190-192 | the selector always has at least one entry |
| Devices.SelectedDevice | voice_transcriber.py:543-554 | a device is selected only when the device list is non-empty and the entry is not the placeholder |
| Devices.LabelPrefix | voice_transcriber.py:190 | splitting a device label at its first colon gives the index numeral, whatever the name contains |
| Devices.LabelSelectsDevice | voice_transcriber.py:543-552 | choosing the label `"{id}: {name}"` selects `id` |
| Devices.SelectorEntrySelects | voice_transcriber.py:190-199 | choosing entry k of the selector selects device k's index, or None when the selector shows the placeholder |
| Devices.NonNumericPrefixSelectsNone | voice_transcriber.py:549-552 | an entry with no digit before its first colon selects None |
| Capture.WidgetText | voice_transcriber.py:482 | `get("1.0", tk.END)` returns the buffer and the newline the widget always keeps; `StripAppendBlank` shows that newline never changes what is stripped |
| Capture.CopyToClipboard | voice_transcriber.py:497-507 | copying the stripped widget text when non-empty; its effect is stated by `CopyToClipboardEffect` |
| Capture.AppendText | voice_transcriber.py:480-495 | joining the transcript to the widget text and auto-copying; its effect is stated by `AppendTextEffect` and `AppendTextKeeps` |
| Capture.ClearText | voice_transcriber.py:509-512 | emptying the widget; `ClearThenCopy` states what follows |
| Capture.CopyToClipboardEffect | voice_transcriber.py:497-507 | the clipboard gets the stripped buffer exactly when the buffer is not blank, otherwise it is kept; it is never set to ""; the confirmation or the warning appears only when asked for |
| Capture.AppendTextEffect | voice_transcriber.py:480-495 | the buffer becomes `old + " " + text` when `old` is not blank and `old + text` otherwise; with auto-copy on and a non-blank result, the clipboard equals the stripped buffer; with it off, the clipboard is untouched |
| Capture.AppendTextKeeps | voice_transcriber.py:480-495 | appending touches only the text, clipboard, status and dialogs |
| Capture.ClearThenCopy | voice_transcriber.py:509-512 | after clearing, the buffer is empty and a copy only warns, keeping the clipboard |
| Capture.AppendAllAfterText | voice_transcriber.py:484-485 | once the buffer holds text, every later transcript is added after exactly one space |
| Capture.LeadingBlanks | voice_transcriber.py:482-487 | the number of transcripts before the first non-blank one: all of those are blank and the next one is not |
| Capture.AppendAllFromBlank | voice_transcriber.py:482-487 | starting from a blank widget, the leading blank transcripts are appended with no space between them, and the rest are joined by single spaces, in capture order |
| Capture.AppendAllFromText | voice_transcriber.py:482-487 | starting from a blank widget with a non-blank first transcript, the buffer ends as the transcripts joined by single spaces, in capture order |
| Capture.ValidFormat | voice_transcriber.py:363-369 | the sample-width and sample-rate checks; `InvalidClipSkipped` and `EngineNeedsValidFormat` state their effect |
| Capture.MentionsMissingFile | voice_transcriber.py:421 | the lower-cased message test; `FailureClassification` states it as two substring occurrences |
| Capture.FailureStatus | voice_transcriber.py:411-433 | an engine failure is reported either as the missing-ffmpeg status or as the generic transcription error |
| Capture.FailureClassification | voice_transcriber.py:411-427 | missing ffmpeg is reported exactly for a FileNotFoundError or a message whose lower-cased text contains both "file" and "not found" |
| Capture.Reported | voice_transcriber.py:404-433 | the success branch appends the text, each failure sets its classified status; `ReportedEffect` states the effect |
| Capture.AutoCopied | voice_transcriber.py:492-502 | the clipboard once a transcript has made the buffer `b`: the stripped `b` when auto-copy is on and `b` holds text, the old clipboard otherwise |
| Capture.Mirrors | voice_transcriber.py:492-502 | with auto-copy on, a widget holding text has its stripped text on the clipboard; `RunMirrors` and `SessionMirrors` prove it holds after transcription |
| Capture.ReportedEffect | voice_transcriber.py:404-433 | the engine's text is appended by the joining rule, and the clipboard becomes `AutoCopied` of the new buffer; a failure changes the status to its classification and nothing else; the dialogs are never touched |
| Capture.Transcribe | voice_transcriber.py:396-444 | the existence check, the engine request, the reporting and the `finally` cleanup; `TranscribeEffect` states the effect |
| Capture.TranscribeEffect | voice_transcriber.py:396-444 | at most one engine request, in the configured language, and only if the file still exists; the staged file is gone afterwards on every path; the clipboard is `AutoCopied` of the new buffer after a transcript and unchanged otherwise |
| Capture.Step | voice_transcriber.py:340-475 | one pass of the loop body; `StepEffect` states its effect on the engine requests, the buffer, the clipboard, the files, the settings and the loop flow (status and dialogs are given by the definition only) |
| Capture.SaveTemp | voice_transcriber.py:386-394 | staging as corrected: a saved file takes the next name and is live, a file created but not written is deleted again, a failed creation changes nothing; its effect is part of `StageAndTranscribeEffect` |
| Capture.SaveTempAsWritten | voice_transcriber.py:386-394 | staging as written: a file created before a write failure stays live; `SaveTempAsWrittenLeaks` states the leak |
| Capture.StageAndTranscribe | voice_transcriber.py:386-444 | staging the clip, then transcribing the saved file; `StageAndTranscribeEffect` states the effect |
| Capture.StageAndTranscribeEffect | voice_transcriber.py:386-444 | staging a valid clip makes an engine request only for a saved file that still exists, appends only that transcript, consumes one file name unless creation failed, and leaves no file behind; the clipboard changes only by auto-copying that transcript |
| Capture.ProcessClip | voice_transcriber.py:354-394 | the format check, the WAV encoding and its two error paths, then staging and transcription; `ProcessClipEffect` and `InvalidClipSkipped` state the effect |
| Capture.ProcessClipEffect | voice_transcriber.py:354-444 | a captured clip reaches the engine only when its format is valid, its WAV encoding succeeded and its file was saved and still exists; it leaves no file, changes the clipboard only by auto-copying the delivered transcript, and breaks the loop exactly on an unexpected encoding exception |
| Capture.ProcessClipKeepsSettings | voice_transcriber.py:354-444 | handling a clip never changes the recording flag, auto-copy or the language |
| Capture.StepEffect | voice_transcriber.py:340-475 | one iteration requests the engine only for a clip that passed every check, appends at most its own transcript, leaves no temporary file, leaves the clipboard alone unless it delivers a transcript and then auto-copies the new buffer, and breaks exactly on a fatal outcome |
| Capture.StepKeepsSettings | voice_transcriber.py:340 | the loop body never changes the recording flag, auto-copy or the language |
| Capture.InvalidClipSkipped | voice_transcriber.py:363-369 | a clip with a sample width outside {1,2,4} or a rate outside (0, 192000] continues the loop with nothing changed but the status |
| Capture.EngineNeedsValidFormat | voice_transcriber.py:363-369 | if an iteration made an engine request, its clip had a valid format |
| Capture.StepReportsFailure | voice_transcriber.py:411-433 | a failed transcription reports missing ffmpeg exactly when classified so, and the generic error otherwise |
| Capture.SaveTempAsWrittenLeaks | voice_transcriber.py:387-394 | as written, a temporary file created before a write failure stays on disk |
| Capture.Run | voice_transcriber.py:340-475 | the `while self.is_recording` loop over the outcomes; `RunAbortsIffFatal`, `RunText`, `RunEngineCalls` and `RunCleansUp` state its result |
| Capture.RunAbortsIffFatal | voice_transcriber.py:446-475 | the loop is aborted exactly when some outcome is an OSError, an unclassified listen error or an unexpected WAV exception; all other outcomes continue |
| Capture.RunText | voice_transcriber.py:409 | the loop appends the transcripts of the consumed outcomes in capture order, never empties the clipboard, and leaves it alone when no transcript is delivered |
| Capture.RunMirrors | voice_transcriber.py:492-502 | with auto-copy on, after a loop that delivered a transcript (or started mirrored) the clipboard holds the stripped widget text, or the widget is blank |
| Capture.RunEngineCalls | voice_transcriber.py:404 | the engine requests are exactly one per consumed clip that passed the checks, each in the configured language |
| Capture.RunCleansUp | voice_transcriber.py:441-444 | no temporary file outlives the loop |
| Capture.StopRecording | voice_transcriber.py:314-318 | recording off and the ready status; `SessionEndsStopped` relies on it |
| Capture.StartRecording | voice_transcriber.py:292-312 | recording on with its status when the microphone opens, otherwise only the error dialog; `ToggleFlips` states it |
| Capture.ToggleRecording | voice_transcriber.py:286-290 | stop when recording, otherwise start; `ToggleFlips` states it |
| Capture.ToggleFlips | voice_transcriber.py:286-318 | the button stops a recording and otherwise starts one if the microphone opens, or reports the error |
| Capture.RecordSession | voice_transcriber.py:320-478 | calibration, the loop and the final `stop_recording`; `SessionEndsStopped`, `CalibrationFailureStops` and `SessionSummary` state its result |
| Capture.SessionEndsStopped | voice_transcriber.py:478 | every session end leaves recording off with the ready status |
| Capture.CalibrationFailureStops | voice_transcriber.py:328-337 | a calibration failure reports the error and stops before any capture: no engine request, no file, text and clipboard unchanged |
| Capture.SessionMirrors | voice_transcriber.py:320-478 | the auto-copy mirror holds at the end of a calibrated session that delivered a transcript |
| Capture.SessionSummary | voice_transcriber.py:320-478 | a calibrated session appends the transcripts in order, makes one engine request per valid staged clip, leaves no file, and is aborted exactly when some outcome is fatal, stopped otherwise |
| App.VoiceTranscriberApp.constructor | voice_transcriber.py:97-104 | a new window is idle with empty text and auto-copy on, and satisfies `Valid()` (no temporary file yet); its device list is the enumeration's `InputList` (empty on any exception); it shows the first selector entry with no device selected |
| App.VoiceTranscriberApp.ToggleRecording | voice_transcriber.py:286-290 | updates the state as `Capture.ToggleRecording` says |
| App.VoiceTranscriberApp.StartRecording | voice_transcriber.py:292-312 | sets recording and its status if the microphone opens, otherwise only reports the error |
| App.VoiceTranscriberApp.StopRecording | voice_transcriber.py:314-318 | recording off, ready status |
| App.VoiceTranscriberApp.CopyToClipboard | voice_transcriber.py:497-507 | updates the state as `Capture.CopyToClipboard` says |
| App.VoiceTranscriberApp.AppendText | voice_transcriber.py:480-495 | updates the state as `Capture.AppendText` says |
| App.VoiceTranscriberApp.ClearText | voice_transcriber.py:509-512 | empties the buffer and shows the cleared status |
| App.VoiceTranscriberApp.SetAutoCopy | voice_transcriber.py:278-283 | the checkbutton sets auto-copy and changes nothing else |
| App.VoiceTranscriberApp.ChooseLanguage | voice_transcriber.py:173-180 | picking entry k of the read-only selector sets that tag, whose Whisper code is its language part, and changes nothing else |
| App.VoiceTranscriberApp.OnDeviceSelected | voice_transcriber.py:543-554 | the selected device is the one `Devices.SelectedDevice` reads off the selector text |
| App.VoiceTranscriberApp.ChooseDeviceEntry | voice_transcriber.py:201-209 | picking entry k selects device k's index, or None when there are no devices |
| App.VoiceTranscriberApp.Iterate | voice_transcriber.py:340-475 | one loop body updates the state and chooses continue or break as `Capture.Step` says; it keeps `Valid()` and leaves the set of files on disk as it was |
| App.VoiceTranscriberApp.ProcessClip | voice_transcriber.py:354-444 | format check, WAV encoding, staging and transcription as `Capture.ProcessClip` says, keeping `Valid()` |
| App.VoiceTranscriberApp.StageAndTranscribe | voice_transcriber.py:386-444 | saving the clip and transcribing the saved file update the state as `Capture.StageAndTranscribe` says, keeping `Valid()` |
| App.VoiceTranscriberApp.SaveTemp | voice_transcriber.py:386-394 | a saved file gets the next name and is live; a file that was created but not written is deleted again; a failed creation changes nothing; the new name is above every live one, so `Valid()` is kept |
| App.VoiceTranscriberApp.TranscribeFile | voice_transcriber.py:396-444 | engine request, result handling and file cleanup as `Capture.Transcribe` says, keeping `Valid()` |
| App.VoiceTranscriberApp.Report | voice_transcriber.py:404-433 | the engine's text is appended; a failure sets the status `Capture.FailureStatus` classifies |
| App.VoiceTranscriberApp.RecordAudio | voice_transcriber.py:320-478 | the worker's final state and exit reason are those of `Capture.RecordSession`; recording is off and the status is ready at the end; `Valid()` holds and the files on disk are those there before |

## Findings

| source | as written | input that shows it | evidently intended | confidence | as-written member | corrected member |
|---|---|---|---|---|---|---|
| voice_transcriber.py:387-394 | `NamedTemporaryFile(delete=False)` creates the file. If the write or the close at the end of the `with` raises, the handler at 392-394 only logs and continues; that `continue` skips the `try` whose `finally` (441-444) would delete the file, so nothing removes it. | A full disk: the file is created, then `temp_file.write` or the flush on close fails. | The cleanup comment at 442 and the `finally` at 441-444 mean every staged file should be removed. | medium, not executed | Capture.SaveTempAsWritten (Capture.SaveTempAsWrittenLeaks) | Capture.SaveTemp (Capture.StepEffect, Capture.RunCleansUp) |

The rest of the model uses the corrected `SaveTemp`. In that version the
handler deletes the file it created, so `App.VoiceTranscriberApp.SaveTemp`
only advances the name counter for `TempWriteFailed`.

## Left out

- Widget construction, layout, indicator colours and the text of message boxes.
  Dialogs are kept only as a list of kinds (`Dialog`), and status strings as the
  `Status` enumeration.
- The import-time PyAudio probe and the `ffmpeg -version` subprocess check.
  Both are I/O at module load.
- `SafeMicrophone` and the real microphone, listen and ambient-noise calls.
  These are device I/O, replaced by the flags and `Outcome`s above.
- WAV encoding and temporary-file writes. These are library I/O, modelled as
  steps that may fail.
- Whisper model loading and inference, including `on_model_selected` and
  `load_model_async`. These are foreign calls, and the engine's answer is an
  input.
- Threads and `root.after`. The loop runs sequentially with posted callbacks
  applied as posted. A stop pressed while `listen` blocks, and the model-swap
  race, are not modelled.
- The sensitivity slider, `update_sensitivity_label` and
  `update_energy_threshold`. These are float conversions with no decision logic.
- Logging.
- Capture.CopyToClipboard, Capture.AppendText, App.VoiceTranscriberApp.CopyToClipboard, App.VoiceTranscriberApp.AppendText: a failing `pyperclip.copy` (for instance another program holding the clipboard) is not modelled. In the source the exception leaves the clipboard as it was and, when the copy comes from `append_text`, also skips the status update at 495; the model assumes the copy succeeds.
- The second `except Exception` after the first one. It can never be reached.
- A failure of `os.unlink` in the cleanup step. Such an OSError would end the
  session and leave the file on disk; the model assumes deletion succeeds.
- Strings.Lower: maps ASCII letters only. Python's `str.lower` also maps
  non-ASCII letters. For `MentionsMissingFile` this makes no difference: the
  only non-ASCII character that lowers to a letter of "file" or "not found"
  is U+0130, which lowers to "i" followed by U+0307, so that "i" is never
  followed by "l".
- Strings.ParseInt: accepts optional surrounding whitespace, a sign and ASCII
  digits, and rejects any string holding U+001C..U+001F. Python's `int()` also
  accepts underscores between digits and non-ASCII decimal digits. The properties proved are for the `"{id}: {name}"`
  labels the selector offers.
- The widget's `see` call and the combobox's read-only behaviour are UI.
  `deviceChoice` is the selector's text, set through `ChooseDeviceEntry`.
