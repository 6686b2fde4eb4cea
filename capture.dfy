/** The capture-and-transcription policy of the application, as functions
    on an abstract application state: the text buffer and clipboard rules,
    one iteration of the listening loop, the loop itself and a whole
    recording session. The microphone, the WAV encoder, the temporary-file
    system and the speech engine are replaced by the outcomes they report. */
module Capture {
  import opened Strings
  import Language

  // ---------------------------------------------------------------------
  // What the outside world reports

  /** The status line. */
  datatype Status =
    | Ready               // "ready to record"
    | Recording           // "recording... speak into the microphone"
    | Calibrating         // "calibrating the microphone..."
    | Listening           // "listening... speak"
    | Recognizing         // "recognising..."
    | NotRecognized       // "speech not recognised, continuing..."
    | ServiceError        // "recognition service error, continuing..."
    | MissingFfmpeg       // "error: a required component (ffmpeg) is missing, see the logs..."
    | TranscriptionFailed // "transcription error, continuing..."
    | TextAdded           // "text added! listening..."
    | Copied              // "text copied to the clipboard!"
    | Cleared             // "text cleared"

  /** The message boxes the application raises. */
  datatype Dialog = MicrophoneInitError | CalibrationError | DeviceError | ListenError | NothingToCopy

  /** What the engine does with a staged file: return text, raise
      FileNotFoundError, or raise any other exception with a message. */
  datatype EngineResult = Text(text: string) | FileNotFound | Failed(message: string)

  /** Encoding the clip as WAV: success, a struct.error, or any other exception. */
  datatype WavWrite = WavOk | WavStructError | WavOtherError

  /** Staging the WAV bytes in a temporary file: saved (and whether it is
      still there when checked just before transcription), creation failed
      with nothing on disk, or the file was created but writing or closing
      it failed. */
  datatype TempWrite = TempSaved(stillExists: bool) | TempCreateFailed | TempWriteFailed

  /** What one call to the microphone's listen step ends in. */
  datatype Outcome =
    | Timeout        // no speech before the timeout
    | UnknownValue   // speech that could not be recognised
    | RequestError   // a recognition-service failure
    | OSError        // the audio device failed (busy, unplugged)
    | OtherError     // any other exception while listening
    | Clip(sampleWidth: int, sampleRate: int, wav: WavWrite, temp: TempWrite, engine: EngineResult)

  // ---------------------------------------------------------------------
  // State

  /** The part of the application the recording loop reads and writes.
      `buffer` is the text widget's content (without the newline the widget
      always keeps at its end); `engineCalls` lists the language code of
      every transcription request, in order; `liveTemps` are the temporary
      files currently on disk, named by the counter `nextTemp`. */
  datatype AppState = AppState(
    isRecording: bool,
    buffer: string,
    clipboard: string,
    status: Status,
    dialogs: seq<Dialog>,
    engineCalls: seq<string>,
    liveTemps: set<nat>,
    nextTemp: nat,
    autoCopy: bool,
    language: string)

  /** Every live temporary file has a name below the counter, so the next
      name is fresh. */
  predicate WellFormed(s: AppState) {
    forall t :: t in s.liveTemps ==> t < s.nextTemp
  }

  // ---------------------------------------------------------------------
  // Text buffer and clipboard

  /** What reading the whole text widget returns: its content and the
      trailing newline the widget always keeps. */
  function WidgetText(buffer: string): string {
    buffer + "\n"
  }

  /** The joining rule, stated on the buffer itself: a space goes between
      the old text and the new one unless the old text is blank. */
  function Joined(buffer: string, text: string): string {
    if Blank(buffer) then buffer + text else buffer + " " + text
  }

  /** Copying the stripped widget text to the clipboard when there is any;
      with `showMessage` the status confirms it, or a warning says there is
      nothing to copy. */
  function CopyToClipboard(s: AppState, showMessage: bool): AppState {
    var text := Strip(WidgetText(s.buffer));
    if text != "" then
      s.(clipboard := text, status := if showMessage then Copied else s.status)
    else if showMessage then
      s.(dialogs := s.dialogs + [NothingToCopy])
    else
      s
  }

  /** Appending a transcript to the widget, then auto-copying when enabled. */
  function AppendText(s: AppState, text: string): AppState {
    var buffer := if Strip(WidgetText(s.buffer)) != "" then s.buffer + " " + text else s.buffer + text;
    var appended := s.(buffer := buffer);
    var copied := if appended.autoCopy then CopyToClipboard(appended, false) else appended;
    copied.(status := TextAdded)
  }

  /** The clipboard once a transcript has made the buffer `buffer`: with
      auto-copy on and text in the widget it holds the stripped text,
      otherwise it keeps what it had. */
  function AutoCopied(s: AppState, buffer: string): string {
    if s.autoCopy && !Blank(buffer) then Strip(buffer) else s.clipboard
  }

  /** The clipboard mirrors the widget: with auto-copy on, a widget that
      holds text has its stripped text on the clipboard. */
  predicate Mirrors(s: AppState) {
    s.autoCopy ==> Blank(s.buffer) || s.clipboard == Strip(s.buffer)
  }

  /** Emptying the text widget. */
  function ClearText(s: AppState): AppState {
    s.(buffer := "", status := Cleared)
  }

  /** Copying leaves the buffer alone and puts the stripped buffer on the
      clipboard exactly when the buffer is not blank; the clipboard is
      never overwritten with an empty string. */
  lemma CopyToClipboardEffect(s: AppState, showMessage: bool)
    ensures CopyToClipboard(s, showMessage).buffer == s.buffer
    ensures !Blank(s.buffer) ==> CopyToClipboard(s, showMessage).clipboard == Strip(s.buffer) != ""
    ensures Blank(s.buffer) ==> CopyToClipboard(s, showMessage).clipboard == s.clipboard
    ensures CopyToClipboard(s, showMessage).status
            == if showMessage && !Blank(s.buffer) then Copied else s.status
    ensures CopyToClipboard(s, showMessage).dialogs
            == if showMessage && Blank(s.buffer) then s.dialogs + [NothingToCopy] else s.dialogs
  {
    StripAppendBlank(s.buffer, "\n");
    StripEmptyIffBlank(s.buffer);
  }

  /** Appending joins by the rule above; with auto-copy on and a non-blank
      result the clipboard then holds exactly the stripped buffer, with it
      off the clipboard is untouched, and it never becomes empty. */
  lemma AppendTextEffect(s: AppState, text: string)
    ensures AppendText(s, text).buffer == Joined(s.buffer, text)
    ensures s.autoCopy && !Blank(Joined(s.buffer, text)) ==>
      AppendText(s, text).clipboard == Strip(Joined(s.buffer, text)) != ""
    ensures !s.autoCopy || Blank(Joined(s.buffer, text)) ==> AppendText(s, text).clipboard == s.clipboard
    ensures AppendText(s, text).status == TextAdded
    ensures AppendText(s, text).dialogs == s.dialogs
  {
    StripAppendBlank(s.buffer, "\n");
    StripEmptyIffBlank(s.buffer);
    var appended := s.(buffer := Joined(s.buffer, text));
    CopyToClipboardEffect(appended, false);
  }

  /** After clearing, the widget is blank: a copy warns that there is
      nothing to copy and the clipboard keeps what it had. */
  lemma ClearThenCopy(s: AppState)
    ensures ClearText(s).buffer == ""
    ensures CopyToClipboard(ClearText(s), true).clipboard == s.clipboard
    ensures CopyToClipboard(ClearText(s), true).dialogs == s.dialogs + [NothingToCopy]
  {
    CopyToClipboardEffect(ClearText(s), true);
  }

  // ---------------------------------------------------------------------
  // Joining a run of transcripts

  /** The buffer after appending `texts` one by one. */
  function AppendAll(buffer: string, texts: seq<string>): string
    decreases |texts|
  {
    if texts == [] then buffer else AppendAll(Joined(buffer, texts[0]), texts[1..])
  }

  /** Each text preceded by one space. */
  function SpacePrefixed(texts: seq<string>): string
    decreases |texts|
  {
    if texts == [] then "" else " " + texts[0] + SpacePrefixed(texts[1..])
  }

  /** The texts joined with single spaces. */
  function JoinWithSpaces(texts: seq<string>): string {
    if texts == [] then "" else texts[0] + SpacePrefixed(texts[1..])
  }

  /** Once the buffer holds text, every later transcript is added after one space. */
  lemma {:induction false} AppendAllAfterText(buffer: string, texts: seq<string>)
    requires !Blank(buffer)
    ensures AppendAll(buffer, texts) == buffer + SpacePrefixed(texts)
    decreases |texts|
  {
    if texts != [] {
      var next := buffer + " " + texts[0];
      NonBlankAppend(buffer, " " + texts[0]);
      assert next == buffer + (" " + texts[0]);
      AppendAllAfterText(next, texts[1..]);
    }
  }

  /** Regrouping a concatenation; stated apart so that the proof below
      need not rediscover it among the whitespace facts in its context. */
  lemma ConcatAssoc(a: string, b: string, c: string)
    ensures (a + b) + c == a + (b + c)
  {
  }

  /** The texts concatenated with nothing between them. */
  function Concat(texts: seq<string>): string
    decreases |texts|
  {
    if texts == [] then "" else texts[0] + Concat(texts[1..])
  }

  /** How many transcripts at the front are blank. */
  function LeadingBlanks(texts: seq<string>): (k: nat)
    ensures k <= |texts|
    ensures k < |texts| ==> !Blank(texts[k])
    ensures forall j :: 0 <= j < k ==> Blank(texts[j])
    decreases |texts|
  {
    if texts != [] && Blank(texts[0]) then 1 + LeadingBlanks(texts[1..]) else 0
  }

  /** Starting from a blank buffer: the blank transcripts at the front are
      added with no separator (the widget still strips to nothing), and from
      the first non-blank one on the transcripts are joined with single
      spaces, in capture order. */
  lemma {:induction false} AppendAllFromBlank(buffer: string, texts: seq<string>)
    requires Blank(buffer)
    ensures AppendAll(buffer, texts)
            == buffer + Concat(texts[..LeadingBlanks(texts)]) + JoinWithSpaces(texts[LeadingBlanks(texts)..])
    decreases |texts|
  {
    var k := LeadingBlanks(texts);
    if texts == [] {
      assert texts[..k] == [] && texts[k..] == [];
      assert buffer + "" + "" == buffer;
    } else if Blank(texts[0]) {
      var first := buffer + texts[0];
      assert Joined(buffer, texts[0]) == first;
      assert AppendAll(buffer, texts) == AppendAll(first, texts[1..]);
      BlankConcat(buffer, texts[0]);
      AppendAllFromBlank(first, texts[1..]);
      var blanks := LeadingBlankSplit(texts);
      ConcatAssoc(buffer, texts[0], blanks);
    } else {
      assert k == 0 && texts[..k] == [] && texts[k..] == texts;
      assert buffer + Concat([]) == buffer;
      AppendAllFromText(buffer, texts);
    }
  }

  /** Peeling a blank first transcript off the blank run at the front. */
  lemma LeadingBlankSplit(texts: seq<string>) returns (blanks: string)
    requires texts != [] && Blank(texts[0])
    ensures blanks == Concat(texts[1..][..LeadingBlanks(texts[1..])])
    ensures Concat(texts[..LeadingBlanks(texts)]) == texts[0] + blanks
    ensures texts[LeadingBlanks(texts)..] == texts[1..][LeadingBlanks(texts[1..])..]
  {
    var tail := texts[1..];
    var k' := LeadingBlanks(tail);
    var k := k' + 1;
    assert LeadingBlanks(texts) == k;
    assert texts[..k][1..] == tail[..k'];
    blanks := Concat(tail[..k']);
  }

  /** From a blank buffer and a non-blank first transcript, the buffer ends
      as the old (blank) text followed by the transcripts joined with single
      spaces. */
  lemma AppendAllFromText(buffer: string, texts: seq<string>)
    requires Blank(buffer) && texts != [] && !Blank(texts[0])
    ensures AppendAll(buffer, texts) == buffer + JoinWithSpaces(texts)
  {
    var first := buffer + texts[0];
    var rest := SpacePrefixed(texts[1..]);
    assert Joined(buffer, texts[0]) == first;
    assert AppendAll(buffer, texts) == AppendAll(first, texts[1..]);
    NonBlankPrepend(buffer, texts[0]);
    AppendAllAfterText(first, texts[1..]);
    assert JoinWithSpaces(texts) == texts[0] + rest;
    ConcatAssoc(buffer, texts[0], rest);
  }

  // ---------------------------------------------------------------------
  // Classification and format checks

  /** The clip can be written as mono PCM WAV: 1, 2 or 4 bytes per sample
      and a rate in (0, 192000] Hz. */
  predicate ValidFormat(sampleWidth: int, sampleRate: int) {
    (sampleWidth == 1 || sampleWidth == 2 || sampleWidth == 4) && 0 < sampleRate <= 192000
  }

  /** The message-text test for a missing decoder: the lower-cased message
      mentions both "file" and "not found". */
  predicate MentionsMissingFile(message: string) {
    var lowered := Lower(message);
    Contains(lowered, "file") && Contains(lowered, "not found")
  }

  /** The status an engine failure is reported with. */
  function FailureStatus(e: EngineResult): (st: Status)
    requires !e.Text?
    ensures st == MissingFfmpeg || st == TranscriptionFailed
  {
    match e
    case FileNotFound => MissingFfmpeg
    case Failed(message) => if MentionsMissingFile(message) then MissingFfmpeg else TranscriptionFailed
  }

  /** A failure points at the missing decoder exactly when it is a
      FileNotFoundError or its lower-cased message contains both
      "file" and "not found" somewhere. */
  lemma FailureClassification(e: EngineResult)
    requires !e.Text?
    ensures FailureStatus(e) == MissingFfmpeg <==>
      e.FileNotFound? || (Occurs(Lower(e.message), "file") && Occurs(Lower(e.message), "not found"))
  {
    if e.Failed? {
      ContainsIffOccurs(Lower(e.message), "file");
      ContainsIffOccurs(Lower(e.message), "not found");
    }
  }

  // ---------------------------------------------------------------------
  // One iteration of the listening loop

  /** Whether the loop goes round again or breaks out. */
  datatype Flow = Continue | Break

  datatype StepResult = StepResult(state: AppState, flow: Flow)

  /** Staging the WAV bytes: the new file's name when it is saved. A file
      that was created but could not be written is deleted again. */
  function SaveTemp(s: AppState, t: TempWrite): (AppState, Option<nat>) {
    match t
    case TempCreateFailed => (s, None)
    case TempWriteFailed => (s.(nextTemp := s.nextTemp + 1), None)
    case TempSaved(_) =>
      (s.(liveTemps := s.liveTemps + {s.nextTemp}, nextTemp := s.nextTemp + 1), Some(s.nextTemp))
  }

  /** Staging the WAV bytes as the application is written: a file that was
      created but could not be written stays on disk. */
  function SaveTempAsWritten(s: AppState, t: TempWrite): (AppState, Option<nat>) {
    match t
    case TempCreateFailed => (s, None)
    case TempWriteFailed =>
      (s.(liveTemps := s.liveTemps + {s.nextTemp}, nextTemp := s.nextTemp + 1), None)
    case TempSaved(_) =>
      (s.(liveTemps := s.liveTemps + {s.nextTemp}, nextTemp := s.nextTemp + 1), Some(s.nextTemp))
  }

  /** Transcribing staged file `name`: skipped if the file has vanished,
      otherwise one engine request whose text is appended or whose failure
      is reported; the file is deleted afterwards on every path. */
  function Transcribe(s: AppState, name: nat, stillExists: bool, e: EngineResult): AppState {
    var done :=
      if !stillExists then s.(liveTemps := s.liveTemps - {name})
      else Reported(s.(engineCalls := s.engineCalls + [Language.WhisperLanguageCode(s.language)]), e);
    // the cleanup step removes the file if it is still there
    done.(liveTemps := done.liveTemps - {name})
  }

  /** Handing the engine's answer to the text widget or the status line. */
  function Reported(s: AppState, e: EngineResult): AppState {
    match e
    case Text(text) => AppendText(s, text)
    case _ => s.(status := FailureStatus(e))
  }

  /** A transcript is appended and auto-copied; a failure only sets the
      status it is classified under. */
  lemma ReportedEffect(s: AppState, e: EngineResult)
    ensures Reported(s, e).buffer == if e.Text? then Joined(s.buffer, e.text) else s.buffer
    ensures Reported(s, e).clipboard == s.clipboard || Reported(s, e).clipboard != ""
    ensures e.Text? ==> Reported(s, e).clipboard == AutoCopied(s, Joined(s.buffer, e.text))
    ensures !e.Text? ==> Reported(s, e) == s.(status := FailureStatus(e))
    ensures Reported(s, e).dialogs == s.dialogs
    ensures Reported(s, e).engineCalls == s.engineCalls
    ensures Reported(s, e).liveTemps == s.liveTemps
    ensures Reported(s, e).nextTemp == s.nextTemp
    ensures Reported(s, e).isRecording == s.isRecording
    ensures Reported(s, e).autoCopy == s.autoCopy
    ensures Reported(s, e).language == s.language
    ensures !e.Text? ==> Reported(s, e).status == FailureStatus(e)
  {
    if e.Text? {
      AppendTextKeeps(s, e.text);
      AppendTextEffect(s, e.text);
    }
  }

  /** A captured clip: format check, WAV encoding, staging, transcription. */
  function ProcessClip(s: AppState, o: Outcome): StepResult
    requires o.Clip?
  {
    if !ValidFormat(o.sampleWidth, o.sampleRate) then StepResult(s, Continue)
    else
      match o.wav
      case WavStructError => StepResult(s, Continue)
      case WavOtherError => StepResult(s.(dialogs := s.dialogs + [ListenError]), Break)
      case WavOk => StepResult(StageAndTranscribe(s, o.temp, o.engine), Continue)
  }

  /** Staging the encoded clip and, if a file was saved, transcribing it. */
  function StageAndTranscribe(s: AppState, t: TempWrite, e: EngineResult): AppState {
    var (staged, file) := SaveTemp(s, t);
    match file
    case None => staged
    case Some(name) => Transcribe(staged, name, t.stillExists, e)
  }

  /** One pass through the loop body for one listen outcome. */
  function Step(s: AppState, o: Outcome): StepResult {
    var listening := s.(status := Listening);
    match o
    case Timeout => StepResult(listening, Continue)
    case UnknownValue => StepResult(listening.(status := NotRecognized), Continue)
    case RequestError => StepResult(listening.(status := ServiceError), Continue)
    case OSError => StepResult(listening.(dialogs := listening.dialogs + [DeviceError]), Break)
    case OtherError => StepResult(listening.(dialogs := listening.dialogs + [ListenError]), Break)
    case Clip(_, _, _, _, _) => ProcessClip(listening.(status := Recognizing), o)
  }

  /** The outcome ends the session: a device error, an unclassified listen
      error, or an unexpected exception while encoding a valid clip. */
  predicate Fatal(o: Outcome) {
    o.OSError? || o.OtherError? || (o.Clip? && ValidFormat(o.sampleWidth, o.sampleRate) && o.wav.WavOtherError?)
  }

  /** The outcome leads to a transcription request. */
  predicate ReachesEngine(o: Outcome) {
    o.Clip? && ValidFormat(o.sampleWidth, o.sampleRate) && o.wav.WavOk?
    && o.temp.TempSaved? && o.temp.stillExists
  }

  /** The transcript the outcome contributes, if any. */
  function Delivered(o: Outcome): seq<string> {
    if ReachesEngine(o) && o.engine.Text? then [o.engine.text] else []
  }

  /** Appending text touches only the buffer, the clipboard, the status
      and the dialogs. */
  lemma AppendTextKeeps(s: AppState, text: string)
    ensures AppendText(s, text).isRecording == s.isRecording
    ensures AppendText(s, text).engineCalls == s.engineCalls
    ensures AppendText(s, text).liveTemps == s.liveTemps
    ensures AppendText(s, text).nextTemp == s.nextTemp
    ensures AppendText(s, text).autoCopy == s.autoCopy
    ensures AppendText(s, text).language == s.language
  {
  }

  /** What transcribing a staged file changes. */
  lemma TranscribeEffect(s: AppState, name: nat, stillExists: bool, e: EngineResult)
    ensures Transcribe(s, name, stillExists, e).engineCalls
            == s.engineCalls + if stillExists then [Language.WhisperLanguageCode(s.language)] else []
    ensures Transcribe(s, name, stillExists, e).buffer
            == if stillExists && e.Text? then Joined(s.buffer, e.text) else s.buffer
    ensures Transcribe(s, name, stillExists, e).clipboard == s.clipboard
            || Transcribe(s, name, stillExists, e).clipboard != ""
    ensures Transcribe(s, name, stillExists, e).clipboard
            == if stillExists && e.Text? then AutoCopied(s, Joined(s.buffer, e.text)) else s.clipboard
    ensures Transcribe(s, name, stillExists, e).liveTemps == s.liveTemps - {name}
    ensures Transcribe(s, name, stillExists, e).nextTemp == s.nextTemp
    ensures Transcribe(s, name, stillExists, e).isRecording == s.isRecording
    ensures Transcribe(s, name, stillExists, e).autoCopy == s.autoCopy
    ensures Transcribe(s, name, stillExists, e).language == s.language
    ensures stillExists && !e.Text? ==> Transcribe(s, name, stillExists, e).status == FailureStatus(e)
  {
    var called := s.(engineCalls := s.engineCalls + [Language.WhisperLanguageCode(s.language)]);
    if stillExists {
      ReportedEffect(called, e);
    }
  }

  /** What staging and transcribing a valid clip changes. */
  lemma StageAndTranscribeEffect(s: AppState, t: TempWrite, e: EngineResult)
    ensures StageAndTranscribe(s, t, e).engineCalls
            == s.engineCalls + if t.TempSaved? && t.stillExists then [Language.WhisperLanguageCode(s.language)] else []
    ensures StageAndTranscribe(s, t, e).buffer
            == if t.TempSaved? && t.stillExists && e.Text? then Joined(s.buffer, e.text) else s.buffer
    ensures StageAndTranscribe(s, t, e).clipboard == s.clipboard
            || StageAndTranscribe(s, t, e).clipboard != ""
    ensures StageAndTranscribe(s, t, e).clipboard
            == if t.TempSaved? && t.stillExists && e.Text? then AutoCopied(s, Joined(s.buffer, e.text)) else s.clipboard
    ensures WellFormed(s) ==> StageAndTranscribe(s, t, e).liveTemps == s.liveTemps
    ensures StageAndTranscribe(s, t, e).nextTemp == s.nextTemp + if t.TempCreateFailed? then 0 else 1
    ensures StageAndTranscribe(s, t, e).isRecording == s.isRecording
    ensures StageAndTranscribe(s, t, e).autoCopy == s.autoCopy
    ensures StageAndTranscribe(s, t, e).language == s.language
  {
    if t.TempSaved? {
      var staged := SaveTemp(s, t).0;
      if WellFormed(s) {
        assert s.nextTemp !in s.liveTemps;
        assert staged.liveTemps - {s.nextTemp} == s.liveTemps;
      }
      TranscribeEffect(staged, s.nextTemp, t.stillExists, e);
    }
  }

  /** The loop body never changes the recording flag or the settings. */
  lemma StepKeepsSettings(s: AppState, o: Outcome)
    ensures Step(s, o).state.isRecording == s.isRecording
    ensures Step(s, o).state.autoCopy == s.autoCopy
    ensures Step(s, o).state.language == s.language
  {
    if o.Clip? {
      var st := s.(status := Recognizing);
      assert Step(s, o) == ProcessClip(st, o);
      ProcessClipKeepsSettings(st, o);
    }
  }

  lemma ProcessClipKeepsSettings(s: AppState, o: Outcome)
    requires o.Clip?
    ensures ProcessClip(s, o).state.isRecording == s.isRecording
    ensures ProcessClip(s, o).state.autoCopy == s.autoCopy
    ensures ProcessClip(s, o).state.language == s.language
  {
    if ValidFormat(o.sampleWidth, o.sampleRate) && o.wav.WavOk? {
      assert ProcessClip(s, o).state == StageAndTranscribe(s, o.temp, o.engine);
      StageAndTranscribeEffect(s, o.temp, o.engine);
    }
  }

  /** What one iteration changes, field by field. */
  lemma StepEffect(s: AppState, o: Outcome)
    requires WellFormed(s)
    ensures Step(s, o).state.engineCalls
            == s.engineCalls + if ReachesEngine(o) then [Language.WhisperLanguageCode(s.language)] else []
    ensures Step(s, o).state.buffer == AppendAll(s.buffer, Delivered(o))
    ensures Step(s, o).state.clipboard == s.clipboard || Step(s, o).state.clipboard != ""
    ensures Step(s, o).state.clipboard
            == if Delivered(o) != [] then AutoCopied(s, Step(s, o).state.buffer) else s.clipboard
    ensures Step(s, o).state.liveTemps == s.liveTemps && WellFormed(Step(s, o).state)
    ensures Step(s, o).state.isRecording == s.isRecording
    ensures Step(s, o).state.autoCopy == s.autoCopy
    ensures Step(s, o).state.language == s.language
    ensures Step(s, o).flow == Break <==> Fatal(o)
  {
    AppendAtMostOne(s.buffer, Delivered(o));
    if o.Clip? {
      var st := s.(status := Recognizing);
      assert Step(s, o) == ProcessClip(st, o);
      ProcessClipEffect(st, o);
      ProcessClipKeepsSettings(st, o);
    }
  }

  /** Appending no text leaves the buffer alone; appending one joins it. */
  lemma AppendAtMostOne(buffer: string, texts: seq<string>)
    requires |texts| <= 1
    ensures AppendAll(buffer, texts) == if texts == [] then buffer else Joined(buffer, texts[0])
  {
    if texts != [] {
      assert texts[1..] == [];
    }
  }

  /** What handling a captured clip changes, field by field. */
  lemma ProcessClipEffect(s: AppState, o: Outcome)
    requires o.Clip? && WellFormed(s)
    ensures ProcessClip(s, o).state.engineCalls
            == s.engineCalls + if ReachesEngine(o) then [Language.WhisperLanguageCode(s.language)] else []
    ensures ProcessClip(s, o).state.buffer
            == if ReachesEngine(o) && o.engine.Text? then Joined(s.buffer, o.engine.text) else s.buffer
    ensures ProcessClip(s, o).state.clipboard == s.clipboard || ProcessClip(s, o).state.clipboard != ""
    ensures ProcessClip(s, o).state.clipboard
            == if Delivered(o) != [] then AutoCopied(s, Joined(s.buffer, o.engine.text)) else s.clipboard
    ensures ProcessClip(s, o).state.liveTemps == s.liveTemps
    ensures ProcessClip(s, o).state.nextTemp >= s.nextTemp
    ensures ProcessClip(s, o).flow == Break <==> Fatal(o)
  {
    if ValidFormat(o.sampleWidth, o.sampleRate) && o.wav.WavOk? {
      assert ProcessClip(s, o).state == StageAndTranscribe(s, o.temp, o.engine);
      StageAndTranscribeEffect(s, o.temp, o.engine);
    }
  }

  /** A clip in an unsupported format is dropped after the status update:
      no engine request, no file, no change to buffer or clipboard. */
  lemma InvalidClipSkipped(s: AppState, o: Outcome)
    requires o.Clip? && !ValidFormat(o.sampleWidth, o.sampleRate)
    ensures Step(s, o) == StepResult(s.(status := Recognizing), Continue)
  {
  }

  /** The engine is asked only for a clip whose format is valid. */
  lemma EngineNeedsValidFormat(s: AppState, o: Outcome)
    requires WellFormed(s)
    requires |Step(s, o).state.engineCalls| > |s.engineCalls|
    ensures o.Clip? && ValidFormat(o.sampleWidth, o.sampleRate)
  {
    StepEffect(s, o);
  }

  /** A failed transcription is reported as a missing decoder exactly when
      it is classified so, and as a generic failure otherwise. */
  lemma StepReportsFailure(s: AppState, o: Outcome)
    requires ReachesEngine(o) && !o.engine.Text?
    ensures Step(s, o).state.status == if FailureStatus(o.engine) == MissingFfmpeg then MissingFfmpeg else TranscriptionFailed
    ensures Step(s, o).state.status == MissingFfmpeg <==>
      o.engine.FileNotFound? || (Occurs(Lower(o.engine.message), "file") && Occurs(Lower(o.engine.message), "not found"))
  {
    FailureClassification(o.engine);
  }

  /** As written, a temporary file that was created but could not be
      written is left on disk when the iteration moves on. */
  lemma SaveTempAsWrittenLeaks(s: AppState)
    requires WellFormed(s)
    ensures SaveTempAsWritten(s, TempWriteFailed).1 == None
    ensures SaveTempAsWritten(s, TempWriteFailed).0.liveTemps == s.liveTemps + {s.nextTemp}
    ensures SaveTempAsWritten(s, TempWriteFailed).0.liveTemps != s.liveTemps
  {
    assert s.nextTemp !in s.liveTemps;
  }

  // ---------------------------------------------------------------------
  // The loop and the session

  /** How the recording loop ended: the recording flag was cleared (the
      user stopped), a fatal outcome broke it, or calibration failed
      before it started. */
  datatype Exit = Stopped | Aborted | CalibrationFailed

  /** The listening loop over the outcomes the microphone delivers; the
      user stops recording once they are all consumed. */
  function Run(s: AppState, outcomes: seq<Outcome>): (AppState, Exit)
    decreases |outcomes|
  {
    if !s.isRecording || outcomes == [] then (s, Stopped)
    else
      var step := Step(s, outcomes[0]);
      if step.flow == Break then (step.state, Aborted) else Run(step.state, outcomes[1..])
  }

  /** The transcripts of the outcomes the loop consumes, in capture order. */
  function Transcripts(outcomes: seq<Outcome>): seq<string>
    decreases |outcomes|
  {
    if outcomes == [] || Fatal(outcomes[0]) then [] else Delivered(outcomes[0]) + Transcripts(outcomes[1..])
  }

  /** The number of engine requests among the outcomes the loop consumes. */
  function EngineCount(outcomes: seq<Outcome>): nat
    decreases |outcomes|
  {
    if outcomes == [] || Fatal(outcomes[0]) then 0
    else (if ReachesEngine(outcomes[0]) then 1 else 0) + EngineCount(outcomes[1..])
  }

  /** `n` copies of `x`. */
  function Repeat(x: string, n: nat): (r: seq<string>)
    ensures |r| == n && forall k :: 0 <= k < n ==> r[k] == x
  {
    if n == 0 then [] else [x] + Repeat(x, n - 1)
  }

  /** Only a fatal outcome ends the loop early: it is aborted exactly when
      some outcome is fatal, and otherwise runs until the user stops. */
  lemma {:induction false} RunAbortsIffFatal(s: AppState, outcomes: seq<Outcome>)
    requires s.isRecording && WellFormed(s)
    ensures Run(s, outcomes).1 != CalibrationFailed
    ensures Run(s, outcomes).1 == Aborted <==> exists k :: 0 <= k < |outcomes| && Fatal(outcomes[k])
    decreases |outcomes|
  {
    if outcomes != [] {
      var step := Step(s, outcomes[0]);
      StepEffect(s, outcomes[0]);
      if step.flow != Break {
        RunAbortsIffFatal(step.state, outcomes[1..]);
        if exists k :: 0 <= k < |outcomes[1..]| && Fatal(outcomes[1..][k]) {
          var k :| 0 <= k < |outcomes[1..]| && Fatal(outcomes[1..][k]);
          assert Fatal(outcomes[k + 1]);
        }
        if exists k :: 0 <= k < |outcomes| && Fatal(outcomes[k]) {
          var k :| 0 <= k < |outcomes| && Fatal(outcomes[k]);
          assert k > 0 && Fatal(outcomes[1..][k - 1]);
        }
      }
    }
  }

  /** The loop appends the transcripts in capture order and never
      overwrites the clipboard with an empty string; without a transcript
      the clipboard is left alone. */
  lemma {:induction false} RunText(s: AppState, outcomes: seq<Outcome>)
    requires s.isRecording && WellFormed(s)
    ensures Run(s, outcomes).0.buffer == AppendAll(s.buffer, Transcripts(outcomes))
    ensures Run(s, outcomes).0.clipboard == s.clipboard || Run(s, outcomes).0.clipboard != ""
    ensures Transcripts(outcomes) == [] ==> Run(s, outcomes).0.clipboard == s.clipboard
    decreases |outcomes|
  {
    if outcomes != [] {
      var o := outcomes[0];
      var step := Step(s, o);
      StepEffect(s, o);
      if step.flow != Break {
        RunText(step.state, outcomes[1..]);
        AppendAllConcat(s.buffer, Delivered(o), Transcripts(outcomes[1..]));
      }
    }
  }

  /** With auto-copy on, the clipboard holds the stripped widget text
      after the loop, provided it did before or the loop delivered a
      transcript. */
  lemma {:induction false} RunMirrors(s: AppState, outcomes: seq<Outcome>)
    requires s.isRecording && WellFormed(s)
    requires Mirrors(s) || Transcripts(outcomes) != []
    ensures Mirrors(Run(s, outcomes).0)
    decreases |outcomes|
  {
    if outcomes != [] {
      var o := outcomes[0];
      var step := Step(s, o);
      StepEffect(s, o);
      if Mirrors(s) || Delivered(o) != [] {
        assert Mirrors(step.state);
      }
      if step.flow != Break {
        assert Transcripts(outcomes) == Delivered(o) + Transcripts(outcomes[1..]);
        RunMirrors(step.state, outcomes[1..]);
      }
    }
  }

  lemma {:induction false} AppendAllConcat(buffer: string, xs: seq<string>, ys: seq<string>)
    ensures AppendAll(buffer, xs + ys) == AppendAll(AppendAll(buffer, xs), ys)
    decreases |xs|
  {
    if xs != [] {
      assert (xs + ys)[1..] == xs[1..] + ys;
      AppendAllConcat(Joined(buffer, xs[0]), xs[1..], ys);
    } else {
      assert xs + ys == ys;
    }
  }

  /** Every engine request the loop makes is for a clip it consumed that
      passed the checks, and uses the configured language. */
  lemma {:induction false} RunEngineCalls(s: AppState, outcomes: seq<Outcome>)
    requires s.isRecording && WellFormed(s)
    ensures Run(s, outcomes).0.engineCalls
            == s.engineCalls + Repeat(Language.WhisperLanguageCode(s.language), EngineCount(outcomes))
    decreases |outcomes|
  {
    if outcomes != [] {
      var o := outcomes[0];
      var step := Step(s, o);
      var code := Language.WhisperLanguageCode(s.language);
      StepEffect(s, o);
      if step.flow != Break {
        RunEngineCalls(step.state, outcomes[1..]);
        var n := EngineCount(outcomes[1..]);
        if ReachesEngine(o) {
          assert Repeat(code, n + 1) == [code] + Repeat(code, n);
          assert s.engineCalls + [code] + Repeat(code, n) == s.engineCalls + ([code] + Repeat(code, n));
        }
      }
    }
  }

  /** No temporary file outlives the loop. */
  lemma {:induction false} RunCleansUp(s: AppState, outcomes: seq<Outcome>)
    requires WellFormed(s)
    ensures Run(s, outcomes).0.liveTemps == s.liveTemps
    ensures WellFormed(Run(s, outcomes).0)
    decreases |outcomes|
  {
    if s.isRecording && outcomes != [] {
      var step := Step(s, outcomes[0]);
      StepEffect(s, outcomes[0]);
      if step.flow != Break {
        RunCleansUp(step.state, outcomes[1..]);
      }
    }
  }

  /** Clearing the recording flag and showing the ready status. */
  function StopRecording(s: AppState): AppState {
    s.(isRecording := false, status := Ready)
  }

  /** Starting to record, if the selected microphone can be opened. */
  function StartRecording(s: AppState, microphoneOk: bool): AppState {
    if microphoneOk then s.(isRecording := true, status := Recording)
    else s.(dialogs := s.dialogs + [MicrophoneInitError])
  }

  /** The record button. */
  function ToggleRecording(s: AppState, microphoneOk: bool): AppState {
    if s.isRecording then StopRecording(s) else StartRecording(s, microphoneOk)
  }

  /** The record button flips recording on and off; a microphone that
      cannot be opened leaves recording off and reports the error. */
  lemma ToggleFlips(s: AppState, microphoneOk: bool)
    ensures ToggleRecording(s, microphoneOk).isRecording == (!s.isRecording && microphoneOk)
    ensures ToggleRecording(s, microphoneOk).status
            == if s.isRecording then Ready else if microphoneOk then Recording else s.status
    ensures !s.isRecording && !microphoneOk ==>
      ToggleRecording(s, microphoneOk).dialogs == s.dialogs + [MicrophoneInitError]
    ensures ToggleRecording(s, microphoneOk).buffer == s.buffer
  {
  }

  /** The recording worker: calibrate, run the loop, and end by stopping. */
  function RecordSession(s: AppState, calibrated: bool, outcomes: seq<Outcome>): (AppState, Exit) {
    var calibrating := s.(status := Calibrating);
    if !calibrated then
      (StopRecording(calibrating.(dialogs := calibrating.dialogs + [CalibrationError])), CalibrationFailed)
    else
      var (after, exit) := Run(calibrating, outcomes);
      (StopRecording(after), exit)
  }

  /** Every way the session ends leaves recording off and the status ready. */
  lemma SessionEndsStopped(s: AppState, calibrated: bool, outcomes: seq<Outcome>)
    ensures !RecordSession(s, calibrated, outcomes).0.isRecording
    ensures RecordSession(s, calibrated, outcomes).0.status == Ready
  {
  }

  /** A failed calibration reports the error and stops before any audio is
      captured: no engine request, no file, text and clipboard untouched. */
  lemma CalibrationFailureStops(s: AppState, outcomes: seq<Outcome>)
    ensures RecordSession(s, false, outcomes).1 == CalibrationFailed
    ensures RecordSession(s, false, outcomes).0.dialogs == s.dialogs + [CalibrationError]
    ensures RecordSession(s, false, outcomes).0.engineCalls == s.engineCalls
    ensures RecordSession(s, false, outcomes).0.buffer == s.buffer
    ensures RecordSession(s, false, outcomes).0.clipboard == s.clipboard
    ensures RecordSession(s, false, outcomes).0.liveTemps == s.liveTemps
  {
  }

  /** A calibrated session started by the record button: the transcripts
      of the consumed outcomes are appended in capture order, the engine is
      asked once per clip that passed the checks, no temporary file is left,
      and the session is aborted exactly when some outcome was fatal. */
  /** The auto-copy mirror holds at the end of a calibrated session that
      delivered a transcript, or that started with it. */
  lemma SessionMirrors(s: AppState, outcomes: seq<Outcome>)
    requires s.isRecording && WellFormed(s)
    requires Mirrors(s) || Transcripts(outcomes) != []
    ensures Mirrors(RecordSession(s, true, outcomes).0)
  {
    RunMirrors(s.(status := Calibrating), outcomes);
  }

  lemma SessionSummary(s: AppState, outcomes: seq<Outcome>)
    requires s.isRecording && WellFormed(s)
    ensures RecordSession(s, true, outcomes).0.buffer == AppendAll(s.buffer, Transcripts(outcomes))
    ensures RecordSession(s, true, outcomes).0.engineCalls
            == s.engineCalls + Repeat(Language.WhisperLanguageCode(s.language), EngineCount(outcomes))
    ensures RecordSession(s, true, outcomes).0.liveTemps == s.liveTemps
    ensures RecordSession(s, true, outcomes).1 == Aborted <==>
      exists k :: 0 <= k < |outcomes| && Fatal(outcomes[k])
    ensures RecordSession(s, true, outcomes).1 == Stopped <==>
      forall k :: 0 <= k < |outcomes| ==> !Fatal(outcomes[k])
  {
    var calibrating := s.(status := Calibrating);
    RunText(calibrating, outcomes);
    RunEngineCalls(calibrating, outcomes);
    RunCleansUp(calibrating, outcomes);
    RunAbortsIffFatal(calibrating, outcomes);
  }
}
