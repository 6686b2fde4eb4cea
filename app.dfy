/** The application object: its mutable fields and the methods that update
    them step by step. Each method is proved against the function in
    Capture that states its effect on the loop-visible state. */
module App {
  import opened Strings
  import opened Capture
  import Language
  import opened Devices

  class VoiceTranscriberApp {
    var isRecording: bool
    /** The text widget's content, without the widget's final newline. */
    var buffer: string
    var clipboard: string
    var status: Status
    var dialogs: seq<Dialog>
    /** The language code of every transcription request so far. */
    var engineCalls: seq<string>
    /** Temporary files on disk, and the counter that names new ones. */
    var liveTemps: set<nat>
    var nextTemp: nat
    var autoCopy: bool
    var language: string
    var inputDevices: seq<InputDevice>
    /** The device selector's current text. */
    var deviceChoice: string
    /** The microphone to open; None means the system default. */
    var selectedDeviceId: Option<int>

    /** The fields the recording loop works on, as one value. */
    function State(): AppState
      reads this
    {
      AppState(isRecording, buffer, clipboard, status, dialogs, engineCalls,
               liveTemps, nextTemp, autoCopy, language)
    }

    /** Every temporary file on disk was named by an earlier clip. */
    ghost predicate Valid()
      reads this
    {
      WellFormed(State())
    }

    /** A fresh window over the given enumeration result: not recording, empty
        text, the first selector entry shown but no device selected yet. */
    constructor (enumeration: Enumeration, systemClipboard: string)
      ensures State() == AppState(false, "", systemClipboard, Ready, [], [], {}, 0, true, "ru-RU")
      ensures inputDevices == if Completed(enumeration) then InputList(enumeration.lookups) else []
      ensures deviceChoice == SelectorValues(inputDevices)[0]
      ensures selectedDeviceId == None
      ensures Valid()
    {
      var devices := GetInputDevices(enumeration);
      isRecording := false;
      buffer := "";
      clipboard := systemClipboard;
      status := Ready;
      dialogs := [];
      engineCalls := [];
      liveTemps := {};
      nextTemp := 0;
      autoCopy := true;
      language := "ru-RU";
      inputDevices := devices;
      deviceChoice := SelectorValues(devices)[0];
      selectedDeviceId := None;
    }

    /** The record button: stop if recording, otherwise try to start. */
    method ToggleRecording(microphoneOk: bool)
      modifies this`isRecording, this`status, this`dialogs
      ensures State() == Capture.ToggleRecording(old(State()), microphoneOk)
    {
      if isRecording {
        StopRecording();
      } else {
        StartRecording(microphoneOk);
      }
    }

    /** Start recording when the selected microphone can be opened; report
        the error otherwise. */
    method StartRecording(microphoneOk: bool)
      modifies this`isRecording, this`status, this`dialogs
      ensures State() == Capture.StartRecording(old(State()), microphoneOk)
    {
      if !microphoneOk {
        dialogs := dialogs + [MicrophoneInitError];
        return;
      }
      isRecording := true;
      status := Recording;
    }

    method StopRecording()
      modifies this`isRecording, this`status
      ensures State() == Capture.StopRecording(old(State()))
      ensures !isRecording && status == Ready
    {
      isRecording := false;
      status := Ready;
    }

    /** Strip the widget text and put it on the clipboard if non-empty. */
    method CopyToClipboard(showMessage: bool)
      modifies this`clipboard, this`status, this`dialogs
      ensures State() == Capture.CopyToClipboard(old(State()), showMessage)
    {
      var text := Strip(WidgetText(buffer));
      if text != "" {
        clipboard := text;
        if showMessage {
          status := Copied;
        }
      } else if showMessage {
        dialogs := dialogs + [NothingToCopy];
      }
    }

    /** Append a transcript, space-separated unless the widget is blank. */
    method AppendText(text: string)
      modifies this`buffer, this`clipboard, this`status, this`dialogs
      ensures State() == Capture.AppendText(old(State()), text)
    {
      var current := Strip(WidgetText(buffer));
      if current != "" {
        buffer := buffer + " " + text;
      } else {
        buffer := buffer + text;
      }
      if autoCopy {
        CopyToClipboard(false);
      }
      status := TextAdded;
    }

    method ClearText()
      modifies this`buffer, this`status
      ensures State() == Capture.ClearText(old(State()))
      ensures buffer == ""
    {
      buffer := "";
      status := Cleared;
    }

    /** The auto-copy checkbutton. */
    method SetAutoCopy(on: bool)
      modifies this`autoCopy
      ensures State() == old(State()).(autoCopy := on)
    {
      autoCopy := on;
    }

    /** The user picks entry `k` of the read-only language selector; the
        engine is then asked for that tag's language. */
    method ChooseLanguage(k: nat)
      requires k < |Language.LocaleTags|
      modifies this`language
      ensures State() == old(State()).(language := Language.LocaleTags[k])
      ensures Language.WhisperLanguageCode(language) == Language.LocaleTags[k][..2]
    {
      language := Language.LocaleTags[k];
    }

    /** The selector's change handler: read the device index off the entry. */
    method OnDeviceSelected()
      modifies this`selectedDeviceId
      ensures selectedDeviceId == SelectedDevice(inputDevices, deviceChoice)
    {
      if inputDevices != [] && deviceChoice != NoDevices {
        var prefix := BeforeColon(deviceChoice);
        selectedDeviceId := ParseInt(prefix);
      } else {
        selectedDeviceId := None;
      }
    }

    /** The user picks entry `k` of the selector: that entry's device
        becomes the one recorded from (none when there are no devices). */
    method ChooseDeviceEntry(k: nat)
      requires k < |SelectorValues(inputDevices)|
      modifies this`deviceChoice, this`selectedDeviceId
      ensures deviceChoice == SelectorValues(inputDevices)[k]
      ensures selectedDeviceId == if inputDevices == [] then None else Some(inputDevices[k].index)
    {
      deviceChoice := SelectorValues(inputDevices)[k];
      OnDeviceSelected();
      SelectorEntrySelects(inputDevices, k);
    }

    /** One pass of the listening loop for one listen outcome. */
    method Iterate(o: Outcome) returns (flow: Flow)
      requires Valid()
      modifies this`buffer, this`clipboard, this`status, this`dialogs,
               this`engineCalls, this`liveTemps, this`nextTemp
      ensures State() == Step(old(State()), o).state
      ensures flow == Step(old(State()), o).flow
      ensures Valid() && liveTemps == old(liveTemps)
    {
      ghost var before := State();
      StepEffect(before, o);
      status := Listening;
      match o {
        case Timeout =>
          flow := Continue;
        case UnknownValue =>
          status := NotRecognized;
          flow := Continue;
        case RequestError =>
          status := ServiceError;
          flow := Continue;
        case OSError =>
          dialogs := dialogs + [DeviceError];
          flow := Break;
        case OtherError =>
          dialogs := dialogs + [ListenError];
          flow := Break;
        case Clip(_, _, _, _, _) =>
          status := Recognizing;
          flow := ProcessClip(o);
      }
    }

    /** A captured clip: check its format, encode it, stage it in a
        temporary file and transcribe that file. */
    method ProcessClip(o: Outcome) returns (flow: Flow)
      requires o.Clip? && Valid()
      modifies this`buffer, this`clipboard, this`status, this`dialogs,
               this`engineCalls, this`liveTemps, this`nextTemp
      ensures StepResult(State(), flow) == Capture.ProcessClip(old(State()), o)
      ensures Valid()
    {
      if !ValidFormat(o.sampleWidth, o.sampleRate) {
        return Continue;
      }
      if o.wav.WavStructError? {
        return Continue;
      }
      if o.wav.WavOtherError? {
        dialogs := dialogs + [ListenError];
        return Break;
      }
      StageAndTranscribe(o.temp, o.engine);
      flow := Continue;
    }

    /** Save the encoded clip to a new temporary file and, if that worked,
        transcribe the file. */
    method StageAndTranscribe(temp: TempWrite, engine: EngineResult)
      requires Valid()
      modifies this`buffer, this`clipboard, this`status, this`dialogs,
               this`engineCalls, this`liveTemps, this`nextTemp
      ensures State() == Capture.StageAndTranscribe(old(State()), temp, engine)
      ensures Valid()
    {
      var file := SaveTemp(temp);
      if file.Some? {
        TranscribeFile(file.value, temp.stillExists, engine);
      }
    }

    /** Create the next temporary file and write the clip into it; a file
        that could not be written is deleted again. */
    method SaveTemp(temp: TempWrite) returns (file: Option<nat>)
      requires Valid()
      modifies this`liveTemps, this`nextTemp
      ensures (State(), file) == Capture.SaveTemp(old(State()), temp)
      ensures Valid()
    {
      file := None;
      match temp {
        case TempCreateFailed =>
        case TempWriteFailed =>
          nextTemp := nextTemp + 1;
        case TempSaved(_) =>
          file := Some(nextTemp);
          liveTemps := liveTemps + {nextTemp};
          nextTemp := nextTemp + 1;
      }
    }

    /** Transcribe staged file `name` unless it has vanished, report the
        result, and delete the file on every path. */
    method TranscribeFile(name: nat, stillExists: bool, engine: EngineResult)
      requires Valid()
      modifies this`buffer, this`clipboard, this`status, this`dialogs,
               this`engineCalls, this`liveTemps
      ensures State() == Transcribe(old(State()), name, stillExists, engine)
      ensures Valid()
    {
      if !stillExists {
        liveTemps := liveTemps - {name};
      } else {
        engineCalls := engineCalls + [Language.WhisperLanguageCode(language)];
        Report(engine);
      }
      // cleanup: remove the file if it is still there
      liveTemps := liveTemps - {name};
    }

    /** Hand the engine's answer to the text widget or the status line. */
    method Report(engine: EngineResult)
      modifies this`buffer, this`clipboard, this`status, this`dialogs
      ensures State() == Reported(old(State()), engine)
    {
      match engine {
        case Text(text) => AppendText(text);
        case _ => status := FailureStatus(engine);
      }
    }

    /** The recording worker: calibrate the microphone, listen until the
        user stops or a fatal error breaks the loop, then stop recording. */
    method RecordAudio(calibrated: bool, outcomes: seq<Outcome>) returns (exit: Exit)
      requires Valid()
      modifies this`isRecording, this`buffer, this`clipboard, this`status, this`dialogs,
               this`engineCalls, this`liveTemps, this`nextTemp
      ensures (State(), exit) == RecordSession(old(State()), calibrated, outcomes)
      ensures !isRecording && status == Ready
      ensures Valid() && liveTemps == old(liveTemps)
    {
      status := Calibrating;
      if !calibrated {
        dialogs := dialogs + [CalibrationError];
        StopRecording();
        return CalibrationFailed;
      }
      ghost var start := State();
      var i := 0;
      exit := Stopped;
      while isRecording && i < |outcomes|
        invariant 0 <= i <= |outcomes|
        invariant isRecording == start.isRecording
        invariant Valid() && liveTemps == start.liveTemps
        invariant Run(State(), outcomes[i..]) == Run(start, outcomes)
        decreases |outcomes| - i
      {
        ghost var before := State();
        var flow := Iterate(outcomes[i]);
        StepEffect(before, outcomes[i]);
        if flow == Break {
          assert Run(before, outcomes[i..]) == (State(), Aborted);
          exit := Aborted;
          break;
        }
        assert outcomes[i..][1..] == outcomes[i + 1..];
        i := i + 1;
      }
      assert Run(start, outcomes) == (State(), exit);
      StopRecording();
    }
  }
}
