/**
  The message composer (`InputBar.jsx`): the text being typed, the speech-recognition and
  audio-capture flags, the emoji picker, the tone-analysis toggle with its once-per-session
  tooltip, and the messages handed to the chat window. Browser APIs (speech recognition,
  the media recorder, session storage) are state fields and event methods here; whether a
  browser call succeeds is a parameter of the event.
 */
module InputBar {
  import opened Wrappers
  import opened Text

  /** Recorded audio data as the recorder delivers it. */
  type Blob = seq<bv8>

  /** What the bar hands to `onSendMessage`: the trimmed text and, from a recording, the audio. */
  datatype Payload = Payload(text: string, audio: Option<seq<Blob>>)

  /** The media recorder behind `mediaRecorderRef`, if one was created. */
  datatype RecorderPhase = Capturing | Stopping | Stopped
  datatype RecorderRef =
    | NoRecorder
    /** `attachAudio` is the tone-analysis flag the recorder's stop handler saw when it was created. */
    | Recorder(phase: RecorderPhase, attachAudio: bool)

  /** Every field of the bar, for stating a whole new state at once. */
  datatype BarState = BarState(
    message: string,
    isRecording: bool,
    isSpeechSupported: bool,
    permissionError: bool,
    showEmojiPicker: bool,
    isToneAnalysisEnabled: bool,
    isAudioRecording: bool,
    showToneTooltip: bool,
    tooltipShown: bool,
    tooltipStored: bool,
    toggleTooltips: nat,
    recorder: RecorderRef,
    audioChunks: seq<Blob>,
    sent: seq<Payload>)

  /** Characters beyond which the counter is shown. */
  const CounterThreshold: nat := 500

  /** The send button is enabled unless (nothing to send and no capture running) or the bar is disabled. */
  function SendEnabled(message: string, isAudioRecording: bool, disabled: bool): (enabled: bool)
    ensures enabled ==> !disabled
    ensures !disabled && isAudioRecording ==> enabled
    ensures !isAudioRecording ==> (enabled <==> !disabled && !IsBlank(message, IsJsSpace))
  {
    !((JsTrim(message) == [] && !isAudioRecording) || disabled)
  }

  /** The length counter, "<length>/1000", appears only for messages longer than 500 characters. */
  function Counter(message: string): (shown: Option<string>)
    ensures shown.Some? <==> |message| > CounterThreshold
    ensures shown.Some? ==> |shown.value| > 5 && shown.value[|shown.value| - 5..] == "/1000"
    ensures shown.Some? ==>
      var digits := shown.value[..|shown.value| - 5];
      (forall i :: 0 <= i < |digits| ==> '0' <= digits[i] <= '9') && DigitsValue(digits) == |message|
  {
    if |message| > 500 then
      var digits := NatToString(|message|);
      NatToStringDenotes(|message|);
      assert (digits + "/1000")[..|digits + "/1000"| - 5] == digits;
      Some(digits + "/1000")
    else None
  }

  /** Appending text (typing, dictation, an emoji) never hides a counter that is shown. */
  lemma CounterStaysWhileAppending(message: string, extra: string)
    requires Counter(message).Some?
    ensures Counter(message + extra).Some?
  {
  }

  class InputBar {
    var message: string
    var isRecording: bool
    var isSpeechSupported: bool
    var permissionError: bool
    var showEmojiPicker: bool
    var isToneAnalysisEnabled: bool
    var isAudioRecording: bool
    var showToneTooltip: bool
    /** `tooltipShownRef`. */
    var tooltipShown: bool
    /** The session-storage key `toneTooltipShown`. */
    var tooltipStored: bool
    /** How many tone toggles have shown the tooltip. */
    var toggleTooltips: nat
    var recorder: RecorderRef
    /** `audioChunksRef`. */
    var audioChunks: seq<Blob>
    /** Every payload passed to `onSendMessage`, oldest first. */
    var sent: seq<Payload>

    function State(): BarState
      reads this
    {
      BarState(message, isRecording, isSpeechSupported, permissionError, showEmojiPicker,
               isToneAnalysisEnabled, isAudioRecording, showToneTooltip, tooltipShown, tooltipStored,
               toggleTooltips, recorder, audioChunks, sent)
    }

    /**
      What stays true between events: recognition never runs where speech is unsupported;
      a capture runs exactly while the recorder is capturing, and every recorder was created
      with tone analysis on; the tooltip latch agrees with session storage; and a toggle has
      shown the tooltip at most once, and only before the latch was set.
     */
    predicate Valid()
      reads this
    {
      && (!isSpeechSupported ==> !isRecording)
      && (isAudioRecording <==> recorder.Recorder? && recorder.phase == Capturing)
      && (recorder.Recorder? ==> recorder.attachAudio)
      && tooltipShown == tooltipStored
      && (toggleTooltips == 0 || (toggleTooltips == 1 && tooltipShown))
    }

    /**
      Mounting: the empty bar, speech support as the browser reports it, and the tooltip latch
      read back from session storage.
     */
    constructor (speechSupported: bool, storedTooltipFlag: bool)
      ensures Valid()
      ensures State() == BarState("", false, speechSupported, false, false, false, false, false,
                                  storedTooltipFlag, storedTooltipFlag, 0, NoRecorder, [], [])
    {
      message := "";
      isRecording := false;
      isSpeechSupported := speechSupported;
      permissionError := false;
      showEmojiPicker := false;
      isToneAnalysisEnabled := false;
      isAudioRecording := false;
      showToneTooltip := false;
      tooltipShown := storedTooltipFlag;
      tooltipStored := storedTooltipFlag;
      toggleTooltips := 0;
      recorder := NoRecorder;
      audioChunks := [];
      sent := [];
    }

    /** Typing in the text area. */
    method OnTextareaChange(value: string)
      requires Valid()
      modifies this
      ensures Valid()
      ensures State() == old(State()).(message := value)
    {
      message := value;
    }

    /** `stopAudioRecording`: stop a running capture; its stop handler fires later. */
    method StopAudioRecording()
      requires Valid()
      modifies this
      ensures Valid()
      ensures old(isAudioRecording) ==>
        State() == old(State()).(isAudioRecording := false, recorder := Recorder(Stopping, old(recorder).attachAudio))
      ensures !old(isAudioRecording) ==> State() == old(State())
    {
      if recorder.Recorder? && isAudioRecording {
        recorder := recorder.(phase := Stopping);
        isAudioRecording := false;
      }
    }

    /**
      `handleSubmit` with the parent's `disabled` flag: nothing unless the trimmed message is
      non-empty and the bar is enabled; during a capture, stop it (its handler sends); otherwise
      send the trimmed text, clear the message and close the picker.
     */
    method HandleSubmit(disabled: bool)
      requires Valid()
      modifies this
      ensures Valid()
      ensures IsBlank(old(message), IsJsSpace) || disabled ==> State() == old(State())
      ensures !IsBlank(old(message), IsJsSpace) && !disabled && old(isAudioRecording) ==>
        State() == old(State()).(isAudioRecording := false, recorder := Recorder(Stopping, old(recorder).attachAudio))
      ensures !IsBlank(old(message), IsJsSpace) && !disabled && !old(isAudioRecording) ==>
        State() == old(State()).(message := "", showEmojiPicker := false,
                                 sent := old(sent) + [Payload(JsTrim(old(message)), None)])
    {
      if JsTrim(message) != [] && !disabled {
        if isAudioRecording {
          StopAudioRecording();
        } else {
          sent := sent + [Payload(JsTrim(message), None)];
          message := "";
          showEmojiPicker := false;
        }
      }
    }

    /** The recorder delivers a chunk of audio (`ondataavailable`). */
    method OnDataAvailable(chunk: Blob)
      requires Valid()
      modifies this
      ensures Valid()
      ensures old(recorder).Recorder? && old(recorder).phase != Stopped ==>
        State() == old(State()).(audioChunks := old(audioChunks) + [chunk])
      ensures !(old(recorder).Recorder? && old(recorder).phase != Stopped) ==> State() == old(State())
    {
      if recorder.Recorder? && recorder.phase != Stopped {
        audioChunks := audioChunks + [chunk];
      }
    }

    /**
      The recorder's stop handler (`onstop`), after a stop was requested: sends the trimmed
      message, whatever it is, with the collected audio when the recorder was created with
      tone analysis on; then clears the message and closes the picker.
     */
    method OnRecorderStop()
      requires Valid()
      modifies this
      ensures Valid()
      ensures var fires := old(recorder).Recorder? && old(recorder).phase == Stopping;
        && sent == (if fires then old(sent) + [Payload(JsTrim(old(message)),
                                                       if old(recorder).attachAudio then Some(old(audioChunks)) else None)]
                    else old(sent))
        && message == (if fires then "" else old(message))
        && showEmojiPicker == (!fires && old(showEmojiPicker))
        && recorder == (if fires then old(recorder).(phase := Stopped) else old(recorder))
      ensures unchanged(`isRecording, `isSpeechSupported, `permissionError, `isToneAnalysisEnabled, `isAudioRecording,
                        `showToneTooltip, `tooltipShown, `tooltipStored, `toggleTooltips, `audioChunks)
    {
      if recorder.Recorder? && recorder.phase == Stopping {
        var audio := if recorder.attachAudio then Some(audioChunks) else None;
        sent := sent + [Payload(JsTrim(message), audio)];
        message := "";
        showEmojiPicker := false;
        recorder := recorder.(phase := Stopped);
      }
    }

    /**
      `startAudioRecording`: with microphone access, a fresh recorder (remembering the current
      tone flag) and empty chunks; without it, the permission error.
     */
    method StartAudioRecording(granted: bool)
      requires Valid() && isToneAnalysisEnabled
      modifies this
      ensures Valid()
      ensures granted ==> State() == old(State()).(recorder := Recorder(Capturing, true), audioChunks := [], isAudioRecording := true)
      ensures !granted ==> State() == old(State()).(permissionError := true)
    {
      if granted {
        recorder := Recorder(Capturing, isToneAnalysisEnabled);
        audioChunks := [];
        isAudioRecording := true;
      } else {
        permissionError := true;
      }
    }

    /**
      `startRecording`: nothing where speech is unsupported; when recognition starts, recording
      is on, the permission error is cleared, and with tone analysis on an audio capture is
      started too; when recognition refuses to start, the permission error and recording off.
     */
    method StartRecording(recognitionStarts: bool, microphoneGranted: bool)
      requires Valid()
      modifies this
      ensures Valid()
      ensures var starts := old(isSpeechSupported) && recognitionStarts;
        var captures := starts && old(isToneAnalysisEnabled) && microphoneGranted;
        && isRecording == (if old(isSpeechSupported) then recognitionStarts else old(isRecording))
        && permissionError == (if !old(isSpeechSupported) then old(permissionError)
                               else !recognitionStarts || (old(isToneAnalysisEnabled) && !microphoneGranted))
        && isAudioRecording == (captures || old(isAudioRecording))
        && recorder == (if captures then Recorder(Capturing, true) else old(recorder))
        && audioChunks == (if captures then [] else old(audioChunks))
      ensures unchanged(`message, `isSpeechSupported, `showEmojiPicker, `isToneAnalysisEnabled, `showToneTooltip,
                        `tooltipShown, `tooltipStored, `toggleTooltips, `sent)
    {
      if !isSpeechSupported {
        return;
      }
      if recognitionStarts {
        isRecording := true;
        permissionError := false;
        if isToneAnalysisEnabled {
          if microphoneGranted {
            recorder := Recorder(Capturing, isToneAnalysisEnabled);
            audioChunks := [];
            isAudioRecording := true;
          } else {
            permissionError := true;
          }
        }
      } else {
        permissionError := true;
        isRecording := false;
      }
    }

    /** `stopRecording`: recording off, and any running audio capture stopped. */
    method StopRecording()
      requires Valid()
      modifies this
      ensures Valid()
      ensures old(isAudioRecording) ==>
        State() == old(State()).(isRecording := false, isAudioRecording := false,
                                 recorder := Recorder(Stopping, old(recorder).attachAudio))
      ensures !old(isAudioRecording) ==> State() == old(State()).(isRecording := false)
    {
      isRecording := false;
      if isAudioRecording {
        StopAudioRecording();
      }
    }

    /** The microphone button: stop when recording, else start. */
    method ToggleRecording(recognitionStarts: bool, microphoneGranted: bool)
      requires Valid()
      modifies this
      ensures Valid()
      ensures old(isRecording) && old(isAudioRecording) ==>
        State() == old(State()).(isRecording := false, isAudioRecording := false,
                                 recorder := Recorder(Stopping, old(recorder).attachAudio))
      ensures old(isRecording) && !old(isAudioRecording) ==> State() == old(State()).(isRecording := false)
      ensures !old(isRecording) ==>
        var starts := old(isSpeechSupported) && recognitionStarts;
        var captures := starts && old(isToneAnalysisEnabled) && microphoneGranted;
        && isRecording == starts
        && permissionError == (if !old(isSpeechSupported) then old(permissionError)
                               else !recognitionStarts || (old(isToneAnalysisEnabled) && !microphoneGranted))
        && isAudioRecording == (captures || old(isAudioRecording))
        && recorder == (if captures then Recorder(Capturing, true) else old(recorder))
        && audioChunks == (if captures then [] else old(audioChunks))
        && message == old(message) && isSpeechSupported == old(isSpeechSupported)
        && showEmojiPicker == old(showEmojiPicker) && isToneAnalysisEnabled == old(isToneAnalysisEnabled)
        && showToneTooltip == old(showToneTooltip) && tooltipShown == old(tooltipShown)
        && tooltipStored == old(tooltipStored) && toggleTooltips == old(toggleTooltips) && sent == old(sent)
    {
      if isRecording {
        StopRecording();
      } else {
        StartRecording(recognitionStarts, microphoneGranted);
      }
    }

    /** A recognition result: the transcript is appended; the picker is left as it is. */
    method OnSpeechResult(transcript: string)
      requires Valid()
      modifies this
      ensures Valid()
      ensures State() == old(State()).(message := old(message) + transcript)
    {
      message := message + transcript;
    }

    /** Recognition ended: recording off (an audio capture keeps running). */
    method OnRecognitionEnd()
      requires Valid()
      modifies this
      ensures Valid()
      ensures State() == old(State()).(isRecording := false)
    {
      isRecording := false;
    }

    /** Recognition failed: a refused permission is shown, and recording is off. */
    method OnRecognitionError(notAllowed: bool)
      requires Valid()
      modifies this
      ensures Valid()
      ensures notAllowed ==> State() == old(State()).(isRecording := false, permissionError := true)
      ensures !notAllowed ==> State() == old(State()).(isRecording := false)
    {
      if notAllowed {
        permissionError := true;
      }
      isRecording := false;
    }

    /** An emoji is appended; the picker stays open. */
    method OnEmojiClick(emoji: string)
      requires Valid()
      modifies this
      ensures Valid()
      ensures State() == old(State()).(message := old(message) + emoji)
    {
      message := message + emoji;
    }

    /** The emoji button opens or closes the picker. */
    method ToggleEmojiPicker()
      requires Valid()
      modifies this
      ensures Valid()
      ensures State() == old(State()).(showEmojiPicker := !old(showEmojiPicker))
    {
      showEmojiPicker := !showEmojiPicker;
    }

    /**
      The tone switch flips tone analysis; the first flip of the session also shows the
      tooltip and sets the latch and the session-storage key.
     */
    method HandleToneToggle()
      requires Valid()
      modifies this
      ensures Valid()
      ensures !old(tooltipShown) ==>
        State() == old(State()).(isToneAnalysisEnabled := !old(isToneAnalysisEnabled), showToneTooltip := true,
                                 tooltipShown := true, tooltipStored := true, toggleTooltips := 1)
      ensures old(tooltipShown) ==> State() == old(State()).(isToneAnalysisEnabled := !old(isToneAnalysisEnabled))
    {
      isToneAnalysisEnabled := !isToneAnalysisEnabled;
      if !tooltipShown {
        showToneTooltip := true;
        tooltipShown := true;
        tooltipStored := true;
        toggleTooltips := toggleTooltips + 1;
      }
    }

    /** Hovering the tone switch shows the tooltip while the latch is unset, without setting it. */
    method OnToneHover()
      requires Valid()
      modifies this
      ensures Valid()
      ensures !old(tooltipShown) ==> State() == old(State()).(showToneTooltip := true)
      ensures old(tooltipShown) ==> State() == old(State())
    {
      if !tooltipShown {
        showToneTooltip := true;
      }
    }

    /** The tooltip's close button, or its timer, hides it. */
    method DismissTooltip()
      requires Valid()
      modifies this
      ensures Valid()
      ensures State() == old(State()).(showToneTooltip := false)
    {
      showToneTooltip := false;
    }

  }

  /**
    Toggling tone analysis twice shows the tooltip at most once and leaves the flag as it was:
    the once-per-session latch.
   */
  method ToggleTwice(bar: InputBar)
    requires bar.Valid()
    modifies bar
    ensures bar.Valid()
    ensures bar.isToneAnalysisEnabled == old(bar.isToneAnalysisEnabled)
    ensures bar.toggleTooltips <= 1 && bar.tooltipShown
    ensures old(bar.tooltipShown) ==> bar.toggleTooltips == old(bar.toggleTooltips)
  {
    bar.HandleToneToggle();
    bar.HandleToneToggle();
  }

  /**
    A submit during an audio capture sends nothing itself; the stop handler that follows sends
    the trimmed text with the audio collected.
   */
  method SubmitWhileCapturing(bar: InputBar, disabled: bool)
    requires bar.Valid() && bar.isAudioRecording
    requires !IsBlank(bar.message, IsJsSpace) && !disabled
    modifies bar
    ensures bar.Valid()
    ensures bar.sent == old(bar.sent) + [Payload(JsTrim(old(bar.message)), Some(old(bar.audioChunks)))]
    ensures bar.message == "" && !bar.isAudioRecording
  {
    bar.HandleSubmit(disabled);
    assert bar.sent == old(bar.sent);
    bar.OnRecorderStop();
  }
}
