/**
 * The chant and audio settings panel. Its handlers call the page's setters; here each handler
 * takes the page's `AudioSettings` and returns the settings after those setter calls. The
 * panels' own state (recording, transcription, loading) lives in one class per panel.
 */
module AudioStyleSelector {
  import opened Wrappers
  import opened Home
  import opened DefaultChants
  import opened Actions
  import opened JsString

  // ---------------------------------------------------------------------------------------
  // Tabs and the defaults panel

  /** `handleTabChange`: the AI and defaults tabs select speech, record and upload select a clip. */
  function TabSource(tab: string): (src: AudioSource)
    ensures src == Ai <==> tab == "ai" || tab == "defaults"
  {
    if tab == "ai" || tab == "defaults" then Ai else Custom
  }

  function HandleTabChange(s: AudioSettings, tab: string): (r: AudioSettings)
    ensures r.audioSource == TabSource(tab)
    ensures r == s.(audioSource := r.audioSource)
  {
    s.(audioSource := TabSource(tab))
  }

  /**
   * `handleSelectChant` as written: the entry's text, voice and language, and nothing else.
   * An entry without a voice sets the voice to `undefined`; its `audioUrl` is not read.
   */
  function SelectChantAsWritten(s: AudioSettings, c: DefaultChant): (r: AudioSettings)
    ensures r.chantText == c.text && r.voiceName == c.voiceName && r.voiceLang == c.lang
    ensures r.audioSource == s.audioSource && r.customAudioUrl == s.customAudioUrl
    ensures r.chantSpeed == s.chantSpeed
  {
    s.(chantText := c.text, voiceName := c.voiceName, voiceLang := c.lang)
  }

  /**
   * Choosing a recorded entry on the defaults tab, as written, leaves a browser page with nothing to
   * play: auto mode then counts each cycle at once, silently.
   */
  lemma AudioOnlyChantCountsSilently(s: AudioSettings, c: DefaultChant, hasSpeechSynthesis: bool)
    requires c in Table && c.audioUrl.Some?
    ensures var r := SelectChantAsWritten(HandleTabChange(s, "defaults"), c);
      ChooseSpeakPath(true, Auto, r, true, false, hasSpeechSynthesis) == EndAtOnce
  {
    TableWellFormed();
  }

  /** The first entry is such a recorded entry. */
  lemma FirstDefaultChantIsRecorded()
    ensures Table[0] in Table && Table[0].audioUrl.Some?
  {
  }

  /** `handleSelectChant` corrected: a recorded entry selects its clip, a voiced entry its voice. */
  function SelectChant(s: AudioSettings, c: DefaultChant): (r: AudioSettings)
    ensures r.chantText == c.text && r.chantSpeed == s.chantSpeed
    ensures c.audioUrl.Some? ==> r.audioSource == Custom && r.customAudioUrl == c.audioUrl
    ensures c.audioUrl.None? ==> r == SelectChantAsWritten(s, c)
  {
    if c.audioUrl.Some? then s.(chantText := c.text, audioSource := Custom, customAudioUrl := c.audioUrl)
    else SelectChantAsWritten(s, c)
  }

  /** With the correction, every entry of the table is heard in a browser with speech synthesis. */
  lemma EveryDefaultChantIsAudible(s: AudioSettings, c: DefaultChant)
    requires c in Table
    ensures var r := SelectChant(HandleTabChange(s, "defaults"), c);
      ChooseSpeakPath(true, Auto, r, true, false, true) in {PlayClip, Synthesize}
  {
    TableWellFormed();
  }

  // ---------------------------------------------------------------------------------------
  // Transcription

  datatype Transcript = Transcript(transcript: string)

  /** How a `handleTranscription` call ended: the action's envelope, or a throw (reading the blob, or the call). */
  datatype TranscriptionOutcome = Responded(envelope: Envelope<Transcript>) | Threw

  const Transcribing: string := "Transcribing..."

  /** The chant text the record panel leaves: the transcript, else "Om". */
  function RecordPanelText(o: TranscriptionOutcome): (t: string)
    ensures o.Responded? && o.envelope.Success? ==> t == o.envelope.data.transcript
    ensures !(o.Responded? && o.envelope.Success?) ==> t == "Om"
  {
    match o
    case Responded(Success(d)) => d.transcript
    case _ => "Om"
  }

  /** The chant text the upload panel leaves: the transcript, "Om" on an error envelope, "Untrack word" on a throw. */
  function UploadPanelText(o: TranscriptionOutcome): (t: string)
    ensures o.Responded? && o.envelope.Success? ==> t == o.envelope.data.transcript
    ensures o.Responded? && o.envelope.Failure? ==> t == "Om"
    ensures o.Threw? ==> t == "Untrack word"
  {
    match o
    case Responded(Success(d)) => d.transcript
    case Responded(Failure(_)) => "Om"
    case Threw => "Untrack word"
  }

  /** The two panels agree exactly when the action answered. */
  lemma PanelsAgreeUnlessThrown(o: TranscriptionOutcome)
    ensures RecordPanelText(o) == UploadPanelText(o) <==> o.Responded?
  {
    if o.Threw? {
      assert "Om" != "Untrack word" by { assert "Om"[0] != "Untrack word"[0]; }
    }
  }

  /** The recorded audio handed to transcription. */
  datatype Blob = Blob(chunks: seq<nat>, mimeType: string)

  /** `mediaRecorderRef.current?.mimeType || 'audio/webm'`. */
  function BlobType(recorderMime: string): (t: string)
    ensures t != ""
    ensures recorderMime != "" ==> t == recorderMime
  {
    if recorderMime == "" then "audio/webm" else recorderMime
  }

  /** `file.type.startsWith('audio/')`. */
  predicate IsAudioType(mimeType: string) {
    |mimeType| >= 6 && mimeType[..6] == "audio/"
  }

  /** The recorder's fallback type would pass the upload panel's check. */
  lemma FallbackTypeIsAudio()
    ensures IsAudioType(BlobType(""))
  {
    assert BlobType("")[..6] == "audio/";
  }

  // ---------------------------------------------------------------------------------------
  // Panels

  /** `RecordVoicePanel`: `mediaRecorderRef` (by the recorder's `mimeType`) and `audioChunksRef`. */
  class RecordVoicePanel {
    var isRecording: bool
    var isTranscribing: bool
    var audioURL: Option<string>
    var recorder: Option<string>
    var chunks: seq<nat>

    constructor ()
      ensures !isRecording && !isTranscribing && audioURL == None && recorder == None && chunks == []
    {
      isRecording, isTranscribing, audioURL, recorder, chunks := false, false, None, None, [];
    }

    /**
     * `handleStartRecording`: without `getUserMedia`, or when the microphone is refused, nothing
     * changes; otherwise a new recorder with an emptied buffer starts.
     */
    method StartRecording(supported: bool, granted: bool, mimeType: string)
      modifies this`recorder, this`chunks, this`isRecording
      ensures !(supported && granted) ==> unchanged(this)
      ensures supported && granted ==> recorder == Some(mimeType) && chunks == [] && isRecording
    {
      if supported && granted {
        recorder := Some(mimeType);
        chunks := [];
        isRecording := true;
      }
    }

    /** `ondataavailable`: one more chunk in the buffer. */
    method DataAvailable(chunk: nat)
      requires recorder.Some?
      modifies this`chunks
      ensures chunks == old(chunks) + [chunk]
    {
      chunks := chunks + [chunk];
    }

    /** `handleStopRecording`: a no-op without a recorder. */
    method StopRecording()
      modifies this`isRecording
      ensures recorder.None? ==> isRecording == old(isRecording)
      ensures recorder.Some? ==> !isRecording
    {
      if recorder.Some? {
        isRecording := false;
      }
    }

    /**
     * `onstop`: the buffer becomes a blob at `url`, the page switches to that clip, the buffer is
     * emptied and transcription starts.
     */
    method RecorderStopped(url: string, s: AudioSettings) returns (blob: Blob, r: AudioSettings)
      requires recorder.Some?
      modifies this`audioURL, this`chunks, this`isTranscribing
      ensures blob == Blob(old(chunks), BlobType(recorder.value))
      ensures chunks == [] && audioURL == Some(url) && isTranscribing
      ensures r == s.(customAudioUrl := Some(url), audioSource := Custom, chantText := Transcribing)
    {
      blob := Blob(chunks, BlobType(recorder.value));
      audioURL := Some(url);
      r := s.(customAudioUrl := Some(url), audioSource := Custom);
      chunks := [];
      isTranscribing := true;
      r := r.(chantText := Transcribing);
    }

    /** The transcription settles: the chant text is chosen and `finally` clears the flag. */
    method TranscriptionSettled(o: TranscriptionOutcome, s: AudioSettings) returns (r: AudioSettings)
      modifies this`isTranscribing
      ensures !isTranscribing
      ensures r == s.(chantText := RecordPanelText(o))
    {
      r := s.(chantText := RecordPanelText(o));
      isTranscribing := false;
    }
  }

  datatype File = File(name: string, mimeType: string)

  /** `UploadAudioPanel`. */
  class UploadAudioPanel {
    var fileName: Option<string>
    var isTranscribing: bool

    constructor ()
      ensures fileName == None && !isTranscribing
    {
      fileName, isTranscribing := None, false;
    }

    /**
     * `handleFileChange`: an audio file becomes the page's clip at `url` and is transcribed; no
     * file, or a file of another type, changes nothing.
     */
    method FileChange(file: Option<File>, url: string, s: AudioSettings) returns (r: AudioSettings)
      modifies this`fileName, this`isTranscribing
      ensures !(file.Some? && IsAudioType(file.value.mimeType)) ==> r == s && unchanged(this)
      ensures file.Some? && IsAudioType(file.value.mimeType) ==>
                fileName == Some(file.value.name) && isTranscribing &&
                r == s.(customAudioUrl := Some(url), audioSource := Custom, chantText := Transcribing)
    {
      r := s;
      if file.Some? && IsAudioType(file.value.mimeType) {
        r := r.(customAudioUrl := Some(url), audioSource := Custom);
        fileName := Some(file.value.name);
        isTranscribing := true;
        r := r.(chantText := Transcribing);
      }
    }

    method TranscriptionSettled(o: TranscriptionOutcome, s: AudioSettings) returns (r: AudioSettings)
      modifies this`isTranscribing
      ensures !isTranscribing
      ensures r == s.(chantText := UploadPanelText(o))
    {
      r := s.(chantText := UploadPanelText(o));
      isTranscribing := false;
    }
  }

  /** `voiceConfig.prebuiltVoiceConfig` and the reasoning of a voice-style answer. */
  datatype VoiceStyle = VoiceStyle(voiceName: string, lang: string, reasoning: Option<string>)

  /** The form rule: a style description of at least five UTF-16 code units. */
  predicate StyleAccepted(desiredStyle: string) {
    Utf16Length(desiredStyle) >= 5
  }

  /** `AIGeneratorPanel`. */
  class AIGeneratorPanel {
    var isLoading: bool
    var result: Option<VoiceStyle>

    constructor ()
      ensures !isLoading && result == None
    {
      isLoading, result := false, None;
    }

    /** `onSubmit` up to the `await`: a rejected form does nothing, else loading starts and speech is selected. */
    method Submit(desiredStyle: string, s: AudioSettings) returns (r: AudioSettings)
      modifies this
      ensures !StyleAccepted(desiredStyle) ==> r == s && unchanged(this)
      ensures StyleAccepted(desiredStyle) ==> isLoading && result == None && r == s.(audioSource := Ai)
    {
      r := s;
      if StyleAccepted(desiredStyle) {
        isLoading := true;
        result := None;
        r := s.(audioSource := Ai);
      }
    }

    /**
     * `onSubmit` after the `await`, with the action's envelope, or `None` when the awaited call
     * rejects. A success applies the voice, and a failure envelope leaves it; after either,
     * loading ends. A rejection escapes `onSubmit` before `setIsLoading(false)`, so the panel
     * stays loading.
     */
    method VoiceSettled(e: Option<Envelope<VoiceStyle>>, s: AudioSettings) returns (r: AudioSettings)
      modifies this
      ensures e.None? ==> r == s && unchanged(this)
      ensures e.Some? ==> !isLoading
      ensures e.Some? && e.value.Success? ==>
                result == Some(e.value.data) &&
                r == s.(voiceName := Some(e.value.data.voiceName), voiceLang := Some(e.value.data.lang))
      ensures e.Some? && e.value.Failure? ==> result == old(result) && r == s
    {
      r := s;
      if e.None? {
        return;
      }
      if e.value.Success? {
        r := s.(voiceName := Some(e.value.data.voiceName), voiceLang := Some(e.value.data.lang));
        result := Some(e.value.data);
      }
      isLoading := false;
    }
  }
}
