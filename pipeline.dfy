/** The success and failure shapes of the analysis pipeline: `process_audio`
    (app.py lines 59-90), `get_llm_feedback` (lines 92-113) and the gates of
    `main` that decide what is shown (lines 138-194). The speech-to-text
    service, the audio decoder and the chat-completion service are outside
    the model; what each call returned is an input. */
module Pipeline {
  import opened Optional
  import Words
  import Rate
  import Prompts
  import Speed

  /** What the transcription request returned: the plain-text transcript,
      or an exception. */
  datatype SttReply = SttFailed | Transcribed(text: string)

  /** What decoding the uploaded file returned: its length in milliseconds,
      or an exception. */
  datatype DecodeReply = DecodeFailed | Decoded(ms: nat)

  /** What one chat-completion request returned: `choices[0].message.content`,
      which may be `None`, or an exception. */
  datatype ChatReply = ChatFailed | Answered(content: Option<string>)

  /** A reply whose content is present. */
  predicate Delivered(r: ChatReply) {
    r.Answered? && r.content.Some?
  }

  /** A reply whose content is a non-empty string, the only kind Python
      treats as true. */
  predicate DeliveredNonEmpty(r: ChatReply) {
    Delivered(r) && r.content.value != []
  }

  /** `process_audio`: transcribe, then decode, then count and divide. Any
      exception gives `(None, 0, 0, 0)`; otherwise the transcript, the rate,
      the duration (here in milliseconds) and the word count. */
  method ProcessAudio(stt: SttReply, decoded: DecodeReply)
    returns (transcript: Option<string>, wpm: nat, durationMs: nat, wordCount: nat)
    ensures transcript.Some? <==> stt.Transcribed? && decoded.Decoded?
    ensures transcript.None? ==> wpm == 0 && durationMs == 0 && wordCount == 0
    ensures transcript.Some? ==>
      && transcript.value == stt.text
      && durationMs == decoded.ms
      && wordCount == Words.WordCount(stt.text)
      && wpm == Rate.Wpm(wordCount, durationMs)
  {
    if stt.SttFailed? {
      return None, 0, 0, 0;
    }
    var text := stt.text;
    if decoded.DecodeFailed? {
      return None, 0, 0, 0;
    }
    var ms := decoded.ms;
    wordCount := Words.WordCount(text);
    wpm := Rate.Wpm(wordCount, ms);
    return Some(text), wpm, ms, wordCount;
  }

  /** `get_llm_feedback`: render and send the tone prompt, then render and
      send the logic prompt. `sent` lists the prompts in the order they were
      sent. An exception in either call discards everything: a tone report
      already obtained is not returned when the logic call fails. */
  method GetLlmFeedback(script: string, purpose: string, wpm: int, tone: ChatReply, logic: ChatReply)
    returns (toneFeedback: Option<string>, logicFeedback: Option<string>, sent: seq<string>)
    ensures |sent| == (if tone.Answered? then 2 else 1)
    ensures sent[0] == Prompts.TonePrompt(purpose, script, wpm)
    ensures |sent| == 2 ==> sent[1] == Prompts.LogicPrompt(purpose, script)
    ensures tone.ChatFailed? || logic.ChatFailed? ==> toneFeedback.None? && logicFeedback.None?
    ensures tone.Answered? && logic.Answered? ==>
      toneFeedback == tone.content && logicFeedback == logic.content
    ensures toneFeedback.Some? && logicFeedback.Some? <==> Delivered(tone) && Delivered(logic)
  {
    var tonePrompt := Prompts.TonePrompt(purpose, script, wpm);
    sent := [tonePrompt];
    if tone.ChatFailed? {
      return None, None, sent;
    }
    var toneText := tone.content;
    var logicPrompt := Prompts.LogicPrompt(purpose, script);
    sent := sent + [logicPrompt];
    if logic.ChatFailed? {
      return None, None, sent;
    }
    return toneText, logic.content, sent;
  }

  /** The four purposes offered by the select box (app.py line 128). */
  datatype Situation = InvestmentPitch | JobInterview | AcademicTalk | TeamTalk

  /** The text of each purpose, as it is passed to the prompts. */
  function Label(s: Situation): string {
    match s
    case InvestmentPitch => "IR 피치 (투자)"
    case JobInterview => "취업 면접 (전문직)"
    case AcademicTalk => "학술 발표 (논문)"
    case TeamTalk => "일반 팀 발표"
  }

  /** What one press of the start button ends with. */
  datatype Screen =
    | UploadMissing
      // no file uploaded: an error, and the run stops
    | Stopped
      // `process_audio` failed or the transcript is empty: the run stops
    | TranscriptOnly(transcript: string)
      // the transcript is shown, but no feedback tabs
    | Report(transcript: string, wpm: nat, durationMs: nat, wordCount: nat,
             status: Speed.Status, color: Speed.Color, tone: string, logic: string)
      // the transcript, the rate with its verdict, and both reports

  /** The second stage of `main` (app.py lines 152-194), once a non-empty
      transcript is at hand: show it, ask for both reports, and add the rate,
      its verdict and the reports only when both are non-empty strings. */
  method ShowFeedback(transcript: string, wpm: nat, durationMs: nat, wordCount: nat,
                      purpose: string, tone: ChatReply, logic: ChatReply)
    returns (screen: Screen, sent: seq<string>)
    ensures sent == [Prompts.TonePrompt(purpose, transcript, wpm)]
                    + (if tone.Answered? then [Prompts.LogicPrompt(purpose, transcript)] else [])
    ensures screen.Report? <==> DeliveredNonEmpty(tone) && DeliveredNonEmpty(logic)
    ensures !screen.Report? ==> screen == TranscriptOnly(transcript)
    ensures screen.Report? ==>
      screen == Report(transcript, wpm, durationMs, wordCount,
                       Speed.Assess(wpm).0, Speed.Assess(wpm).1,
                       tone.content.value, logic.content.value)
  {
    var toneFeedback, logicFeedback;
    toneFeedback, logicFeedback, sent := GetLlmFeedback(transcript, purpose, wpm, tone, logic);
    if tone.Answered? {
      assert sent == [sent[0]] + [sent[1]];
    } else {
      assert sent == [sent[0]] + [];
    }
    if toneFeedback.Some? && toneFeedback.value != [] && logicFeedback.Some? && logicFeedback.value != [] {
      var (status, color) := Speed.Assess(wpm);
      screen := Report(transcript, wpm, durationMs, wordCount, status, color,
                       toneFeedback.value, logicFeedback.value);
    } else {
      screen := TranscriptOnly(transcript);
    }
  }

  /** `main` after the start button is pressed: check the upload, process
      the audio, stop on a missing or empty transcript, ask for feedback,
      and show the reports only when both are non-empty strings. */
  method Analyze(situation: Situation, uploaded: bool, stt: SttReply, decoded: DecodeReply,
                 tone: ChatReply, logic: ChatReply)
    returns (screen: Screen, sent: seq<string>)
    ensures screen.UploadMissing? <==> !uploaded
    ensures screen.Stopped? <==>
      uploaded && (stt.SttFailed? || decoded.DecodeFailed? || stt.text == [])
    ensures screen.Report? <==>
      && uploaded && stt.Transcribed? && stt.text != [] && decoded.Decoded?
      && DeliveredNonEmpty(tone) && DeliveredNonEmpty(logic)
    ensures screen.TranscriptOnly? || screen.Report? ==> screen.transcript == stt.text
    ensures screen.Report? ==>
      && screen.durationMs == decoded.ms
      && screen.wordCount == Words.WordCount(stt.text)
      && screen.wpm == Rate.Wpm(screen.wordCount, screen.durationMs)
      && (screen.status, screen.color) == Speed.Assess(screen.wpm)
      && screen.tone == tone.content.value
      && screen.logic == logic.content.value
    ensures sent != [] <==> screen.TranscriptOnly? || screen.Report?
    ensures sent != [] ==>
      sent == [Prompts.TonePrompt(Label(situation), stt.text,
                                  Rate.Wpm(Words.WordCount(stt.text), decoded.ms))]
              + (if tone.Answered? then [Prompts.LogicPrompt(Label(situation), stt.text)] else [])
  {
    sent := [];
    if !uploaded {
      return UploadMissing, sent;
    }
    var transcript, wpm, totalTime, wordCount := ProcessAudio(stt, decoded);
    if transcript.None? || transcript.value == [] {
      return Stopped, sent;
    }
    screen, sent := ShowFeedback(transcript.value, wpm, totalTime, wordCount, Label(situation), tone, logic);
  }
}
