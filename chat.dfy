/** The question-and-answer panel (the `Chat` component): the conversation log, typed
    questions sent with the recent history, voice questions recorded from the microphone,
    and the bookkeeping of audio answers and their retry. */
module ChatState {
  import opened Browser

  /** Typed questions are sent with at most this many recent turns. */
  const HistoryLimit := 15

  const VoiceQuestionText := "Mensagem de voz"
  const TextAnswerError := "Erro ao processar a pergunta."
  const AudioAnswerError := "Erro ao processar a pergunta por áudio."
  const ApiErrorPrefix := "Erro na API: "

  /** One piece of recorded audio delivered by a `dataavailable` event. */
  type Chunk = seq<bv8>

  /** The audio of one recording: its chunks, in the order they arrived. */
  datatype Blob = Blob(chunks: seq<Chunk>)

  /** A turn of the conversation. */
  datatype Message = Question(text: string, audio: Option<Blob>) | Answer(text: string)

  /** What a question request yields: an ok reply with its payload, a non-ok reply with its
      `detail` and status text, or an exception with its message. */
  datatype Reply =
    | Answered(data: string)
    | NotOk(detail: Option<string>, statusText: string)
    | Throws(message: string)

  /** A request sent and not yet answered, with the video it asks about. A typed question
      travels with the history the panel held once it was appended; a voice question with
      its audio. */
  datatype Request =
    | AskText(videoUrl: string, question: string, history: seq<Message>)
    | AskAudio(videoUrl: string, audio: Blob)

  /** The outcome of `getUserMedia`. */
  datatype MicAccess = Granted | Denied

  datatype RecorderState = Inactive | Recording

  /** The current `MediaRecorder` with what its handlers close over: the chunks collected so
      far, the conversation as it was when recording started, and whether the microphone
      stream is still open. */
  datatype Recorder = Recorder(state: RecorderState, chunks: seq<Chunk>,
                               snapshot: seq<Message>, streamLive: bool)

  /** Every field of the panel, its `videoUrl` prop, the current recorder and the requests
      in flight. */
  datatype ChatView = ChatView(
    videoUrl: string,
    question: string,
    messages: seq<Message>,
    isRecording: bool,
    audioBlob: Option<Blob>,
    lastAudioSent: Option<Blob>,
    error: Option<string>,
    recorder: Option<Recorder>,
    pending: seq<Request>)

  /** `[...messages, newMessage].slice(-15)`: the new question after the most recent earlier
      turns, keeping at most `HistoryLimit` turns in all. */
  function WithQuestion(history: seq<Message>, question: Message): (r: seq<Message>)
    ensures |r| == Min(|history| + 1, HistoryLimit)
    ensures r == history[|history| + 1 - |r|..] + [question]
  {
    var appended := history + [question];
    var r := Slice(appended, -HistoryLimit);
    assert appended[|appended| - |r|..] == history[|history| + 1 - |r|..] + [question];
    r
  }

  /** The answer turn a reply produces: its payload, or the fixed error text. */
  function AnswerTurn(reply: Reply, errorText: string): Message {
    Answer(if reply.Answered? then reply.data else errorText)
  }

  /** The functional update `messages => [...messages, answer]`: exactly one answer turn is
      added after the latest turns, which are kept as they are. */
  function WithAnswer(history: seq<Message>, reply: Reply, errorText: string): (r: seq<Message>)
    ensures |r| == |history| + 1 && r[..|history|] == history
    ensures r[|history|] == AnswerTurn(reply, errorText)
  {
    history + [AnswerTurn(reply, errorText)]
  }

  /** The `message` of the error a failed request is caught with. */
  function CaughtMessage(reply: Reply): (m: string)
    requires !reply.Answered?
    ensures reply.NotOk? && Truthy(reply.detail) ==> m == reply.detail.value
    ensures reply.NotOk? && !Truthy(reply.detail) ==> m == ApiErrorPrefix + reply.statusText
    ensures reply.Throws? ==> m == reply.message
    // a non-ok reply always leaves a truthy error
    ensures reply.NotOk? ==> m != ""
  {
    match reply
    case NotOk(detail, statusText) =>
      if Truthy(detail) then detail.value else ApiErrorPrefix + statusText
    case Throws(message) => message
  }

  /** The number of answer turns in a history. */
  function Answers(history: seq<Message>): nat {
    if history == [] then 0
    else (if history[0].Answer? then 1 else 0) + Answers(history[1..])
  }

  lemma {:induction false} AnswersAppend(a: seq<Message>, b: seq<Message>)
    ensures Answers(a + b) == Answers(a) + Answers(b)
  {
    if a == [] {
      assert a + b == b;
    } else {
      assert (a + b)[1..] == a[1..] + b;
      AnswersAppend(a[1..], b);
    }
  }

  /** Every resolution of a question, whether it succeeded or failed, adds exactly one
      answer turn and no question turn. */
  lemma ResolutionAddsOneAnswer(history: seq<Message>, reply: Reply, errorText: string)
    ensures Answers(WithAnswer(history, reply, errorText)) == Answers(history) + 1
    ensures |WithAnswer(history, reply, errorText)| - Answers(WithAnswer(history, reply, errorText))
         == |history| - Answers(history)
  {
    AnswersAppend(history, [AnswerTurn(reply, errorText)]);
  }

  /** A question sent upstream carries a history of at most `HistoryLimit` turns that ends
      with the question itself. */
  predicate WellFormedRequest(request: Request) {
    request.AskText? ==>
      0 < |request.history| <= HistoryLimit &&
      request.history[|request.history| - 1] == Question(request.question, None)
  }

  /** The recorder exists and is recording. */
  predicate Records(v: ChatView) {
    v.recorder.Some? && v.recorder.value.state == Recording
  }

  /** A stop has been requested and its stop event is still to be delivered. */
  predicate StopQueued(v: ChatView) {
    v.recorder.Some? && v.recorder.value.state == Inactive && v.recorder.value.streamLive
  }

  /** No stop event is still to be delivered: the previous recorder, if any, has run its
      `onstop` handler. */
  predicate NoStopQueued(v: ChatView) {
    v.recorder.None? || !v.recorder.value.streamLive
  }

  /** The recording flag mirrors the recorder's state, a recorder that records holds an
      open stream, and every question in flight was sent for the panel's video with a
      well-formed history. */
  predicate Consistent(v: ChatView) {
    (v.isRecording <==> Records(v)) &&
    (Records(v) ==> v.recorder.value.streamLive) &&
    forall i :: 0 <= i < |v.pending| ==> WellFormedRequest(v.pending[i]) && v.pending[i].videoUrl == v.videoUrl
  }

  /** A panel just mounted for `videoUrl`. */
  function InitialChat(videoUrl: string): ChatView {
    ChatView(videoUrl, "", [], false, None, None, None, None, [])
  }

  /** `handleSubmit`, up to the request: an empty question changes nothing; otherwise the
      question is appended to the truncated history, exactly that history is sent with it,
      and the input is cleared. */
  function SubmitQuestion(v: ChatView): (r: ChatView)
    requires Consistent(v)
    ensures Consistent(r)
    ensures v.question == "" ==> r == v
    ensures v.question != "" ==>
      r.messages == WithQuestion(v.messages, Question(v.question, None)) &&
      r.pending == v.pending + [AskText(v.videoUrl, v.question, r.messages)] &&
      r.question == ""
    ensures r.(question := v.question, messages := v.messages, pending := v.pending) == v
  {
    if v.question == "" then v
    else
      var history := WithQuestion(v.messages, Question(v.question, None));
      v.(question := "", messages := history, pending := v.pending + [AskText(v.videoUrl, v.question, history)])
  }

  /** `startRecording`, reached from the record button while not recording: with the
      microphone granted a recorder starts with no chunks and the current log as its
      snapshot; a denied microphone is caught and changes nothing. */
  function StartRecorder(v: ChatView, mic: MicAccess): (r: ChatView)
    requires Consistent(v) && !v.isRecording && NoStopQueued(v)
    ensures Consistent(r)
    ensures mic.Denied? ==> r == v
    ensures mic.Granted? ==>
      r.isRecording && r.recorder == Some(Recorder(Recording, [], v.messages, true))
    ensures r.(isRecording := v.isRecording, recorder := v.recorder) == v
  {
    if mic.Granted? then v.(recorder := Some(Recorder(Recording, [], v.messages, true)), isRecording := true)
    else v
  }

  /** `stopRecording`: only a recorder that records is stopped, and its stop event is then
      still to come. */
  function StopRecorder(v: ChatView): (r: ChatView)
    requires Consistent(v)
    ensures Consistent(r) && !r.isRecording
    ensures !Records(v) ==> r == v
    ensures Records(v) ==> StopQueued(r) && r.recorder == Some(v.recorder.value.(state := Inactive))
    ensures r.(isRecording := v.isRecording, recorder := v.recorder) == v
  {
    if Records(v) then v.(recorder := Some(v.recorder.value.(state := Inactive)), isRecording := false)
    else v
  }

  /** The recorder's `dataavailable` handler, which fires while recording and once more
      before the stop event: the chunk is added after those collected so far. */
  function CollectChunk(v: ChatView, chunk: Chunk): (r: ChatView)
    requires Consistent(v) && v.recorder.Some? && v.recorder.value.streamLive
    ensures Consistent(r) && r.recorder.Some? && r.recorder.value.streamLive
    ensures r.recorder == Some(v.recorder.value.(chunks := v.recorder.value.chunks + [chunk]))
    ensures r.(recorder := v.recorder) == v
  {
    v.(recorder := Some(v.recorder.value.(chunks := v.recorder.value.chunks + [chunk])))
  }

  /** `sendAudio`, up to the request. */
  function SendAudioRequest(v: ChatView, blob: Blob): ChatView {
    v.(pending := v.pending + [AskAudio(v.videoUrl, blob)])
  }

  /** The recorder's `onstop` handler: one voice question built from the collected chunks,
      placed after the log as it was when this recording started (the current log is
      replaced), one audio request for it, and the microphone stream released. */
  function FinishRecording(v: ChatView): (r: ChatView)
    requires Consistent(v) && StopQueued(v)
    ensures Consistent(r) && NoStopQueued(r) && !r.isRecording
    ensures var blob := Blob(v.recorder.value.chunks);
      r.audioBlob == Some(blob) &&
      r.messages == v.recorder.value.snapshot + [Question(VoiceQuestionText, Some(blob))] &&
      r.pending == v.pending + [AskAudio(v.videoUrl, blob)]
    ensures r.recorder == Some(v.recorder.value.(streamLive := false))
    ensures r.(audioBlob := v.audioBlob, messages := v.messages, pending := v.pending,
               recorder := v.recorder) == v
  {
    var rec := v.recorder.value;
    var blob := Blob(rec.chunks);
    var sent := SendAudioRequest(v.(audioBlob := Some(blob),
                                    messages := rec.snapshot + [Question(VoiceQuestionText, Some(blob))]),
                                 blob);
    sent.(recorder := Some(rec.(streamLive := false)))
  }

  /** The error text of the answer turn a failed request produces. */
  function ErrorTextFor(request: Request): string {
    if request.AskText? then TextAnswerError else AudioAnswerError
  }

  /** The reply to the `k`-th request in flight arrives: that request is no longer in
      flight and one answer turn is appended. A typed question touches nothing else. An
      answered voice question clears `error` and becomes `lastAudioSent`; a failed one
      sets `error` to the caught message and leaves `lastAudioSent` as it was. */
  function ReceiveReply(v: ChatView, k: nat, reply: Reply): (r: ChatView)
    requires Consistent(v) && k < |v.pending|
    ensures Consistent(r)
    ensures r.pending == v.pending[..k] + v.pending[k + 1..]
    ensures r.messages == WithAnswer(v.messages, reply, ErrorTextFor(v.pending[k]))
    ensures v.pending[k].AskText? ==> r.error == v.error && r.lastAudioSent == v.lastAudioSent
    ensures v.pending[k].AskAudio? && reply.Answered? ==>
      r.error == None && r.lastAudioSent == Some(v.pending[k].audio)
    ensures v.pending[k].AskAudio? && !reply.Answered? ==>
      r.error == Some(CaughtMessage(reply)) && r.lastAudioSent == v.lastAudioSent
    ensures r.(pending := v.pending, messages := v.messages, error := v.error,
               lastAudioSent := v.lastAudioSent) == v
  {
    var request := v.pending[k];
    var rest := v.pending[..k] + v.pending[k + 1..];
    assert forall i :: 0 <= i < |rest| ==> rest[i] == v.pending[if i < k then i else i + 1];
    var answered := v.(pending := rest, messages := WithAnswer(v.messages, reply, ErrorTextFor(request)));
    if request.AskText? then answered
    else if reply.Answered? then answered.(error := None, lastAudioSent := Some(request.audio))
    else answered.(error := Some(CaughtMessage(reply)))
  }

  /** `retrySendAudio`: nothing without a last sent audio; otherwise that audio is sent
      again, no turn is added to the log, and `audioBlob` ends null. */
  function RetryAudio(v: ChatView): (r: ChatView)
    requires Consistent(v)
    ensures Consistent(r)
    ensures v.lastAudioSent.None? ==> r == v
    ensures v.lastAudioSent.Some? ==>
      r.audioBlob == None && r.pending == v.pending + [AskAudio(v.videoUrl, v.lastAudioSent.value)]
    ensures r.(audioBlob := v.audioBlob, pending := v.pending) == v
  {
    if v.lastAudioSent.Some? then
      SendAudioRequest(v.(audioBlob := v.lastAudioSent), v.lastAudioSent.value).(audioBlob := None)
    else v
  }

  /** One `dataavailable` event per chunk of `chunks`, in order. */
  function CollectChunks(v: ChatView, chunks: seq<Chunk>): (r: ChatView)
    requires Consistent(v) && v.recorder.Some? && v.recorder.value.streamLive
    ensures Consistent(r) && r.recorder.Some? && r.recorder.value.streamLive
    ensures r.recorder == Some(v.recorder.value.(chunks := v.recorder.value.chunks + chunks))
    ensures r.(recorder := v.recorder) == v
    decreases |chunks|
  {
    if chunks == [] then
      assert v.recorder.value.chunks + chunks == v.recorder.value.chunks;
      v
    else
      var r := CollectChunks(CollectChunk(v, chunks[0]), chunks[1..]);
      assert v.recorder.value.chunks + [chunks[0]] + chunks[1..] == v.recorder.value.chunks + chunks;
      r
  }

  /** A whole voice question from an idle panel: start (microphone granted), `chunks`
      delivered, stop, and the stop event. */
  function RecordVoice(v: ChatView, chunks: seq<Chunk>): (r: ChatView)
    requires Consistent(v) && !v.isRecording && NoStopQueued(v)
    ensures Consistent(r) && NoStopQueued(r)
  {
    FinishRecording(StopRecorder(CollectChunks(StartRecorder(v, Granted), chunks)))
  }

  /** A voice question appends exactly one question turn, holding exactly the delivered
      chunks, after the log as it was, sends exactly one audio request with those chunks,
      releases the microphone, and changes nothing else. */
  lemma VoiceQuestionRoundTrip(v: ChatView, chunks: seq<Chunk>)
    requires Consistent(v) && !v.isRecording && NoStopQueued(v)
    ensures var r := RecordVoice(v, chunks);
      r.messages == v.messages + [Question(VoiceQuestionText, Some(Blob(chunks)))] &&
      r.pending == v.pending + [AskAudio(v.videoUrl, Blob(chunks))] &&
      r.audioBlob == Some(Blob(chunks)) && !r.isRecording && NoStopQueued(r) &&
      r.question == v.question && r.lastAudioSent == v.lastAudioSent && r.error == v.error
  {
    var started := StartRecorder(v, Granted);
    var collected := CollectChunks(started, chunks);
    assert [] + chunks == chunks;
    assert collected.recorder == Some(Recorder(Recording, chunks, v.messages, true));
    var stopped := StopRecorder(collected);
    assert stopped.recorder == Some(Recorder(Inactive, chunks, v.messages, true));
  }

  /** A voice question recorded from an idle panel, and the reply to it. */
  function AskByVoice(v: ChatView, chunks: seq<Chunk>, reply: Reply): (r: ChatView)
    requires Consistent(v) && !v.isRecording && NoStopQueued(v)
    ensures Consistent(r) && !r.isRecording && NoStopQueued(r)
  {
    ReceiveReply(RecordVoice(v, chunks), |v.pending|, reply)
  }

  /** A voice question, once answered or failed, has added one question turn and one
      answer turn and left the requests in flight as they were; an answer makes its audio
      the one a retry sends, a failure sets the error and leaves `lastAudioSent` alone. */
  lemma VoiceQuestionGetsOneAnswer(v: ChatView, chunks: seq<Chunk>, reply: Reply)
    requires Consistent(v) && !v.isRecording && NoStopQueued(v)
    ensures var r := AskByVoice(v, chunks, reply);
      r.messages == v.messages + [Question(VoiceQuestionText, Some(Blob(chunks))),
                                  AnswerTurn(reply, AudioAnswerError)] &&
      r.pending == v.pending
    ensures var r := AskByVoice(v, chunks, reply);
      (reply.Answered? ==> r.lastAudioSent == Some(Blob(chunks)) && r.error == None) &&
      (!reply.Answered? ==> r.lastAudioSent == v.lastAudioSent && r.error == Some(CaughtMessage(reply)))
  {
    VoiceQuestionRoundTrip(v, chunks);
    var sent := RecordVoice(v, chunks);
    var voice := Question(VoiceQuestionText, Some(Blob(chunks)));
    assert sent.pending[|v.pending|] == AskAudio(v.videoUrl, Blob(chunks));
    assert sent.pending[..|v.pending|] + sent.pending[|v.pending| + 1..] == v.pending;
    assert v.messages + [voice] + [AnswerTurn(reply, AudioAnswerError)]
        == v.messages + [voice, AnswerTurn(reply, AudioAnswerError)];
  }

  /** A voice question and its reply add exactly one answer turn to the log. */
  lemma VoiceQuestionAddsOneAnswerTurn(v: ChatView, chunks: seq<Chunk>, reply: Reply)
    requires Consistent(v) && !v.isRecording && NoStopQueued(v)
    ensures Answers(AskByVoice(v, chunks, reply).messages) == Answers(v.messages) + 1
  {
    VoiceQuestionGetsOneAnswer(v, chunks, reply);
    var voice := Question(VoiceQuestionText, Some(Blob(chunks)));
    var answer := AnswerTurn(reply, AudioAnswerError);
    AnswersAppend(v.messages, [voice, answer]);
    assert Answers([answer]) == 1 by { assert [answer][1..] == []; }
    assert Answers([voice, answer]) == 1 by { assert [voice, answer][1..] == [answer]; }
  }

  /** The turns one round of typed conversation leaves in a log `history`: the question
      after the truncated history, then its answer. */
  function Exchange(history: seq<Message>, question: string, reply: Reply): (r: seq<Message>)
    ensures |r| == Min(|history| + 2, HistoryLimit + 1) && |r| >= 2
    ensures r[|r| - 1] == AnswerTurn(reply, TextAnswerError) && r[|r| - 2] == Question(question, None)
  {
    var asked := WithQuestion(history, Question(question, None));
    var r := asked + [AnswerTurn(reply, TextAnswerError)];
    assert r[|r| - 2] == asked[|asked| - 1];
    r
  }

  /** The log after rounds of typed conversation, one question and reply after the other.
      However many rounds are held, each adds two turns but the truncation keeps the log at
      no more than `HistoryLimit + 1` turns, since the answer is appended after the
      truncated history. */
  function Conversation(history: seq<Message>, questions: seq<string>, replies: seq<Reply>): (r: seq<Message>)
    requires |replies| == |questions|
    ensures |r| == if questions == [] then |history| else Min(|history| + 2 * |questions|, HistoryLimit + 1)
    decreases |questions|
  {
    if questions == [] then history
    else
      var n := |questions| - 1;
      var before := Conversation(history, questions[..n], replies[..n]);
      assert |questions[..n]| == n && (n == 0 <==> questions[..n] == []);
      assert Min(|before| + 2, HistoryLimit + 1) == Min(|history| + 2 * |questions|, HistoryLimit + 1);
      Exchange(before, questions[n], replies[n])
  }

  /** After one or more rounds, the last two turns are the last round's question and its
      answer. */
  lemma ConversationEndsWithLastExchange(history: seq<Message>, questions: seq<string>, replies: seq<Reply>)
    requires |replies| == |questions| && questions != []
    ensures var r := Conversation(history, questions, replies);
      |r| >= 2 &&
      r[|r| - 1] == AnswerTurn(replies[|replies| - 1], TextAnswerError) &&
      r[|r| - 2] == Question(questions[|questions| - 1], None)
  {
  }

  /** One round of typed conversation on the panel: the question is typed, submitted, and
      its reply arrives before anything else happens. */
  function Round(v: ChatView, question: string, reply: Reply): (r: ChatView)
    requires Consistent(v) && question != ""
    ensures Consistent(r)
  {
    var asked := SubmitQuestion(v.(question := question));
    ReceiveReply(asked, |v.pending|, reply)
  }

  /** A round leaves the exchange in the log, the requests in flight as they were, and
      touches nothing else but the emptied input. */
  lemma RoundAddsQuestionThenAnswer(v: ChatView, question: string, reply: Reply)
    requires Consistent(v) && question != ""
    ensures Round(v, question, reply) == v.(question := "", messages := Exchange(v.messages, question, reply))
  {
    var asked := SubmitQuestion(v.(question := question));
    assert asked.pending[|v.pending|].AskText?;
    assert asked.pending[..|v.pending|] + asked.pending[|v.pending| + 1..] == v.pending;
  }

  /** Rounds of typed conversation on the panel. */
  function Rounds(v: ChatView, questions: seq<string>, replies: seq<Reply>): (r: ChatView)
    requires Consistent(v) && |replies| == |questions|
    requires forall k :: 0 <= k < |questions| ==> questions[k] != ""
    ensures Consistent(r)
    decreases |questions|
  {
    if questions == [] then v
    else
      var n := |questions| - 1;
      Round(Rounds(v, questions[..n], replies[..n]), questions[n], replies[n])
  }

  /** Rounds on the panel change its log as `Conversation` says, and nothing else but the
      emptied input: in particular no request is left in flight beyond those before. */
  lemma {:induction false} RoundsFollowConversation(v: ChatView, questions: seq<string>, replies: seq<Reply>)
    requires Consistent(v) && |replies| == |questions|
    requires forall k :: 0 <= k < |questions| ==> questions[k] != ""
    ensures Rounds(v, questions, replies) ==
      v.(question := if questions == [] then v.question else "",
         messages := Conversation(v.messages, questions, replies))
    decreases |questions|
  {
    if questions != [] {
      var n := |questions| - 1;
      RoundsFollowConversation(v, questions[..n], replies[..n]);
      RoundAddsQuestionThenAnswer(Rounds(v, questions[..n], replies[..n]), questions[n], replies[n]);
    }
  }

  /** A voice question that fails the first time it is sent cannot be retried:
      `lastAudioSent` is set only by a success, so the retry sends nothing. */
  lemma FailedFirstVoiceQuestionIsNotRetried(v: ChatView, chunks: seq<Chunk>, failure: Reply)
    requires Consistent(v) && !v.isRecording && NoStopQueued(v)
    requires v.lastAudioSent.None? && !failure.Answered?
    ensures var failed := AskByVoice(v, chunks, failure);
      failed.error == Some(CaughtMessage(failure)) &&
      RetryAudio(failed) == failed && RetryAudio(failed).pending == v.pending
  {
    VoiceQuestionGetsOneAnswer(v, chunks, failure);
  }

  /** An answered voice question followed by a failed one: the audio a retry would send
      is still the first, answered one, and no request is left in flight. */
  lemma AnsweredThenFailedVoiceQuestions(v: ChatView, first: seq<Chunk>, second: seq<Chunk>,
                                         answer: string, failure: Reply)
    requires Consistent(v) && !v.isRecording && NoStopQueued(v) && !failure.Answered?
    ensures var failed := AskByVoice(AskByVoice(v, first, Answered(answer)), second, failure);
      failed.lastAudioSent == Some(Blob(first)) && failed.pending == v.pending &&
      failed.error == Some(CaughtMessage(failure))
  {
    VoiceQuestionGetsOneAnswer(v, first, Answered(answer));
    VoiceQuestionGetsOneAnswer(AskByVoice(v, first, Answered(answer)), second, failure);
  }

  /** An answered voice question followed by a failed one leaves both exchanges in the log,
      in order. */
  lemma AnsweredThenFailedLog(v: ChatView, first: seq<Chunk>, second: seq<Chunk>,
                              answer: string, failure: Reply)
    requires Consistent(v) && !v.isRecording && NoStopQueued(v)
    ensures AskByVoice(AskByVoice(v, first, Answered(answer)), second, failure).messages == v.messages +
        [Question(VoiceQuestionText, Some(Blob(first))), Answer(answer),
         Question(VoiceQuestionText, Some(Blob(second))), AnswerTurn(failure, AudioAnswerError)]
  {
    var answered := AskByVoice(v, first, Answered(answer));
    VoiceQuestionGetsOneAnswer(v, first, Answered(answer));
    VoiceQuestionGetsOneAnswer(answered, second, failure);
    AppendTwoPairs(v.messages, Question(VoiceQuestionText, Some(Blob(first))), Answer(answer),
                   Question(VoiceQuestionText, Some(Blob(second))), AnswerTurn(failure, AudioAnswerError));
  }

  lemma AppendTwoPairs<T>(s: seq<T>, a: T, b: T, c: T, d: T)
    ensures s + [a, b] + [c, d] == s + [a, b, c, d]
  {
    assert [a, b] + [c, d] == [a, b, c, d];
  }

  /** After an answered voice question and a failed one, the retry re-sends the first,
      answered audio, not the one that failed; it adds no turn and leaves `audioBlob` null. */
  lemma RetryResendsLastAnsweredAudio(v: ChatView, first: seq<Chunk>, second: seq<Chunk>,
                                      answer: string, failure: Reply)
    requires Consistent(v) && !v.isRecording && NoStopQueued(v) && !failure.Answered?
    ensures var failed := AskByVoice(AskByVoice(v, first, Answered(answer)), second, failure);
      var retried := RetryAudio(failed);
      retried.pending == v.pending + [AskAudio(v.videoUrl, Blob(first))] &&
      retried.messages == failed.messages &&
      retried.lastAudioSent == Some(Blob(first)) &&
      retried.audioBlob == None && retried.error == Some(CaughtMessage(failure))
  {
    AnsweredThenFailedVoiceQuestions(v, first, second, answer, failure);
  }

  /** Replies are not matched to their questions: two typed questions sent one after the
      other whose replies arrive in the reverse order get their answer turns in the order of
      arrival, after both questions. */
  lemma RepliesLandInArrivalOrder(v: ChatView, first: string, second: string,
                                  firstReply: Reply, secondReply: Reply)
    requires Consistent(v) && first != "" && second != ""
    ensures var asked := SubmitQuestion(SubmitQuestion(v.(question := first)).(question := second));
      var n := |v.pending|;
      |asked.pending| == n + 2 &&
      asked.messages == WithQuestion(WithQuestion(v.messages, Question(first, None)), Question(second, None)) &&
      var answered := ReceiveReply(ReceiveReply(asked, n + 1, secondReply), n, firstReply);
      answered.pending == v.pending &&
      answered.messages == asked.messages +
        [AnswerTurn(secondReply, TextAnswerError), AnswerTurn(firstReply, TextAnswerError)]
  {
    var n := |v.pending|;
    var once := SubmitQuestion(v.(question := first));
    var asked := SubmitQuestion(once.(question := second));
    assert asked.pending == v.pending + [AskText(v.videoUrl, first, once.messages), AskText(v.videoUrl, second, asked.messages)];
    var late := ReceiveReply(asked, n + 1, secondReply);
    assert late.pending == v.pending + [AskText(v.videoUrl, first, once.messages)];
    assert late.pending[n].AskText?;
    assert late.pending[..n] + late.pending[n + 1..] == v.pending;
    AppendTwo(asked.messages, AnswerTurn(secondReply, TextAnswerError), AnswerTurn(firstReply, TextAnswerError));
  }

  lemma AppendTwo<T>(s: seq<T>, a: T, b: T)
    ensures s + [a] + [b] == s + [a, b]
  {
  }

  /** A typed question asked and answered while recording is lost when the recording
      stops: the stop handler rebuilds the log from the turns captured when recording
      started, so the log ends as if the round had never happened. */
  lemma RoundDuringRecordingIsOverwritten(v: ChatView, question: string, reply: Reply)
    requires Consistent(v) && !v.isRecording && NoStopQueued(v) && question != ""
    ensures var recording := StartRecorder(v, Granted);
      var during := Round(recording, question, reply);
      Records(during) &&
      during.messages == WithQuestion(v.messages, Question(question, None)) + [AnswerTurn(reply, TextAnswerError)] &&
      FinishRecording(StopRecorder(during)).messages == v.messages + [Question(VoiceQuestionText, Some(Blob([])))]
  {
    var recording := StartRecorder(v, Granted);
    RoundAddsQuestionThenAnswer(recording, question, reply);
  }

  class Chat {
    const videoUrl: string
    var question: string
    var messages: seq<Message>
    var isRecording: bool
    var audioBlob: Option<Blob>
    var lastAudioSent: Option<Blob>
    var error: Option<string>
    /** `mediaRecorderRef.current`, with what its handlers close over. */
    var recorder: Option<Recorder>
    /** Requests sent and not yet answered; their replies may arrive in any order. */
    var pending: seq<Request>

    function View(): ChatView
      reads this
    {
      ChatView(videoUrl, question, messages, isRecording, audioBlob, lastAudioSent, error, recorder, pending)
    }

    ghost predicate Valid()
      reads this
    {
      Consistent(View())
    }

    constructor (videoUrl: string)
      ensures Valid() && this.videoUrl == videoUrl
      ensures View() == InitialChat(videoUrl)
    {
      this.videoUrl := videoUrl;
      question, messages, isRecording := "", [], false;
      audioBlob, lastAudioSent, error := None, None, None;
      recorder, pending := None, [];
    }

    /** `handleInputChange`. */
    method HandleInputChange(text: string)
      requires Valid()
      modifies this`question
      ensures Valid() && View() == old(View()).(question := text)
    {
      question := text;
    }

    /** `handleSubmit`, up to the request. */
    method HandleSubmit()
      requires Valid()
      modifies this`messages, this`pending, this`question
      ensures Valid() && View() == SubmitQuestion(old(View()))
    {
      if question == "" {
        return;
      }
      var updated := WithQuestion(messages, Question(question, None));
      messages := updated;
      pending := pending + [AskText(videoUrl, question, updated)];
      question := "";
    }

    /** `startRecording`. */
    method StartRecording(mic: MicAccess)
      requires Valid() && !isRecording && NoStopQueued(View())
      modifies this`recorder, this`isRecording
      ensures Valid() && View() == StartRecorder(old(View()), mic)
    {
      if mic.Granted? {
        recorder := Some(Recorder(Recording, [], messages, true));
        isRecording := true;
      }
    }

    /** `stopRecording`. */
    method StopRecording()
      requires Valid()
      modifies this`recorder, this`isRecording
      ensures Valid() && View() == StopRecorder(old(View()))
    {
      if recorder.Some? && recorder.value.state == Recording {
        recorder := Some(recorder.value.(state := Inactive));
        isRecording := false;
      }
    }

    /** The record button: it stops while recording and starts otherwise. */
    method ToggleRecording(mic: MicAccess)
      requires Valid() && (isRecording || NoStopQueued(View()))
      modifies this`recorder, this`isRecording
      ensures Valid()
      ensures View() == if old(isRecording) then StopRecorder(old(View())) else StartRecorder(old(View()), mic)
    {
      if isRecording {
        StopRecording();
      } else {
        StartRecording(mic);
      }
    }

    /** The recorder's `dataavailable` handler: `audioChunks.push(event.data)`. */
    method DataAvailable(chunk: Chunk)
      requires Valid() && recorder.Some? && recorder.value.streamLive
      modifies this`recorder
      ensures Valid() && View() == CollectChunk(old(View()), chunk)
    {
      recorder := Some(recorder.value.(chunks := recorder.value.chunks + [chunk]));
    }

    /** The recorder's `onstop` handler. */
    method OnStop()
      requires Valid() && StopQueued(View())
      modifies this`audioBlob, this`messages, this`pending, this`recorder
      ensures Valid() && View() == FinishRecording(old(View()))
    {
      var rec := recorder.value;
      var blob := Blob(rec.chunks);
      audioBlob := Some(blob);
      messages := rec.snapshot + [Question(VoiceQuestionText, Some(blob))];
      SendAudio(blob);
      recorder := Some(rec.(streamLive := false));
    }

    /** `sendAudio`, up to the request. */
    method SendAudio(blob: Blob)
      modifies this`pending
      ensures View() == SendAudioRequest(old(View()), blob)
    {
      pending := pending + [AskAudio(videoUrl, blob)];
    }

    /** The reply to the `k`-th request in flight arrives. */
    method Resolve(k: nat, reply: Reply)
      requires Valid() && k < |pending|
      modifies this`pending, this`messages, this`error, this`lastAudioSent
      ensures Valid() && View() == ReceiveReply(old(View()), k, reply)
    {
      var request := pending[k];
      pending := pending[..k] + pending[k + 1..];
      match request {
        case AskText(_, _, _) =>
          messages := WithAnswer(messages, reply, TextAnswerError);
        case AskAudio(_, blob) =>
          messages := WithAnswer(messages, reply, AudioAnswerError);
          if reply.Answered? {
            error := None;
            lastAudioSent := Some(blob);
          } else {
            error := Some(CaughtMessage(reply));
          }
      }
    }

    /** `retrySendAudio`. */
    method RetrySendAudio()
      requires Valid()
      modifies this`audioBlob, this`pending
      ensures Valid() && View() == RetryAudio(old(View()))
    {
      if lastAudioSent.Some? {
        audioBlob := lastAudioSent;
        SendAudio(lastAudioSent.value);
        audioBlob := None;
      }
    }
  }

  /** The microphone delivering `chunks` to the live recorder of `chat`, one event each. */
  method DeliverChunks(chat: Chat, chunks: seq<Chunk>)
    requires chat.Valid() && chat.recorder.Some? && chat.recorder.value.streamLive
    modifies chat`recorder
    ensures chat.Valid() && chat.View() == CollectChunks(old(chat.View()), chunks)
  {
    ghost var start := chat.View();
    var i := 0;
    while i < |chunks|
      invariant 0 <= i <= |chunks|
      invariant chat.Valid() && chat.recorder.Some? && chat.recorder.value.streamLive
      invariant CollectChunks(chat.View(), chunks[i..]) == CollectChunks(start, chunks)
    {
      assert chunks[i..][1..] == chunks[i + 1..];
      chat.DataAvailable(chunks[i]);
      i := i + 1;
    }
  }

  /** A fresh panel records a voice question with the record button: exactly one voice
      question holding the delivered chunks, exactly one audio request with them, and the
      microphone released. */
  method RecordFirstVoiceQuestion(videoUrl: string, chunks: seq<Chunk>) returns (v: ChatView)
    ensures v.messages == [Question(VoiceQuestionText, Some(Blob(chunks)))]
    ensures v.pending == [AskAudio(videoUrl, Blob(chunks))]
    ensures v.audioBlob == Some(Blob(chunks)) && !v.isRecording && NoStopQueued(v)
  {
    var chat := new Chat(videoUrl);
    chat.ToggleRecording(Granted);
    DeliverChunks(chat, chunks);
    chat.ToggleRecording(Granted);
    chat.OnStop();
    v := chat.View();
    VoiceQuestionRoundTrip(InitialChat(videoUrl), chunks);
  }
}
