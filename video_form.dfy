/** The video URL form (the `VideoForm` component): it checks its input and the stored
    client id, sends the transcription request, classifies the backend's reply into a call
    of the session's `handleVideoSubmit`, and always resets itself afterwards. */
module VideoFormState {
  import opened Browser
  import opened AppState

  // Messages of the transcription endpoint.
  const StartedPrefix := "Transcrição iniciada."
  const AlreadyExists := "Transcrição já existe"

  // Texts the form shows.
  const MissingClientId := "Erro: Client ID não encontrado."
  const Sending := "Enviando requisição..."
  const DefaultSubmitError := "Erro ao enviar a URL do vídeo."
  const RequestError := "Erro ao enviar a requisição."

  /** What the transcription request yields: an ok reply with its fields (each possibly
      absent), a non-ok reply with its `detail`, or an exception. */
  datatype SubmitReply =
    | SubmitOk(message: Option<string>, taskId: Option<string>,
               transcription: Option<string>, summary: Option<string>)
    | SubmitNotOk(detail: Option<string>)
    | SubmitThrows

  /** The request in flight: the URL and the client id it was sent with. */
  datatype SubmitRequest = SubmitRequest(videoUrl: string, clientId: string)

  /** How a submit ended before any request: an alert for an empty URL, the missing client id,
      or a request sent. */
  datatype SubmitStart = EmptyUrl | NoClientId | Sent

  datatype MessageKind = TaskStarted | CachedResult | Unrecognised

  /** How the form reads the `message` of an ok reply. */
  function Classify(message: string): (k: MessageKind)
    ensures k == TaskStarted <==> StartsWith(message, StartedPrefix)
    ensures k == CachedResult <==> message == AlreadyExists
  {
    if StartsWith(message, StartedPrefix) then
      assert message != AlreadyExists by {
        assert AlreadyExists[12] == 'j' && StartedPrefix[12] == 'i';
        assert message[12] == StartedPrefix[12];
      }
      TaskStarted
    else if message == AlreadyExists then CachedResult
    else Unrecognised
  }

  /** What the reply to the request sent for `url` does to the session, before the form's
      own `finally` step. A missing `message` makes `message.startsWith` throw, which the
      form handles like any other exception. */
  function ApplyReply(v: AppView, url: string, reply: SubmitReply): (r: AppView)
    requires Settled(v)
    ensures Settled(r)
    // a started task: handleVideoSubmit(null, null, message, url, task_id)
    ensures reply.SubmitOk? && reply.message.Some? && Classify(reply.message.value) == TaskStarted ==>
      r == SubmitVideo(v, None, None, reply.message.value, url, reply.taskId)
    // a cached result: the status is set, then handleVideoSubmit(transcription, summary, message, url, null)
    ensures reply.SubmitOk? && reply.message == Some(AlreadyExists) ==>
      r == SubmitVideo(v.(status := AlreadyExists), reply.transcription, reply.summary,
                       AlreadyExists, url, None)
    // any other ok message: neither
    ensures reply.SubmitOk? && reply.message.Some? && Classify(reply.message.value) == Unrecognised ==>
      r == v
    ensures reply.SubmitNotOk? ==>
      r == v.(status := if Truthy(reply.detail) then reply.detail.value else DefaultSubmitError)
    ensures reply.SubmitThrows? || (reply.SubmitOk? && reply.message.None?) ==>
      r == v.(status := RequestError)
  {
    match reply
    case SubmitOk(message, taskId, transcription, summary) =>
      if message.None? then v.(status := RequestError)
      else (
        match Classify(message.value)
        case TaskStarted => SubmitVideo(v, None, None, message.value, url, taskId)
        case CachedResult =>
          SubmitVideo(v.(status := message.value), transcription, summary, message.value, url, None)
        case Unrecognised => v)
    case SubmitNotOk(detail) =>
      v.(status := if Truthy(detail) then detail.value else DefaultSubmitError)
    case SubmitThrows => v.(status := RequestError)
  }

  class VideoForm {
    var tempVideoUrl: string
    var loading: bool
    var inputKey: int
    /** The transcription request awaiting its reply. */
    var inFlight: Option<SubmitRequest>
    /** The session whose setters and `handleVideoSubmit` the form receives as props; the
        form reads the client id from the same `localStorage`, `parent.storage`. */
    const parent: App

    ghost predicate Valid()
      reads this, parent
    {
      parent.Valid() && (loading <==> inFlight.Some?)
    }

    constructor (parent: App)
      requires parent.Valid()
      ensures Valid() && this.parent == parent
      ensures tempVideoUrl == "" && !loading && inputKey == 0 && inFlight == None
    {
      this.parent := parent;
      tempVideoUrl, loading, inputKey, inFlight := "", false, 0, None;
    }

    /** `handleInputChange`. */
    method HandleInputChange(text: string)
      modifies this`tempVideoUrl
      ensures tempVideoUrl == text
    {
      tempVideoUrl := text;
    }

    /** The synchronous part of `handleSubmit`: the two guards, in this order, then the
        state set before the request is sent. The input and the button are disabled while
        loading, so no submit happens then. */
    method HandleSubmit() returns (start: SubmitStart)
      requires Valid() && !loading
      modifies this, parent
      ensures Valid()
      ensures old(tempVideoUrl) == "" ==>
        start == EmptyUrl && unchanged(this) && parent.View() == old(parent.View())
      ensures old(tempVideoUrl) != "" && !Truthy(parent.storage.GetItem(ClientIdKey)) ==>
        start == NoClientId && unchanged(this) &&
        parent.View() == old(parent.View()).(status := MissingClientId)
      ensures old(tempVideoUrl) != "" && Truthy(parent.storage.GetItem(ClientIdKey)) ==>
        start == Sent && loading &&
        inFlight == Some(SubmitRequest(old(tempVideoUrl), parent.storage.GetItem(ClientIdKey).value)) &&
        tempVideoUrl == old(tempVideoUrl) && inputKey == old(inputKey) &&
        parent.View() == old(parent.View()).(status := Sending, videoUrl := old(tempVideoUrl))
    {
      var clientId := parent.storage.GetItem(ClientIdKey);
      if tempVideoUrl == "" {
        return EmptyUrl;
      }
      if !Truthy(clientId) {
        parent.status := MissingClientId;
        return NoClientId;
      }
      loading := true;
      parent.status := Sending;
      parent.videoUrl := tempVideoUrl;
      inFlight := Some(SubmitRequest(tempVideoUrl, clientId.value));
      start := Sent;
    }

    /** The rest of `handleSubmit`, once the reply has arrived: the reply's effect on the
        session, then the `finally` step, whatever the reply. */
    method OnReply(reply: SubmitReply)
      requires Valid() && inFlight.Some?
      modifies this, parent
      ensures Valid()
      ensures parent.View() == ApplyReply(old(parent.View()), old(inFlight).value.videoUrl, reply)
      ensures tempVideoUrl == "" && inputKey == old(inputKey) + 1 && !loading && inFlight == None
    {
      var url := inFlight.value.videoUrl;
      match reply {
        case SubmitOk(message, taskId, transcription, summary) =>
          if message.None? {
            parent.status := RequestError;
          } else if StartsWith(message.value, StartedPrefix) {
            parent.HandleVideoSubmit(None, None, message.value, url, taskId);
          } else if message.value == AlreadyExists {
            parent.status := message.value;
            parent.HandleVideoSubmit(transcription, summary, message.value, url, None);
          }
        case SubmitNotOk(detail) =>
          parent.status := if Truthy(detail) then detail.value else DefaultSubmitError;
        case SubmitThrows =>
          parent.status := RequestError;
      }
      tempVideoUrl := "";
      inputKey := inputKey + 1;
      loading := false;
      inFlight := None;
    }
  }

  /** A fresh page with no client id in storage: whatever the URL, no request is sent; an
      empty URL is refused first and leaves the status alone. */
  method SubmitWithoutClientId(url: string) returns (start: SubmitStart, status: string)
    ensures url == "" ==> start == EmptyUrl && status == ""
    ensures url != "" ==> start == NoClientId && status == MissingClientId
  {
    var storage := new LocalStorage(map[]);
    var app := new App(storage);
    var form := new VideoForm(app);
    form.HandleInputChange(url);
    start := form.HandleSubmit();
    status := app.status;
  }

  /** A fresh page loads (creating its client id), submits `url`, and the backend reports a
      cached result: the result is shown at once and no polling starts. */
  method SubmitCachedVideo(randomText: string, url: string, transcription: string, summary: string)
    returns (v: AppView)
    requires url != "" && transcription != ""
    ensures v.transcription == Some(transcription) && v.summary == Some(summary)
    ensures v.status == AlreadyExists && v.videoUrl == url
    ensures v.currentTask == None && v.timer == None
    ensures v.statusQueries == [] && v.resultsQueries == []
    ensures summary != "" ==> ShowsSummary(v) && ShowsChat(v)
  {
    var storage := new LocalStorage(map[]);
    var app := new App(storage);
    app.InitClientId(randomText);
    var form := new VideoForm(app);
    form.HandleInputChange(url);
    var start := form.HandleSubmit();
    form.OnReply(SubmitOk(Some(AlreadyExists), None, Some(transcription), Some(summary)));
    v := app.View();
  }

  /** A fresh page submits `url`, the backend starts task `taskId`, and the interval then
      fires once per reply in `replies` for as long as it stays armed. It fires up to and
      including the first terminal reply, every query is for `taskId`, and exactly one
      results query, for `url`, is sent when and only when that reply is a success. */
  method SubmitAndPoll(randomText: string, url: string, taskId: string,
                       replies: seq<StatusReply>, results: ResultsReply)
    returns (polls: seq<string>, fetches: seq<string>)
    requires url != "" && taskId != ""
    ensures polls == Repeat(taskId, PollCount(replies))
    ensures fetches == if EndsInSuccess(replies) then [url] else []
  {
    var storage := new LocalStorage(map[]);
    var app := new App(storage);
    app.InitClientId(randomText);
    var form := new VideoForm(app);
    form.HandleInputChange(url);
    var start := form.HandleSubmit();
    form.OnReply(SubmitOk(Some(StartedPrefix), Some(taskId), None, None));
    ghost var armed := app.View();
    assert armed.timer == Some(Task(taskId, url)) && armed.statusQueries == [] && armed.resultsQueries == [];
    RunPollingQueriesTask(armed, replies, results);
    RunPollingFetchesOnSuccess(armed, replies, results);
    FireInterval(app, replies, results);
    polls, fetches := app.statusQueries, app.resultsQueries;
  }

  /** The backend starts task "T1" for "http://v/2" and answers PENDING twice, then SUCCESS:
      three queries, then exactly one results query for "http://v/2". */
  method PendingTwiceThenSuccess(randomText: string, results: ResultsReply)
    returns (polls: seq<string>, fetches: seq<string>)
    ensures polls == ["T1", "T1", "T1"] && fetches == ["http://v/2"]
  {
    var pending := Reply(Some("PENDING"));
    var replies := [pending, pending, Reply(Some(SuccessCode))];
    assert PollCount(replies[2..]) == 1;
    assert PollCount(replies[1..]) == 2;
    polls, fetches := SubmitAndPoll(randomText, "http://v/2", "T1", replies, results);
    assert Repeat("T1", 3) == ["T1", "T1", "T1"];
  }
}
