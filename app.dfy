/** The top-level session of the client (the `App` component): the per-browser client id,
    the display state (transcription, summary, status, video URL), the one task being polled,
    and the handlers that move this state when a video is submitted, when the polling timer
    fires, and when the results of a finished task arrive. */
module AppState {
  import opened Browser

  /** The localStorage key the client id is kept under. */
  const ClientIdKey := "clientId"
  const ClientIdPrefix := "client-"

  // Status texts shown by the session.
  const Processing := "Processando..."
  const TranscriptionDone := "Transcrição concluída!"
  const ResultsLoadError := "Erro ao carregar transcrição e resumo."
  const TaskFailed := "Erro ao processar a transcrição."
  const StatusCheckError := "Erro ao verificar o status."

  // Task states reported by the status endpoint.
  const SuccessCode := "SUCCESS"
  const FailureCode := "FAILURE"

  /** The task being tracked: its backend id and the video it transcribes. */
  datatype Task = Task(taskId: string, videoUrl: string)

  /** What one status query yields: the `status` field of the reply (absent when the reply
      has none), or an exception from the network or from decoding the reply. */
  datatype StatusReply = Reply(status: Option<string>) | PollThrows

  /** What the results query yields: an ok reply with its two fields, a non-ok reply, or an
      exception. */
  datatype ResultsReply =
    | ResultsOk(transcription: Option<string>, summary: Option<string>)
    | ResultsNotOk
    | ResultsThrows

  /** Every field of the session, plus the polling timer and the queries sent so far.
      `timer` is the task the live interval polls (None when no interval is armed). */
  datatype AppView = AppView(
    transcription: Option<string>,
    summary: Option<string>,
    status: string,
    currentTask: Option<Task>,
    clientId: Option<string>,
    videoUrl: string,
    timer: Option<Task>,
    statusQueries: seq<string>,
    resultsQueries: seq<string>)

  const InitialView := AppView(Some(""), Some(""), "", None, None, "", None, [], [])

  /** The polling effect has caught up with the current task: an interval is armed exactly
      while there is a current task, and it polls that task. Since `timer` holds at most one
      task, at most one interval is ever live. */
  predicate Settled(v: AppView) {
    v.timer == v.currentTask
  }

  // Rendering conditions of the component.
  predicate ShowsStatus(v: AppView) { v.status != "" }
  predicate ShowsSummary(v: AppView) { Truthy(v.transcription) && Truthy(v.summary) }
  predicate ShowsChat(v: AppView): (shown: bool)
    // whenever the chat shows, so does the summary, unless the transcription is empty
    ensures shown ==> (ShowsSummary(v) <==> Truthy(v.transcription))
  {
    Truthy(v.summary) && v.videoUrl != ""
  }

  /** The id `generateClientId` produces from the text of `Math.random().toString(36)`:
      the prefix `client-` followed by at most 13 characters taken from position 2 on. */
  function NewClientId(randomText: string): (id: string)
    ensures StartsWith(id, ClientIdPrefix) && id != ""
    ensures |id| <= |ClientIdPrefix| + 13
    ensures 2 <= |randomText| ==> id[|ClientIdPrefix|..] == randomText[2..Min(15, |randomText|)]
  {
    ClientIdPrefix + Substring(randomText, 2, 15)
  }

  /** `handleVideoSubmit`: the setters of the handler applied in order (the last write to a
      field wins), followed by the polling effect, which re-runs because the task changed. */
  function SubmitVideo(v: AppView, transcription: Option<string>, summary: Option<string>,
                       message: string, url: string, newTaskId: Option<string>): (r: AppView)
    requires Settled(v)
    ensures Settled(r)
    // a cached result: shown at once, no task and so no polling
    ensures Truthy(transcription) && !Truthy(newTaskId) ==>
      r.transcription == transcription && r.summary == summary && r.status == message &&
      r.currentTask == None && r.timer == None && r.videoUrl == url
    // a new task: display cleared, the task is tracked and polled
    ensures Truthy(newTaskId) ==>
      r.currentTask == Some(Task(newTaskId.value, url)) && r.timer == r.currentTask &&
      r.status == Processing && r.videoUrl == url
    ensures !Truthy(transcription) ==>
      r.transcription == Some("") && r.summary == Some("") && r.status == Processing &&
      !ShowsSummary(r) && !ShowsChat(r)
    // neither: only the display is cleared, the current task is kept
    ensures !Truthy(transcription) && !Truthy(newTaskId) ==>
      r.currentTask == v.currentTask && r.videoUrl == ""
    // both: the result is shown while the new task is polled
    ensures Truthy(transcription) && Truthy(newTaskId) ==>
      r.transcription == transcription && r.summary == summary
    ensures r.clientId == v.clientId && r.statusQueries == v.statusQueries &&
            r.resultsQueries == v.resultsQueries
  {
    var cleared := v.(status := Processing, transcription := Some(""), summary := Some(""), videoUrl := "");
    var cached :=
      if Truthy(transcription) then
        cleared.(transcription := transcription, summary := summary, status := message,
                 currentTask := None, videoUrl := url)
      else cleared;
    var tracked :=
      if Truthy(newTaskId) then
        cached.(currentTask := Some(Task(newTaskId.value, url)), status := Processing, videoUrl := url)
      else cached;
    tracked.(timer := tracked.currentTask)
  }

  /** `fetchTranscriptionAndSummary(url)`: one results query; an ok reply replaces the
      transcription and the summary, anything else only sets the error status. */
  function ReceiveResults(v: AppView, url: string, reply: ResultsReply): (r: AppView)
    ensures r.resultsQueries == v.resultsQueries + [url]
    ensures reply.ResultsOk? ==>
      r.transcription == reply.transcription && r.summary == reply.summary && r.status == v.status
    ensures !reply.ResultsOk? ==>
      r.transcription == v.transcription && r.summary == v.summary && r.status == ResultsLoadError &&
      ShowsStatus(r)
    ensures r.currentTask == v.currentTask && r.timer == v.timer && r.videoUrl == v.videoUrl &&
            r.clientId == v.clientId && r.statusQueries == v.statusQueries
  {
    var queried := v.(resultsQueries := v.resultsQueries + [url]);
    if reply.ResultsOk? then queried.(transcription := reply.transcription, summary := reply.summary)
    else queried.(status := ResultsLoadError)
  }

  predicate IsSuccess(reply: StatusReply) { reply == Reply(Some(SuccessCode)) }
  predicate IsFailure(reply: StatusReply) { reply == Reply(Some(FailureCode)) }
  predicate IsTerminal(reply: StatusReply) { IsSuccess(reply) || IsFailure(reply) }

  /** One tick of the polling interval, `checkTaskStatus`, on the task the interval was armed
      for. A success clears the task and issues the results query for its video (or reports
      the error when the task has no video URL); a failure clears the task; any other status,
      and an exception, leave the task and so the polling in place. */
  function Poll(v: AppView, reply: StatusReply, results: ResultsReply): (r: AppView)
    requires Settled(v) && v.timer.Some?
    ensures Settled(r)
    ensures r.statusQueries == v.statusQueries + [v.timer.value.taskId]
    // every tick leaves a status line on screen
    ensures ShowsStatus(r)
    ensures IsTerminal(reply) <==> r.currentTask == None
    ensures IsSuccess(reply) && v.timer.value.videoUrl != "" ==>
      r.resultsQueries == v.resultsQueries + [v.timer.value.videoUrl] &&
      r.status == (if results.ResultsOk? then TranscriptionDone else ResultsLoadError)
    ensures IsSuccess(reply) && results.ResultsOk? && v.timer.value.videoUrl != "" ==>
      r.transcription == results.transcription && r.summary == results.summary
    ensures IsSuccess(reply) && v.timer.value.videoUrl == "" ==>
      r.resultsQueries == v.resultsQueries && r.status == ResultsLoadError
    ensures IsFailure(reply) ==>
      r.status == TaskFailed && r.resultsQueries == v.resultsQueries
    ensures !IsTerminal(reply) ==>
      r.currentTask == v.currentTask && r.resultsQueries == v.resultsQueries &&
      r.status == (if reply.PollThrows? then StatusCheckError else Processing)
    ensures !(IsSuccess(reply) && results.ResultsOk? && v.timer.value.videoUrl != "") ==>
      r.transcription == v.transcription && r.summary == v.summary
    ensures r.videoUrl == v.videoUrl && r.clientId == v.clientId
  {
    var task := v.timer.value;
    var polled := v.(statusQueries := v.statusQueries + [task.taskId]);
    if reply.PollThrows? then polled.(status := StatusCheckError)
    else if reply.status == Some(SuccessCode) then
      var done := polled.(status := TranscriptionDone);
      var loaded :=
        if task.videoUrl != "" then ReceiveResults(done, task.videoUrl, results)
        else done.(status := ResultsLoadError);
      loaded.(currentTask := None, timer := None)
    else if reply.status == Some(FailureCode) then
      polled.(currentTask := None, status := TaskFailed, timer := None)
    else polled.(status := Processing)
  }

  /** A success whose results query returns a transcription and a summary shows the summary
      and, for a session with a video URL, the chat panel. */
  lemma SuccessShowsSummaryAndChat(v: AppView, transcription: string, summary: string)
    requires Settled(v) && v.timer.Some? && v.timer.value.videoUrl != ""
    requires transcription != "" && summary != ""
    ensures var r := Poll(v, Reply(Some(SuccessCode)), ResultsOk(Some(transcription), Some(summary)));
      r.status == TranscriptionDone && ShowsSummary(r) && (v.videoUrl != "" ==> ShowsChat(r)) &&
      r.currentTask == None && r.timer == None
  {
  }

  /** How many times the interval fires when the backend answers the status queries with
      `replies` in turn: up to and including the first terminal reply, since that reply
      clears the task and with it the interval. */
  function PollCount(replies: seq<StatusReply>): (n: nat)
    ensures n <= |replies| && (|replies| > 0 ==> n > 0)
    ensures forall k :: 0 <= k < n - 1 ==> !IsTerminal(replies[k])
    ensures n < |replies| ==> IsTerminal(replies[n - 1])
    ensures n == |replies| && n > 0 && !IsTerminal(replies[n - 1]) ==>
      forall k :: 0 <= k < n ==> !IsTerminal(replies[k])
  {
    if replies == [] then 0
    else if IsTerminal(replies[0]) then 1
    else 1 + PollCount(replies[1..])
  }

  /** The polling that `replies` drives ends on a success reply. */
  predicate EndsInSuccess(replies: seq<StatusReply>) {
    PollCount(replies) > 0 && IsSuccess(replies[PollCount(replies) - 1])
  }

  /** The interval firing once per reply in `replies`, for as long as it stays armed: what
      successive calls of `CheckTaskStatus` compute. */
  function RunPolling(v: AppView, replies: seq<StatusReply>, results: ResultsReply): (r: AppView)
    requires Settled(v)
    ensures Settled(r)
    decreases |replies|
  {
    if replies == [] || v.timer.None? then v
    else RunPolling(Poll(v, replies[0], results), replies[1..], results)
  }

  /** `n` copies of `x`. */
  function Repeat(x: string, n: nat): seq<string> {
    if n == 0 then [] else [x] + Repeat(x, n - 1)
  }

  /** A tick of the armed interval, in the terms the polling lemmas need: a terminal reply
      disarms the interval (and the run ends there), any other reply keeps it armed for the
      same task and sends no results query. */
  lemma PollStep(v: AppView, replies: seq<StatusReply>, results: ResultsReply)
    requires Settled(v) && v.timer.Some? && replies != []
    ensures var p := Poll(v, replies[0], results);
            p.statusQueries == v.statusQueries + [v.timer.value.taskId] &&
            (IsTerminal(replies[0]) ==> RunPolling(v, replies, results) == p && p.timer.None?) &&
            (IsSuccess(replies[0]) ==>
               p.resultsQueries == v.resultsQueries +
                 (if v.timer.value.videoUrl != "" then [v.timer.value.videoUrl] else [])) &&
            (!IsSuccess(replies[0]) ==> p.resultsQueries == v.resultsQueries) &&
            (!IsTerminal(replies[0]) ==>
               RunPolling(v, replies, results) == RunPolling(p, replies[1..], results) &&
               p.timer == v.timer)
  {
  }

  /** How `PollCount` and `EndsInSuccess` read a run that starts with a non-terminal reply. */
  lemma PollCountStep(replies: seq<StatusReply>)
    requires replies != [] && !IsTerminal(replies[0])
    ensures PollCount(replies) == 1 + PollCount(replies[1..])
    ensures EndsInSuccess(replies) <==> EndsInSuccess(replies[1..])
    ensures (PollCount(replies) > 0 && IsTerminal(replies[PollCount(replies) - 1])) <==>
            (PollCount(replies[1..]) > 0 && IsTerminal(replies[1..][PollCount(replies[1..]) - 1]))
  {
    var rest := replies[1..];
    assert PollCount(rest) > 0 ==> replies[PollCount(replies) - 1] == rest[PollCount(rest) - 1];
  }

  /** Polling an armed task queries that task once per tick, and it ticks `PollCount(replies)`
      times: up to and including the first terminal reply. */
  lemma {:induction false} RunPollingQueriesTask(v: AppView, replies: seq<StatusReply>,
                                                 results: ResultsReply)
    requires Settled(v) && v.timer.Some?
    ensures RunPolling(v, replies, results).statusQueries ==
            v.statusQueries + Repeat(v.timer.value.taskId, PollCount(replies))
    decreases |replies|
  {
    var id := v.timer.value.taskId;
    if replies != [] {
      PollStep(v, replies, results);
      if IsTerminal(replies[0]) {
        assert Repeat(id, 1) == [id];
      } else {
        var p := Poll(v, replies[0], results);
        RunPollingQueriesTask(p, replies[1..], results);
        PollCountStep(replies);
        assert v.statusQueries + [id] + Repeat(id, PollCount(replies[1..]))
            == v.statusQueries + Repeat(id, PollCount(replies));
      }
    }
  }

  /** Polling an armed task sends one results query, for the task's video, when and only
      when the run ends on a success (none when the task has no video URL). */
  lemma {:induction false} RunPollingFetchesOnSuccess(v: AppView, replies: seq<StatusReply>,
                                                      results: ResultsReply)
    requires Settled(v) && v.timer.Some?
    ensures RunPolling(v, replies, results).resultsQueries == v.resultsQueries +
              (if EndsInSuccess(replies) && v.timer.value.videoUrl != "" then [v.timer.value.videoUrl] else [])
    decreases |replies|
  {
    if replies != [] {
      PollStep(v, replies, results);
      if !IsTerminal(replies[0]) {
        RunPollingFetchesOnSuccess(Poll(v, replies[0], results), replies[1..], results);
        PollCountStep(replies);
      }
    }
  }

  /** The interval stays armed, on the same task, until a terminal reply disarms it. */
  lemma {:induction false} RunPollingStopsAtTerminal(v: AppView, replies: seq<StatusReply>,
                                                     results: ResultsReply)
    requires Settled(v) && v.timer.Some?
    ensures var r := RunPolling(v, replies, results);
            (r.timer.None? <==> PollCount(replies) > 0 && IsTerminal(replies[PollCount(replies) - 1])) &&
            (r.timer.Some? ==> r.timer == v.timer)
    decreases |replies|
  {
    if replies != [] {
      PollStep(v, replies, results);
      if !IsTerminal(replies[0]) {
        RunPollingStopsAtTerminal(Poll(v, replies[0], results), replies[1..], results);
        PollCountStep(replies);
      }
    }
  }

  class App {
    var transcription: Option<string>
    var summary: Option<string>
    var status: string
    var currentTask: Option<Task>
    var clientId: Option<string>
    var videoUrl: string
    /** The task the live polling interval queries; None when no interval is armed. */
    var timer: Option<Task>
    /** Task ids of the status queries sent, in order. */
    var statusQueries: seq<string>
    /** Video URLs of the results queries sent, in order. */
    var resultsQueries: seq<string>
    const storage: LocalStorage

    function View(): AppView
      reads this
    {
      AppView(transcription, summary, status, currentTask, clientId, videoUrl, timer,
              statusQueries, resultsQueries)
    }

    ghost predicate Valid()
      reads this
    {
      Settled(View())
    }

    constructor (storage: LocalStorage)
      ensures Valid() && View() == InitialView && this.storage == storage
    {
      transcription, summary, status := Some(""), Some(""), "";
      currentTask, clientId, videoUrl := None, None, "";
      timer, statusQueries, resultsQueries := None, [], [];
      this.storage := storage;
    }

    /** `generateClientId`: a new id, written to storage and returned. */
    method GenerateClientId(randomText: string) returns (id: string)
      modifies storage
      ensures id == NewClientId(randomText)
      ensures storage.items == old(storage.items)[ClientIdKey := id]
    {
      id := NewClientId(randomText);
      storage.SetItem(ClientIdKey, id);
    }

    /** The mount effect: reuse the stored client id, or generate and store one when none
        (or an empty one) is stored. */
    method InitClientId(randomText: string)
      modifies this, storage
      ensures Truthy(old(storage.GetItem(ClientIdKey))) ==>
        clientId == old(storage.GetItem(ClientIdKey)) && storage.items == old(storage.items)
      ensures !Truthy(old(storage.GetItem(ClientIdKey))) ==>
        clientId == Some(NewClientId(randomText)) &&
        storage.items == old(storage.items)[ClientIdKey := NewClientId(randomText)]
      ensures View() == old(View()).(clientId := clientId)
    {
      var stored := storage.GetItem(ClientIdKey);
      var id;
      if Truthy(stored) {
        id := stored.value;
      } else {
        id := GenerateClientId(randomText);
      }
      clientId := Some(id);
    }

    /** The polling effect, run whenever `currentTask` changes: the cleanup of its previous
        run clears the interval it armed, then an interval is armed for the current task if
        there is one. */
    method RunPollingEffect()
      modifies this`timer
      ensures timer == currentTask
    {
      timer := None;
      if currentTask.Some? {
        timer := currentTask;
      }
    }

    /** `handleVideoSubmit`. */
    method HandleVideoSubmit(transcription: Option<string>, summary: Option<string>,
                             message: string, url: string, newTaskId: Option<string>)
      requires Valid()
      modifies this
      ensures Valid()
      ensures View() == SubmitVideo(old(View()), transcription, summary, message, url, newTaskId)
    {
      ghost var v := old(View());
      status := Processing;
      this.transcription := Some("");
      this.summary := Some("");
      videoUrl := "";
      if Truthy(transcription) {
        this.transcription := transcription;
        this.summary := summary;
        status := message;
        currentTask := None;
        videoUrl := url;
      }
      if Truthy(newTaskId) {
        currentTask := Some(Task(newTaskId.value, url));
        status := Processing;
        videoUrl := url;
      }
      assert View().(timer := currentTask) == SubmitVideo(v, transcription, summary, message, url, newTaskId);
      RunPollingEffect();
    }

    /** `checkTaskStatus`, run by the armed interval on the task it was armed for. */
    method CheckTaskStatus(reply: StatusReply, results: ResultsReply)
      requires Valid() && timer.Some?
      modifies this
      ensures Valid()
      ensures View() == Poll(old(View()), reply, results)
    {
      var task := timer.value;
      statusQueries := statusQueries + [task.taskId];
      if reply.PollThrows? {
        status := StatusCheckError;
      } else if reply.status == Some(SuccessCode) {
        status := TranscriptionDone;
        if task.videoUrl != "" {
          FetchTranscriptionAndSummary(task.videoUrl, results);
        } else {
          status := ResultsLoadError;
        }
        currentTask := None;
        RunPollingEffect();
      } else if reply.status == Some(FailureCode) {
        currentTask := None;
        status := TaskFailed;
        RunPollingEffect();
      } else {
        status := Processing;
      }
    }

    /** `fetchTranscriptionAndSummary`. */
    method FetchTranscriptionAndSummary(url: string, reply: ResultsReply)
      modifies this
      ensures View() == ReceiveResults(old(View()), url, reply)
    {
      resultsQueries := resultsQueries + [url];
      if reply.ResultsOk? {
        transcription := reply.transcription;
        summary := reply.summary;
      } else {
        status := ResultsLoadError;
      }
    }
  }

  /** Two page loads sharing one browser storage: the second load reuses the id the first
      one found or created, whatever its random text. */
  method ReloadKeepsClientId(stored: map<string, string>, firstRandom: string, secondRandom: string)
    returns (first: Option<string>, second: Option<string>)
    ensures first == second && Truthy(first)
    ensures ClientIdKey in stored && stored[ClientIdKey] != "" ==> first == Some(stored[ClientIdKey])
    ensures !(ClientIdKey in stored && stored[ClientIdKey] != "") ==> first == Some(NewClientId(firstRandom))
  {
    var storage := new LocalStorage(stored);
    var load1 := new App(storage);
    load1.InitClientId(firstRandom);
    var load2 := new App(storage);
    load2.InitClientId(secondRandom);
    first, second := load1.clientId, load2.clientId;
  }

  /** The browser firing the armed interval of `app` once per reply in `replies`, until the
      replies run out or a tick clears the interval. */
  method FireInterval(app: App, replies: seq<StatusReply>, results: ResultsReply)
    requires app.Valid()
    modifies app
    ensures app.Valid()
    ensures app.View() == RunPolling(old(app.View()), replies, results)
  {
    ghost var start := app.View();
    var i := 0;
    while i < |replies| && app.timer.Some?
      invariant 0 <= i <= |replies|
      invariant app.Valid()
      invariant RunPolling(app.View(), replies[i..], results) == RunPolling(start, replies, results)
    {
      assert replies[i..][1..] == replies[i + 1..];
      app.CheckTaskStatus(replies[i], results);
      i := i + 1;
    }
  }
}
