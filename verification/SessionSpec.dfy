/** What a player session does, as a state machine over values (MusicPlayerAPI.cc and
    MusicPlayerAPI.h): requests come in one by one, responses and notifications go out through a queue
    with a single writer. Everything that is decided elsewhere is an input: what is read, what the file
    server answers, which downloads end when, and which operations of the audio device succeed.
    SessionLaws says what follows. */
module SessionSpec {
  import opened Wrappers
  import opened Json
  import opened Requests
  import S = SongCacheSpec
  import P = MusicPlayer

  datatype Message =
    | Response(code: nat, id: Json)
    | SongFailed(itemId: string, songId: string)
    | SongStarted(itemId: string)
    | RequestPlaylist
    | FileserverDisconnected
    | Status(playing: bool)

  function Statuses(reports: seq<bool>): (ms: seq<Message>)
    ensures |ms| == |reports| && forall i :: 0 <= i < |reports| ==> ms[i] == Status(reports[i])
  {
    seq(|reports|, i requires 0 <= i < |reports| => Status(reports[i]))
  }

  // ---------------------------------------------------------------------------------------------
  // Writing

  /** The queue and the one message that is being written. `pushed` is everything ever put into the
      queue, `handed` everything ever given to the socket, and `live` what was pushed without what was
      thrown away when the connection was closed. */
  datatype Pipe = Pipe(writeQueue: seq<Message>, writing: Option<Message>, closed: bool,
                       pushed: seq<Message>, live: seq<Message>, handed: seq<Message>)

  /** What is not handed over yet waits in order, and nothing waits while nobody writes. */
  ghost predicate PipeSound(p: Pipe) {
    && (if p.writing.Some? then p.handed != [] && p.handed[|p.handed| - 1] == p.writing.value else p.writeQueue == [])
    && p.handed + p.writeQueue == p.live && (!p.closed ==> p.live == p.pushed)
  }

  /** DoWrite. */
  function Written(p: Pipe): Pipe {
    if p.writeQueue != [] && p.writing == None then
      p.(writing := Some(p.writeQueue[0]), handed := p.handed + [p.writeQueue[0]], writeQueue := p.writeQueue[1..])
    else p
  }

  /** SendResponse and SendNotification. */
  function Pushed(p: Pipe, m: Message): (r: Pipe)
    ensures r.pushed == p.pushed + [m] && r.closed == p.closed && p.handed <= r.handed
    ensures PipeSound(p) ==> PipeSound(r)
  {
    Written(p.(writeQueue := p.writeQueue + [m], pushed := p.pushed + [m], live := p.live + [m]))
  }

  function PushedAll(p: Pipe, ms: seq<Message>): (r: Pipe)
    ensures r.pushed == p.pushed + ms && r.closed == p.closed && p.handed <= r.handed
    ensures PipeSound(p) ==> PipeSound(r)
  {
    if ms == [] then p else Pushed(PushedAll(p, ms[..|ms| - 1]), ms[|ms| - 1])
  }

  /** OnWrite. An aborted write changes nothing. */
  function WriteEnded(p: Pipe, aborted: bool): (r: Pipe)
    ensures r.pushed == p.pushed && r.closed == p.closed && p.handed <= r.handed
    ensures PipeSound(p) && p.writing.Some? ==> PipeSound(r)
  {
    if aborted then p else Written(p.(writing := None))
  }

  /** The end of OnClose: what is still waiting is thrown away. */
  function Drained(p: Pipe): (r: Pipe)
    ensures r.pushed == p.pushed && r.closed && r.writeQueue == [] && r.handed == p.handed
    ensures PipeSound(p) ==> PipeSound(r)
  {
    p.(writeQueue := [], live := p.handed, closed := true)
  }

  // ---------------------------------------------------------------------------------------------
  // The state

  /** What the read loop counts. `judged` says of every payload handled whether it was counted as a
      failure, `asked` are the ids of the requests handled, and `rejected` is how often the connection
      was closed for a bad payload. */
  datatype Tally = Tally(failCounter: nat, reading: bool, rejected: nat, judged: seq<bool>, asked: seq<Json>)

  /** `waits` is how often waitingForQueue was set; `base` is the queue as it was last updated, and
      `mark` how many messages had been pushed before. */
  datatype State = State(pipe: Pipe, tally: Tally, player: P.Player, cache: Option<S.State>, playing: bool,
                         waitingForQueue: bool, currentSong: Option<string>,
                         waits: nat, base: seq<S.QueueItem>, mark: nat)

  const INITIAL := State(Pipe([], None, false, [], [], []), Tally(0, true, 0, [], []), P.NEW, None, false, false, None,
                         0, [], 0)

  /** What the environment does during one call of NextSong: the downloads that end each time it sleeps,
      and the answer of the file server to its ping. */
  datatype Pull = Pull(naps: seq<seq<S.Completion>>, online: bool)

  /** What the environment does during one step: the answer of the file server when the player is
      initialised, the calls of NextSong one after the other, and the audio device. */
  datatype World = World(online: bool, pulls: seq<Pull>, device: P.Device)

  function Say(st: State, m: Message): State {
    st.(pipe := Pushed(st.pipe, m))
  }

  function SayAll(st: State, ms: seq<Message>): State {
    st.(pipe := PushedAll(st.pipe, ms))
  }

  /** What the player does and reports. */
  function Plays(st: State, played: P.Played): State {
    SayAll(st.(player := played.player), Statuses(played.reports))
  }

  /** An action and its response code. */
  datatype Done = Done(st: State, rtc: nat)

  // ---------------------------------------------------------------------------------------------
  // Songs

  /** What became of a position that the queue gave up: its item was let go, reported as failed, or was
      the last that NextSong looked at. */
  datatype Fate = Absent | LetGo(item: S.Item) | Failed(item: S.Item) | Final(item: S.Item)

  datatype Songs = Songs(st: State, outcome: S.Outcome, fates: seq<Fate>)

  function FateOf(met: S.Met): Fate {
    match met
    case Missing => Absent
    case Dropped(_, item) => LetGo(item)
  }

  function Fates(r: S.NextResult): (fates: seq<Fate>)
    ensures |fates| == |r.met| + if r.last.Some? then 1 else 0
    ensures forall i :: 0 <= i < |r.met| ==> fates[i] == FateOf(r.met[i])
  {
    seq(|r.met|, i requires 0 <= i < |r.met| => FateOf(r.met[i])) +
    match r.last
    case None => []
    case Some(item) => [if r.outcome.FailedToLoad? then Failed(item) else Final(item)]
  }

  function FirstPull(pulls: seq<Pull>): Pull {
    if pulls == [] then Pull([], true) else pulls[0]
  }

  function LaterPulls(pulls: seq<Pull>): seq<Pull> {
    if pulls == [] then [] else pulls[1..]
  }

  /** The loop of OpenNextSong: each item that failed is reported, until an item is ready or the queue
      gives no more. */
  function TakeSongs(st: State, pulls: seq<Pull>): (r: Songs)
    requires st.cache.Some?
    ensures r.st.cache.Some? && !r.outcome.FailedToLoad?
    ensures r.outcome.Returned? ==> r.outcome.handle < |r.st.cache.value.items|
    decreases |st.cache.value.queue|
  {
    var r := S.NextSong(st.cache.value, FirstPull(pulls).naps, FirstPull(pulls).online);
    var st' := st.(cache := Some(r.st));
    match r.outcome
    case FailedToLoad(songId, itemId) =>
      var rest := TakeSongs(Say(st', SongFailed(itemId, songId)), LaterPulls(pulls));
      rest.(fates := Fates(r) + rest.fates)
    case _ => Songs(st', r.outcome, Fates(r))
  }

  /** How an attempt to open the next song ends. */
  datatype Opening = Started(itemId: string) | QueueEmpty | ServerGone

  /** The song becomes the current one, and is reported once the player has opened it. */
  function OpenIt(st: State, itemId: string, d: P.Device): State {
    Say(Plays(st.(currentSong := Some(itemId)), P.Opened(P.Called(st.player, P.OpenCall), d)), SongStarted(itemId))
  }

  function OpenNextSong(st: State, w: World): (r: (State, Opening))
    requires st.cache.Some?
    ensures r.0.cache.Some?
  {
    var r := TakeSongs(st, w.pulls);
    match r.outcome
    case Returned(h) =>
      var itemId := r.st.cache.value.items[h].itemId;
      (OpenIt(r.st, itemId, w.device), Started(itemId))
    case EmptyQueue => (r.st, QueueEmpty)
    case _ => (r.st, ServerGone)
  }

  // ---------------------------------------------------------------------------------------------
  // Actions

  /** ResetPlayer. It leaves waitingForQueue as it is. */
  function ResetPlayer(st: State, d: P.Device): State {
    if st.cache == None then st
    else
      Plays(st, P.Closed(P.Called(st.player, P.CloseCall), d)).(playing := false, currentSong := None, cache := None)
  }

  function RequestPlaylistSong(st: State): State
    requires st.cache.Some?
  {
    if |st.cache.value.queue| >= 3 then st else Say(st, RequestPlaylist)
  }

  function WaitForQueue(st: State): State
    requires st.cache.Some?
  {
    RequestPlaylistSong(st.(waitingForQueue := true, waits := st.waits + 1))
  }

  function LoseServer(st: State, d: P.Device): State {
    Say(ResetPlayer(st, d), FileserverDisconnected)
  }

  function StartPlayer(st: State, d: P.Device): State {
    Plays(st, P.Started(P.Called(st.player, P.PlayCall), d))
  }

  /** OpenNextSong, with what is done about an empty queue and a lost server. */
  function OpenOrWait(st: State, w: World): (State, Opening)
    requires st.cache.Some?
  {
    var (st', opening) := OpenNextSong(st, w);
    match opening
    case Started(_) => (st', opening)
    case QueueEmpty => (WaitForQueue(st'), opening)
    case ServerGone => (LoseServer(st', w.device), opening)
  }

  function NextAction(st: State, w: World): Done {
    if st.cache == None then Done(st, FILESERVER_NOT_SET)
    else
      var (st', opening) := OpenOrWait(st, w);
      if opening == ServerGone then Done(st', FILESERVER_NOT_SET)
      else Done(if opening.Started? && st'.playing then StartPlayer(st', w.device) else st', OK)
  }

  /** The end of PlayAction. */
  function PlayOpen(st: State, songOpen: bool, d: P.Device): State {
    if st.playing then st
    else if songOpen then StartPlayer(st.(playing := true), d)
    else st.(playing := true)
  }

  function PlayAction(st: State, w: World): Done {
    if st.cache == None then Done(st, FILESERVER_NOT_SET)
    else if st.currentSong.Some? then Done(PlayOpen(st, true, w.device), OK)
    else
      var (st', opening) := OpenOrWait(st, w);
      if opening == ServerGone then Done(st', FILESERVER_NOT_SET)
      else Done(PlayOpen(st', opening.Started?, w.device), OK)
  }

  function PauseAction(st: State, d: P.Device): Done {
    if st.cache == None then Done(st, FILESERVER_NOT_SET)
    else Done(Plays(st, P.Stopped(P.Called(st.player, P.PauseCall), d)).(playing := false), OK)
  }

  function ResetAction(st: State, d: P.Device): Done {
    Done(ResetPlayer(st, d), OK)
  }

  /** The old cache, if there is one, is dropped without a reset; what is playing goes on. */
  function InitializeAction(st: State, payload: map<string, Json>, online: bool): Done {
    if !HasString(payload, "url") then Done(st, MALFORMED_REQUEST)
    else
      var st' := st.(cache := Some(S.INITIAL), base := [], mark := |st.pipe.pushed|);
      if online then Done(RequestPlaylistSong(st'.(player := st'.player.(hasCallbacks := true))), OK)
      else Done(st', FILESERVER_UNREACHABLE)
  }

  function VolumeAction(st: State, payload: map<string, Json>): Done {
    if VolumeOk(payload) then Done(st.(player := st.player.(volume := payload["volume"].n)), OK)
    else Done(st, MALFORMED_REQUEST)
  }

  /** The queue is replaced and the cache brought up to date. */
  function TakeQueue(st: State, queue: seq<S.QueueItem>): State
    requires st.cache.Some?
  {
    st.(cache := Some(S.UpdateQueue(st.cache.value, queue)), base := queue, mark := |st.pipe.pushed|)
  }

  function UpdateQueueAction(st: State, payload: map<string, Json>, w: World): Done {
    if st.cache == None then Done(st, FILESERVER_NOT_SET)
    else if !HasQueue(payload) then Done(st, MALFORMED_REQUEST)
    else
      var st' := TakeQueue(st, QueueOf(payload));
      if st'.waitingForQueue then Done(NextAction(st'.(waitingForQueue := false), w).st, OK)
      else Done(RequestPlaylistSong(st'), OK)
  }

  // ---------------------------------------------------------------------------------------------
  // Requests and events

  function CountedFailure(st: State): State {
    st.(tally := st.tally.(failCounter := st.tally.failCounter + 1))
  }

  /** The actions that take parameters; without them nothing happens. */
  function ParamsAction(st: State, action: ActionEnum, request: map<string, Json>, w: World): Done {
    if !HasParams(request) then Done(st, OK)
    else
      var payload := request["params"].fields;
      if action == UPDATE_QUEUE then UpdateQueueAction(st, payload, w)
      else if action == INITIALIZE then InitializeAction(st, payload, w.online)
      else if action == VOLUME then VolumeAction(st, payload)
      else Done(CountedFailure(st), NOT_SUPPORTED_ACTION)
  }

  /** HandleRequest up to the response. */
  function Dispatch(st: State, request: map<string, Json>, w: World): Done {
    if !HasHeader(request) then Done(st, MALFORMED_REQUEST)
    else if !HasString(request, "method") then Done(CountedFailure(st), MALFORMED_REQUEST)
    else
      var action := GetAction(request["method"].s);
      if action == NOT_SUPPORTED then Done(CountedFailure(st), NOT_SUPPORTED_ACTION)
      else if action == PLAY then PlayAction(st, w)
      else if action == PAUSE then PauseAction(st, w.device)
      else if action == NEXT then NextAction(st, w)
      else if action == RESET then ResetAction(st, w.device)
      else ParamsAction(st, action, request, w)
  }

  /** The response goes out, and without a new failure the counter starts again. */
  function Answer(st: State, failAtStart: nat, rtc: nat, request: map<string, Json>): State {
    var t := st.tally;
    Say(st, Response(rtc, IdOf(request))).(tally := t.(failCounter := if failAtStart == t.failCounter then 0 else t.failCounter,
                                                       judged := t.judged + [Counted(Some(Object(request)))],
                                                       asked := t.asked + [IdOf(request)]))
  }

  function HandleRequest(st: State, request: map<string, Json>, w: World): State {
    var done := Dispatch(st, request, w);
    Answer(done.st, st.tally.failCounter, done.rtc, request)
  }

  datatype ReadResult = ReadOk | ReadClosed | ReadAborted | ReadFailed

  /** The end of OnRead: three failures in a row close the connection; otherwise what waits is written
      and the next payload is read. */
  function CloseOrRead(st: State): State {
    if st.tally.failCounter >= 3 then st.(tally := st.tally.(reading := false, rejected := st.tally.rejected + 1))
    else st.(pipe := Written(st.pipe), tally := st.tally.(reading := true))
  }

  function OnClose(st: State, d: P.Device): State {
    var st' := ResetPlayer(st, d);
    st'.(pipe := Drained(st'.pipe))
  }

  /** OnRead. A payload is None when it is not JSON. An error other than the two that end the read loop
      is followed by the handling of whatever the buffer holds. */
  function OnRead(st: State, result: ReadResult, payload: Option<Json>, w: World): State {
    var idle := st.(tally := st.tally.(reading := false));
    if result == ReadClosed then OnClose(idle, w.device)
    else if result == ReadAborted then idle
    else
      match payload
      case Some(Object(request)) => CloseOrRead(HandleRequest(idle, request, w))
      case _ =>
        CloseOrRead(CountedFailure(idle).(tally := CountedFailure(idle).tally.(judged := st.tally.judged + [Counted(payload)])))
  }

  /** What may happen to a session. */
  datatype Event =
    | Read(result: ReadResult, payload: Option<Json>, w: World)
    | WriteEnds(aborted: bool)
    | SongOver(w: World)
    | DownloadEnds(c: S.Completion)
    | Decoding
    | Close(d: P.Device)

  /** What does not apply changes nothing: nothing is read unless a read is outstanding, and no write
      ends unless one is under way. */
  function Step(st: State, e: Event): State {
    match e
    case Read(result, payload, w) => if st.tally.reading then OnRead(st, result, payload, w) else st
    case WriteEnds(aborted) => if st.pipe.writing.Some? then st.(pipe := WriteEnded(st.pipe, aborted)) else st
    case SongOver(w) => NextAction(st, w).st
    case DownloadEnds(c) => if st.cache.Some? then st.(cache := Some(S.Complete(st.cache.value, c))) else st
    case Decoding => Plays(st, P.Report(st.player, st.player.status == P.PLAYING))
    case Close(d) => OnClose(st, d)
  }

  /** The session after these events, the last of them at the end. */
  function Run(events: seq<Event>): State {
    if events == [] then INITIAL else Step(Run(events[..|events| - 1]), events[|events| - 1])
  }
}
