/** The player session itself (MusicPlayerAPI.cc and MusicPlayerAPI.h): its fields, changed in place by
    the handlers. Every method does to the ghost field `model` what SessionSpec says, and `Valid` says
    that the fields hold what the model holds. */
module Session {
  import opened Wrappers
  import opened Json
  import opened Requests
  import opened Spec = SessionSpec
  import Laws = SessionLaws
  import opened C = SongCache
  import S = SongCacheSpec
  import P = MusicPlayer

  class Session {
    const player: P.MusicPlayer
    var writeQueue: seq<Message>
    /** The message being written, if there is one. */
    var writeBuffer: Option<Message>
    var writing: bool
    var failCounter: nat
    var closed: bool
    var cache: SongCache?
    var playing: bool
    var waitingForQueue: bool
    var currentSong: SongCacheItem?
    /** A read is outstanding. */
    var reading: bool
    /** How often the connection was closed for a bad payload. */
    var rejected: nat

    ghost var model: State
    /** The items of all downloads that were started. */
    ghost var items: set<SongCacheItem>

    ghost predicate PipeIs(p: Pipe)
      reads this`writeQueue, this`writeBuffer, this`writing, this`closed
    {
      p.writeQueue == writeQueue && p.writing == writeBuffer && (writing <==> writeBuffer.Some?) && p.closed == closed
    }

    ghost predicate CacheIs(c: Option<S.State>)
      reads this`cache, this`items, cache, items
    {
      if cache == null then c == None
      else (forall t :: t in cache.tasks ==> t in items) && cache.Valid() && c == Some(cache.model)
    }

    ghost predicate TallyIs(t: Tally)
      reads this`failCounter, this`reading, this`rejected
    {
      t.failCounter == failCounter && t.reading == reading && t.rejected == rejected
    }

    ghost predicate FlagsAre(st: State)
      reads this`playing, this`waitingForQueue, this`currentSong
    {
      && st.playing == playing && st.waitingForQueue == waitingForQueue
      && st.currentSong == if currentSong == null then None else Some(currentSong.itemId)
    }

    ghost predicate Valid()
      reads this, player, cache, items
    {
      && PipeIs(model.pipe) && CacheIs(model.cache) && TallyIs(model.tally) && FlagsAre(model)
      && model.player == player.View()
    }

    constructor ()
      ensures Valid() && model == INITIAL && fresh(player) && cache == null && items == {}
    {
      player := new P.MusicPlayer();
      writeQueue, writeBuffer, writing, failCounter, closed := [], None, false, 0, false;
      cache, playing, waitingForQueue, currentSong := null, false, false, null;
      reading, rejected := true, 0;
      model, items := INITIAL, {};
    }

    lemma CacheThere()
      requires Valid()
      ensures cache == null <==> model.cache == None
    {
    }

    /** Whatever the session reaches that it did not reach before is new. */
    twostate predicate Grown()
      reads this`cache, this`items
    {
      (cache != null ==> cache == old(cache) || fresh(cache)) && old(items) <= items && fresh(items - old(items))
    }

    // -------------------------------------------------------------------------------------------
    // Writing

    /** The first waiting message goes to the socket, unless a write is under way. */
    method DoWrite()
      requires Valid()
      modifies this`writeQueue, this`writeBuffer, this`writing, this`model
      ensures Valid() && model == old(model).(pipe := Written(old(model).pipe))
    {
      hide Session.CacheIs;
      if |writeQueue| > 0 && !writing {
        model := model.(pipe := Written(model.pipe));
        writeBuffer := Some(writeQueue[0]);
        writeQueue := writeQueue[1..];
        writing := true;
      }
    }

    /** SendResponse and SendNotification: every message goes through the queue. */
    method Push(m: Message)
      requires Valid()
      modifies this`writeQueue, this`writeBuffer, this`writing, this`model
      ensures Valid() && model == Say(old(model), m)
    {
      hide Session.CacheIs, Written;
      writeQueue := writeQueue + [m];
      model := model.(pipe := model.pipe.(writeQueue := model.pipe.writeQueue + [m], pushed := model.pipe.pushed + [m],
                                          live := model.pipe.live + [m]));
      DoWrite();
    }

    /** The socket has finished a write, or the operation was aborted because the connection is gone. */
    method OnWrite(aborted: bool)
      requires Valid() && writing
      modifies this`writeQueue, this`writeBuffer, this`writing, this`model
      ensures Valid() && model == old(model).(pipe := WriteEnded(old(model).pipe, aborted))
    {
      hide Session.CacheIs;
      if aborted {
        return;
      }
      writing := false;
      writeBuffer := None;
      model := model.(pipe := model.pipe.(writing := None));
      if |writeQueue| > 0 {
        DoWrite();
      }
    }

    method SendStatuses(reports: seq<bool>)
      requires Valid()
      modifies this`writeQueue, this`writeBuffer, this`writing, this`model
      ensures Valid() && model == SayAll(old(model), Statuses(reports))
    {
      hide Session.Valid, PushedAll, Pushed;
      var i := 0;
      PushedNone(model.pipe);
      while i < |reports|
        invariant 0 <= i <= |reports| && Valid()
        invariant model == SayAll(old(model), Statuses(reports)[..i])
      {
        PushedMore(old(model).pipe, Statuses(reports), i);
        Push(Status(reports[i]));
        i := i + 1;
      }
      assert Statuses(reports)[..i] == Statuses(reports);
    }

    method RequestPlaylistSong()
      requires Valid() && cache != null
      modifies this`writeQueue, this`writeBuffer, this`writing, this`model
      ensures Valid() && old(model).cache.Some? && model == Spec.RequestPlaylistSong(old(model))
    {
      hide Pushed;
      if !(|cache.queue| >= 3) {
        Push(RequestPlaylist);
      }
    }

    // -------------------------------------------------------------------------------------------
    // Songs

    /** One call of NextSong. */
    method PullSong(pull: Pull) returns (outcome: S.Outcome, song: SongCacheItem?)
      requires Valid() && cache != null
      modifies this`model, this`items, cache, items
      ensures Valid() && Grown() && old(model).cache.Some?
      ensures var r := S.NextSong(old(model).cache.value, pull.naps, pull.online);
              && model == old(model).(cache := Some(r.st)) && outcome == r.outcome
              && (if outcome.Returned? then song != null && song.itemId == r.st.items[outcome.handle].itemId else song == null)
    {
      hide S.NextSong, Session.PipeIs, Session.TallyIs, C.SongCache.Valid;
      outcome, song := cache.NextSong(pull.naps, pull.online);
      items := items + set t | t in cache.tasks;
      model := model.(cache := Some(cache.model));
    }

    /** The song becomes the current one; it is reported once the player has opened it. */
    method OpenIt(song: SongCacheItem, d: P.Device)
      requires Valid()
      modifies this`writeQueue, this`writeBuffer, this`writing, this`model, this`currentSong, player
      ensures Valid() && model == Spec.OpenIt(old(model), song.itemId, d)
    {
      hide Pushed, PushedAll, P.Opened, Session.CacheIs, Session.PipeIs;
      currentSong := song;
      var reports := player.Open(d);
      model := model.(currentSong := Some(song.itemId), player := player.View());
      SendStatuses(reports);
      Push(SongStarted(song.itemId));
    }

    /** Until an item is ready or the queue gives no more, each item that failed is reported. */
    method TakeSong(w: World) returns (outcome: S.Outcome, song: SongCacheItem?)
      requires Valid() && cache != null
      modifies this`writeQueue, this`writeBuffer, this`writing, this`model, this`items, cache, items
      ensures Valid() && Grown() && old(model).cache.Some?
      ensures var r := TakeSongs(old(model), w.pulls);
              && model == r.st && outcome == r.outcome
              && (if outcome.Returned? then
                    song != null && song.itemId == r.st.cache.value.items[outcome.handle].itemId
                  else song == null)
    {
      hide Session.PipeIs, Session.TallyIs, Session.FlagsAre, C.SongCache.Valid, S.NextSong, TakeSongs, Pushed;
      ghost var st := model;
      var pulls, done := w.pulls, false;
      outcome, song := S.EmptyQueue, null;
      while !done
        invariant Valid() && Grown() && cache != null
        invariant if done then
                    && model == TakeSongs(st, w.pulls).st && outcome == TakeSongs(st, w.pulls).outcome
                    && (if outcome.Returned? then
                          song != null && song.itemId == model.cache.value.items[outcome.handle].itemId
                        else song == null)
                  else
                    && TakeSongs(model, pulls).st == TakeSongs(st, w.pulls).st
                    && TakeSongs(model, pulls).outcome == TakeSongs(st, w.pulls).outcome
        modifies this`writeQueue, this`writeBuffer, this`writing, this`model, this`items, cache, items
        decreases !done, |model.cache.value.queue|
      {
        TakeStep(model, pulls);
        outcome, song := PullSong(FirstPull(pulls));
        if outcome.FailedToLoad? {
          Push(SongFailed(outcome.itemId, outcome.songId));
          pulls := LaterPulls(pulls);
        } else {
          done := true;
        }
      }
    }

    method OpenNextSong(w: World) returns (opening: Opening)
      requires Valid() && cache != null
      modifies this`writeQueue, this`writeBuffer, this`writing, this`model, this`items, this`currentSong, player, cache, items
      ensures Valid() && Grown() && cache == old(cache) && old(model).cache.Some?
      ensures (model, opening) == Spec.OpenNextSong(old(model), w)
    {
      hide Session.PipeIs, Session.TallyIs, Session.CacheIs, Session.FlagsAre, TakeSongs, Spec.OpenIt;
      var outcome, nextSong := TakeSong(w);
      match outcome
      case Returned(_) =>
        opening := Started(nextSong.itemId);
        OpenIt(nextSong, w.device);
      case EmptyQueue => opening := QueueEmpty;
      case _ => opening := ServerGone;
    }

    // -------------------------------------------------------------------------------------------
    // Actions

    method ClosePlayer(d: P.Device)
      requires Valid()
      modifies this`writeQueue, this`writeBuffer, this`writing, this`model, player
      ensures Valid() && model == Plays(old(model), P.Closed(P.Called(old(model).player, P.CloseCall), d))
    {
      hide PushedAll, P.Closed, Session.PipeIs, Session.CacheIs;
      var reports := player.Close(d);
      model := model.(player := player.View());
      SendStatuses(reports);
    }

    method PausePlayer(d: P.Device)
      requires Valid()
      modifies this`writeQueue, this`writeBuffer, this`writing, this`model, player
      ensures Valid() && model == Plays(old(model), P.Stopped(P.Called(old(model).player, P.PauseCall), d))
    {
      hide PushedAll, P.Stopped, Session.PipeIs, Session.CacheIs;
      var reports := player.Pause(d);
      model := model.(player := player.View());
      SendStatuses(reports);
    }

    /** ResetPlayer. It leaves waitingForQueue as it is. */
    method ResetPlayer(d: P.Device)
      requires Valid()
      modifies this`writeQueue, this`writeBuffer, this`writing, this`model,
               this`playing, this`currentSong, this`cache, player, cache, items
      ensures Valid() && model == Spec.ResetPlayer(old(model), d) && cache == null
    {
      hide Plays, P.Closed, Session.PipeIs, Session.TallyIs, Session.FlagsAre;
      if cache != null {
        ClosePlayer(d);
        DropCache();
      }
    }

    method DropCache()
      requires Valid() && cache != null
      modifies this`model, this`playing, this`currentSong, this`cache, cache, items
      ensures Valid() && model == old(model).(playing := false, currentSong := None, cache := None) && cache == null
    {
      hide Session.PipeIs, Session.TallyIs, S.Reset;
      playing := false;
      currentSong := null;
      cache.Reset();
      cache := null;
      model := model.(playing := false, currentSong := None, cache := None);
    }

    /** The queue is empty: the session waits for an update and asks for one. */
    method WaitForQueue()
      requires Valid() && cache != null
      modifies this`writeQueue, this`writeBuffer, this`writing, this`model, this`waitingForQueue
      ensures Valid() && old(model).cache.Some? && model == Spec.WaitForQueue(old(model))
    {
      hide Pushed, Session.PipeIs;
      waitingForQueue := true;
      model := model.(waitingForQueue := true, waits := model.waits + 1);
      RequestPlaylistSong();
    }

    method StartPlayer(d: P.Device)
      requires Valid()
      modifies this`writeQueue, this`writeBuffer, this`writing, this`model, player
      ensures Valid() && model == Spec.StartPlayer(old(model), d)
    {
      hide PushedAll, P.Started, Session.PipeIs, Session.CacheIs;
      var reports := player.Play(d);
      model := model.(player := player.View());
      SendStatuses(reports);
    }

    /** OpenNextSong, with what PlayAction and NextAction do about an empty queue and a lost server. */
    method OpenOrWait(w: World) returns (opening: Opening)
      requires Valid() && cache != null
      modifies this, player, cache, items
      ensures Valid() && Grown() && old(model).cache.Some? && (cache == null || cache == old(cache))
      ensures (model, opening) == Spec.OpenOrWait(old(model), w)
      ensures opening != ServerGone ==> cache != null
    {
      hide Session.PipeIs, Session.TallyIs, Session.CacheIs, Session.FlagsAre, Spec.OpenNextSong, Spec.ResetPlayer;
      hide Spec.WaitForQueue, Pushed;
      opening := OpenNextSong(w);
      match opening
      case QueueEmpty =>
        WaitForQueue();
      case ServerGone =>
        ResetPlayer(w.device);
        Push(FileserverDisconnected);
      case Started(_) =>
    }

    method NextAction(w: World) returns (rtc: nat)
      requires Valid()
      modifies this, player, cache, items
      ensures Valid() && Grown() && Done(model, rtc) == Spec.NextAction(old(model), w)
    {
      hide Session.PipeIs, Session.TallyIs, Spec.OpenOrWait, Spec.StartPlayer;
      if cache != null {
        var songOpen := false;
        var opening := OpenOrWait(w);
        if opening == ServerGone {
          return FILESERVER_NOT_SET;
        }
        songOpen := opening.Started?;
        if songOpen && playing {
          StartPlayer(w.device);
        }
      } else {
        return FILESERVER_NOT_SET;
      }
      return OK;
    }

    method PlayAction(w: World) returns (rtc: nat)
      requires Valid()
      modifies this, player, cache, items
      ensures Valid() && Grown() && Done(model, rtc) == Spec.PlayAction(old(model), w)
    {
      hide Session.PipeIs, Session.TallyIs, Spec.OpenOrWait, Spec.StartPlayer;
      if cache != null {
        var songOpen := true;
        if currentSong == null {
          var opening := OpenOrWait(w);
          if opening == ServerGone {
            return FILESERVER_NOT_SET;
          }
          songOpen := opening.Started?;
        }
        PlayOpen(songOpen, w.device);
      } else {
        return FILESERVER_NOT_SET;
      }
      return OK;
    }

    method PlayOpen(songOpen: bool, d: P.Device)
      requires Valid()
      modifies this`writeQueue, this`writeBuffer, this`writing, this`model, this`playing, player
      ensures Valid() && model == Spec.PlayOpen(old(model), songOpen, d)
    {
      hide Session.PipeIs, Session.TallyIs, Session.CacheIs, Spec.StartPlayer;
      if !playing {
        playing := true;
        model := model.(playing := true);
        if songOpen {
          StartPlayer(d);
        }
      }
    }

    method PauseAction(d: P.Device) returns (rtc: nat)
      requires Valid()
      modifies this`writeQueue, this`writeBuffer, this`writing, this`model, this`playing, player
      ensures Valid() && Done(model, rtc) == Spec.PauseAction(old(model), d)
    {
      hide Plays, P.Stopped, Session.PipeIs, Session.TallyIs;
      if cache != null {
        PausePlayer(d);
        playing := false;
        model := model.(playing := false);
      } else {
        return FILESERVER_NOT_SET;
      }
      return OK;
    }

    method ResetAction(d: P.Device) returns (rtc: nat)
      requires Valid()
      modifies this`writeQueue, this`writeBuffer, this`writing, this`model,
               this`playing, this`currentSong, this`cache, player, cache, items
      ensures Valid() && Done(model, rtc) == Spec.ResetAction(old(model), d) && cache == null
    {
      hide Session.Valid, Spec.ResetPlayer;
      ResetPlayer(d);
      return OK;
    }

    method StartCache()
      requires Valid()
      modifies this`cache, this`model
      ensures Valid() && fresh(cache)
      ensures model == old(model).(cache := Some(S.INITIAL), base := [], mark := |old(model).pipe.pushed|)
    {
      hide Session.PipeIs;
      cache := new SongCache();
      model := model.(cache := Some(S.INITIAL), base := [], mark := |model.pipe.pushed|);
    }

    /** The old cache, if there is one, is dropped without a reset; what is playing goes on. */
    method InitializeAction(payload: map<string, Json>, online: bool) returns (rtc: nat)
      requires Valid()
      modifies this`writeQueue, this`writeBuffer, this`writing, this`model, this`cache, player`hasCallbacks
      ensures Valid() && Grown() && Done(model, rtc) == Spec.InitializeAction(old(model), payload, online)
    {
      hide Session.PipeIs, Session.TallyIs, Pushed;
      if HasString(payload, "url") {
        StartCache();
        if online {
          player.SetCallbacks();
          model := model.(player := player.View());
          RequestPlaylistSong();
        } else {
          return FILESERVER_UNREACHABLE;
        }
      } else {
        return MALFORMED_REQUEST;
      }
      return OK;
    }

    method VolumeAction(payload: map<string, Json>) returns (rtc: nat)
      requires Valid()
      modifies this`model, player`volume
      ensures Valid() && Done(model, rtc) == Spec.VolumeAction(old(model), payload)
    {
      hide Session.PipeIs, Session.CacheIs;
      if "volume" in payload {
        if payload["volume"].Number? {
          var volume := payload["volume"].n;
          if volume >= 0 && volume <= 100 {
            player.SetVolume(volume);
            model := model.(player := player.View());
            return OK;
          }
        }
      }
      return MALFORMED_REQUEST;
    }

    method TakeQueue(queue: seq<S.QueueItem>)
      requires Valid() && cache != null
      modifies this`model, this`items, cache, items
      ensures Valid() && Grown() && old(model).cache.Some? && model == Spec.TakeQueue(old(model), queue)
    {
      hide S.UpdateQueue, Session.PipeIs, Session.TallyIs, C.SongCache.Valid;
      cache.UpdateQueue(queue);
      items := items + set t | t in cache.tasks;
      model := model.(cache := Some(cache.model), base := queue, mark := |model.pipe.pushed|);
    }

    method StopWaiting()
      requires Valid()
      modifies this`waitingForQueue, this`model
      ensures Valid() && model == old(model).(waitingForQueue := false)
    {
      hide Session.CacheIs, Session.PipeIs;
      waitingForQueue := false;
      model := model.(waitingForQueue := false);
    }

    method UpdateQueueAction(payload: map<string, Json>, w: World) returns (rtc: nat)
      requires Valid()
      modifies this, player, cache, items
      ensures Valid() && Grown() && Done(model, rtc) == Spec.UpdateQueueAction(old(model), payload, w)
    {
      hide Session.PipeIs, Session.TallyIs, Session.CacheIs, Spec.TakeQueue, Spec.NextAction, Spec.RequestPlaylistSong;
      CacheThere();
      if cache != null {
        var queue := TryParseQueue(payload);
        if queue.Some? {
          TakeQueue(queue.value);
          if waitingForQueue {
            StopWaiting();
            var ignored := NextAction(w);
          } else {
            RequestPlaylistSong();
          }
        } else {
          return MALFORMED_REQUEST;
        }
      } else {
        return FILESERVER_NOT_SET;
      }
      return OK;
    }

    // -------------------------------------------------------------------------------------------
    // Requests and events

    method CountFailure()
      requires Valid()
      modifies this`failCounter, this`model
      ensures Valid() && model == CountedFailure(old(model))
    {
      hide Session.CacheIs, Session.PipeIs;
      failCounter := failCounter + 1;
      model := CountedFailure(model);
    }

    /** The actions that take parameters; without them nothing happens. */
    method ParamsAction(action: ActionEnum, request: map<string, Json>, w: World) returns (rtc: nat)
      requires Valid()
      modifies this, player, cache, items
      ensures Valid() && Grown() && Done(model, rtc) == Spec.ParamsAction(old(model), action, request, w)
    {
      hide Session.Valid, Spec.UpdateQueueAction, Spec.InitializeAction, Spec.VolumeAction, CountedFailure;
      rtc := OK;
      if "params" in request {
        if request["params"].Object? {
          var payload := request["params"].fields;
          if action == UPDATE_QUEUE {
            rtc := UpdateQueueAction(payload, w);
          } else if action == INITIALIZE {
            rtc := InitializeAction(payload, w.online);
          } else if action == VOLUME {
            rtc := VolumeAction(payload);
          } else {
            rtc := NOT_SUPPORTED_ACTION;
            CountFailure();
          }
        }
      }
    }

    /** The body of HandleRequest up to the response. */
    method Dispatch(request: map<string, Json>, w: World) returns (rtc: nat)
      requires Valid()
      modifies this, player, cache, items
      ensures Valid() && Grown() && Done(model, rtc) == Spec.Dispatch(old(model), request, w)
    {
      hide Session.Valid, Spec.PlayAction, Spec.NextAction, Spec.PauseAction, Spec.ResetAction, Spec.ParamsAction, CountedFailure;
      if HasHeader(request) {
        if HasString(request, "method") {
          var action := GetAction(request["method"].s);
          if action != NOT_SUPPORTED {
            if action == PLAY {
              rtc := PlayAction(w);
            } else if action == PAUSE {
              rtc := PauseAction(w.device);
            } else if action == NEXT {
              rtc := NextAction(w);
            } else if action == RESET {
              rtc := ResetAction(w.device);
            } else {
              rtc := ParamsAction(action, request, w);
            }
          } else {
            rtc := NOT_SUPPORTED_ACTION;
            CountFailure();
          }
        } else {
          rtc := MALFORMED_REQUEST;
          CountFailure();
        }
      } else {
        rtc := MALFORMED_REQUEST;
      }
    }

    /** The response goes out, and without a new failure the counter starts again. */
    method SendAnswer(failAtStart: nat, rtc: nat, request: map<string, Json>)
      requires Valid()
      modifies this`writeQueue, this`writeBuffer, this`writing, this`model, this`failCounter
      ensures Valid() && model == Answer(old(model), failAtStart, rtc, request)
    {
      hide Session.CacheIs, Pushed, Counted, IdOf;
      Push(Response(rtc, IdOf(request)));
      if failAtStart == failCounter {
        failCounter := 0;
      }
      model := model.(tally := model.tally.(failCounter := failCounter,
                                            judged := model.tally.judged + [Counted(Some(Object(request)))],
                                            asked := model.tally.asked + [IdOf(request)]));
    }

    method HandleRequest(request: map<string, Json>, w: World)
      requires Valid()
      modifies this, player, cache, items
      ensures Valid() && Grown() && model == Spec.HandleRequest(old(model), request, w)
    {
      hide Session.PipeIs, Session.CacheIs, Session.FlagsAre, Spec.Dispatch, Answer;
      var failAtStart := failCounter;
      var rtc := Dispatch(request, w);
      SendAnswer(failAtStart, rtc, request);
    }

    /** OnClose: what is still waiting is thrown away. */
    method OnClose(d: P.Device)
      requires Valid()
      modifies this`writeQueue, this`writeBuffer, this`writing, this`model,
               this`playing, this`currentSong, this`cache, this`closed, player, cache, items
      ensures Valid() && model == Spec.OnClose(old(model), d) && cache == null
    {
      hide Session.Valid, Spec.ResetPlayer, Drained;
      ResetPlayer(d);
      Drain();
    }

    method Drain()
      requires Valid()
      modifies this`writeQueue, this`closed, this`model
      ensures Valid() && model == old(model).(pipe := Drained(old(model).pipe))
    {
      hide Session.CacheIs;
      while |writeQueue| > 0
        modifies this`writeQueue
      {
        writeQueue := writeQueue[1..];
      }
      closed := true;
      model := model.(pipe := Drained(model.pipe));
    }

    method SetReading(on: bool)
      requires Valid()
      modifies this`reading, this`model
      ensures Valid() && model == old(model).(tally := old(model).tally.(reading := on))
    {
      hide Session.CacheIs, Session.PipeIs;
      reading := on;
      model := model.(tally := model.tally.(reading := on));
    }

    /** The connection is to be closed for a bad payload. */
    method DoClose()
      requires Valid()
      modifies this`rejected, this`model
      ensures Valid() && model == old(model).(tally := old(model).tally.(rejected := old(model).tally.rejected + 1))
    {
      hide Session.CacheIs, Session.PipeIs;
      rejected := rejected + 1;
      model := model.(tally := model.tally.(rejected := rejected));
    }

    method Judge(payload: Option<Json>)
      requires Valid()
      modifies this`failCounter, this`model
      ensures Valid()
      ensures var counted := CountedFailure(old(model));
              model == counted.(tally := counted.tally.(judged := old(model).tally.judged + [Counted(payload)]))
    {
      hide Session.CacheIs, Session.PipeIs, Counted;
      CountFailure();
      model := model.(tally := model.tally.(judged := model.tally.judged + [Counted(payload)]));
    }

    /** The end of OnRead: three failures in a row close the connection; otherwise what waits is written
        and the next payload is read. */
    method CloseOrRead()
      requires Valid()
      modifies this`writeQueue, this`writeBuffer, this`writing, this`model, this`reading, this`rejected
      ensures Valid() && model == Spec.CloseOrRead(old(model))
    {
      hide Session.CacheIs, Session.PipeIs, Written;
      if failCounter >= 3 {
        DoClose();
        SetReading(false);
        return;
      }
      DoWrite();
      SetReading(true);
    }

    /** OnRead. A payload is None when it is not JSON. */
    method OnRead(result: ReadResult, payload: Option<Json>, w: World)
      requires Valid() && reading
      modifies this, player, cache, items
      ensures Valid() && Grown() && model == Spec.OnRead(old(model), result, payload, w)
    {
      hide Session.CacheIs, Session.PipeIs, Session.FlagsAre, Spec.OnClose, Spec.HandleRequest, Spec.CloseOrRead, CountedFailure;
      SetReading(false);
      if result == ReadClosed {
        OnClose(w.device);
        return;
      } else if result == ReadAborted {
        return;
      }
      if payload.Some? && payload.value.Object? {
        HandleRequest(payload.value.fields, w);
      } else {
        Judge(payload);
      }
      CloseOrRead();
    }

    /** The player's status callback, while it decodes. */
    method ReportStatus()
      requires Valid()
      modifies this`writeQueue, this`writeBuffer, this`writing, this`model
      ensures Valid() && model == Spec.Step(old(model), Decoding)
    {
      hide Session.CacheIs, Session.PipeIs, PushedAll;
      if player.hasCallbacks {
        SendStatuses([player.status == P.PLAYING]);
      } else {
        PushedNone(model.pipe);
      }
      assert model.player == P.Report(model.player, model.player.status == P.PLAYING).player;
    }

    /** A download for the current cache ends. */
    method EndDownload(c: S.Completion)
      requires Valid() && cache != null
      modifies this`model, cache, items
      ensures Valid() && cache == old(cache) && model == Spec.Step(old(model), DownloadEnds(c))
    {
      hide Session.PipeIs, S.Complete;
      if c.handle < |cache.tasks| && !cache.tasks[c.handle].done {
        cache.EndDownload(c.handle, c.body);
      } else {
        C.NothingEnds(cache.model, c);
      }
      model := model.(cache := Some(cache.model));
    }

    /** One step, as far as it applies. */
    method Take(e: Event)
      requires Valid()
      modifies this, player, cache, items
      ensures Valid() && Grown() && model == Step(old(model), e)
    {
      hide Session.FlagsAre, S.Complete, Spec.OnClose, Spec.OnRead, Spec.NextAction, WriteEnded, Plays;
      match e
      case Read(result, payload, w) =>
        if reading {
          OnRead(result, payload, w);
        }
      case WriteEnds(aborted) =>
        if writing {
          OnWrite(aborted);
        }
      case SongOver(w) =>
        var ignored := NextAction(w);
      case DownloadEnds(c) =>
        if cache != null {
          EndDownload(c);
        }
      case Decoding =>
        ReportStatus();
      case Close(d) =>
        OnClose(d);
    }
  }

  // ---------------------------------------------------------------------------------------------
  // Runs

  /** A session from the handshake on, through any events: it is what Run says, so all that SessionLaws
      says of runs holds of its fields. */
  method Serve(events: seq<Event>) returns (s: Session)
    ensures s.Valid() && s.model == Run(events)
    ensures s.failCounter == Streak(s.model.tally.judged) <= 3
    ensures s.reading ==> s.failCounter < 3
    ensures !s.writing ==> s.writeQueue == []
    ensures !s.closed ==> s.model.pipe.handed + s.writeQueue == s.model.pipe.pushed
    ensures s.cache == null ==> !s.playing && s.currentSong == null
    ensures s.playing && s.currentSong == null ==> s.waitingForQueue
  {
    hide Step;
    s := new Session();
    var i := 0;
    while i < |events|
      invariant 0 <= i <= |events| && s.Valid() && s.model == Run(events[..i])
      invariant fresh(s) && fresh(s.player) && (s.cache != null ==> fresh(s.cache)) && fresh(s.items)
    {
      OneMoreEvent(events, i);
      s.Take(events[i]);
      i := i + 1;
    }
    assert events[..i] == events;
    Laws.PipelineAfterRun(events);
    Laws.FailCounterAfterRun(events);
    Laws.ControlAfterRun(events);
  }

  lemma OneMoreEvent(events: seq<Event>, i: nat)
    requires i < |events|
    ensures Run(events[..i + 1]) == Step(Run(events[..i]), events[i])
  {
    assert events[..i + 1][..i] == events[..i];
  }

  lemma PushedNone(p: Pipe)
    ensures PushedAll(p, []) == p
  {
  }

  lemma PushedMore(p: Pipe, ms: seq<Message>, i: nat)
    requires i < |ms|
    ensures PushedAll(p, ms[..i + 1]) == Pushed(PushedAll(p, ms[..i]), ms[i])
  {
    assert ms[..i + 1][..i] == ms[..i];
  }

  /** One turn of the loop of TakeSongs. */
  lemma TakeStep(st: State, pulls: seq<Pull>)
    requires st.cache.Some?
    ensures var r := S.NextSong(st.cache.value, FirstPull(pulls).naps, FirstPull(pulls).online);
            var next := st.(cache := Some(r.st));
            if r.outcome.FailedToLoad? then
              var more := TakeSongs(Say(next, SongFailed(r.outcome.itemId, r.outcome.songId)), LaterPulls(pulls));
              TakeSongs(st, pulls).st == more.st && TakeSongs(st, pulls).outcome == more.outcome
            else TakeSongs(st, pulls).st == next && TakeSongs(st, pulls).outcome == r.outcome
  {
    hide S.NextSong, Pushed;
  }
}
