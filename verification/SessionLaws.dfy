/** What holds of every session, whatever is read, written, downloaded and played (SessionSpec). */
module SessionLaws {
  import opened Wrappers
  import opened Json
  import opened Requests
  import opened SessionSpec
  import S = SongCacheSpec
  import P = MusicPlayer

  // ---------------------------------------------------------------------------------------------
  // Messages

  /** No response was added. */
  ghost predicate Notified(before: seq<Message>, after: seq<Message>) {
    before <= after && forall i :: |before| <= i < |after| ==> !after[i].Response?
  }

  /** The playlist was asked for. */
  ghost predicate Asked(before: seq<Message>, after: seq<Message>) {
    exists i :: |before| <= i < |after| && after[i] == RequestPlaylist
  }

  /** The item ids in the messages about songs. */
  ghost function ReportedIds(ms: seq<Message>): seq<string> {
    if ms == [] then []
    else IdIn(ms[0]) + ReportedIds(ms[1..])
  }

  ghost function IdIn(m: Message): seq<string> {
    match m
    case SongFailed(itemId, _) => [itemId]
    case SongStarted(itemId) => [itemId]
    case _ => []
  }

  lemma {:induction false} ReportedConcat(a: seq<Message>, b: seq<Message>)
    ensures ReportedIds(a + b) == ReportedIds(a) + ReportedIds(b)
  {
    if a == [] {
      assert a + b == b;
    } else {
      assert (a + b)[1..] == a[1..] + b;
      ReportedConcat(a[1..], b);
    }
  }

  /** The ids in the responses. */
  ghost function ResponseIds(ms: seq<Message>): seq<Json> {
    if ms == [] then []
    else ResponseIds(ms[..|ms| - 1]) + if ms[|ms| - 1].Response? then [ms[|ms| - 1].id] else []
  }

  lemma {:induction false} NotifiedIds(before: seq<Message>, after: seq<Message>)
    requires Notified(before, after)
    ensures ResponseIds(after) == ResponseIds(before)
    decreases |after|
  {
    if |after| > |before| {
      NotifiedIds(before, after[..|after| - 1]);
    } else {
      assert before == after;
    }
  }

  /** How often the playlist was asked for. */
  ghost function PlaylistRequests(ms: seq<Message>): nat {
    if ms == [] then 0
    else PlaylistRequests(ms[..|ms| - 1]) + if ms[|ms| - 1] == RequestPlaylist then 1 else 0
  }

  lemma {:induction false} RequestsGrow(before: seq<Message>, after: seq<Message>)
    requires before <= after
    ensures PlaylistRequests(after) >= PlaylistRequests(before) + if Asked(before, after) then 1 else 0
    decreases |after|
  {
    if |after| == |before| {
      assert before == after;
    } else {
      var n := |after| - 1;
      RequestsGrow(before, after[..n]);
      assert Asked(before, after) ==> after[n] == RequestPlaylist || Asked(before, after[..n]) by {
        if Asked(before, after) {
          var i :| |before| <= i < |after| && after[i] == RequestPlaylist;
          assert i < n ==> after[..n][i] == RequestPlaylist;
        }
      }
    }
  }

  // ---------------------------------------------------------------------------------------------
  // Subsequences

  predicate Subsequence<T(==)>(a: seq<T>, b: seq<T>) {
    if a == [] then true
    else if b == [] then false
    else (a[0] == b[0] && Subsequence(a[1..], b[1..])) || Subsequence(a, b[1..])
  }

  lemma {:induction false} SubsequenceConcat<T>(a: seq<T>, b: seq<T>, c: seq<T>, d: seq<T>)
    requires Subsequence(a, b) && Subsequence(c, d)
    ensures Subsequence(a + c, b + d)
    decreases |b|
  {
    if b == [] {
      assert a + c == c && b + d == d;
    } else {
      assert (b + d)[1..] == b[1..] + d;
      if a != [] && a[0] == b[0] && Subsequence(a[1..], b[1..]) {
        assert (a + c)[1..] == a[1..] + c;
        SubsequenceConcat(a[1..], b[1..], c, d);
      } else {
        SubsequenceConcat(a, b[1..], c, d);
        SubsequenceLater(a + c, b + d);
      }
    }
  }

  lemma SubsequenceLater<T>(a: seq<T>, b: seq<T>)
    requires b != [] && Subsequence(a, b[1..])
    ensures Subsequence(a, b)
  {
  }

  function Ids(queue: seq<S.QueueItem>): (ids: seq<string>)
    ensures |ids| == |queue| && forall i :: 0 <= i < |queue| ==> ids[i] == queue[i].itemId
  {
    seq(|queue|, i requires 0 <= i < |queue| => queue[i].itemId)
  }

  function Failures(failed: seq<S.QueueItem>): (ms: seq<Message>)
    ensures |ms| == |failed|
    ensures forall i :: 0 <= i < |failed| ==> ms[i] == SongFailed(failed[i].itemId, failed[i].songId)
  {
    seq(|failed|, i requires 0 <= i < |failed| => SongFailed(failed[i].itemId, failed[i].songId))
  }

  lemma {:induction false} FailuresIds(failed: seq<S.QueueItem>)
    ensures ReportedIds(Failures(failed)) == Ids(failed)
  {
    if failed != [] {
      assert Failures(failed)[1..] == Failures(failed[1..]);
      FailuresIds(failed[1..]);
      assert Ids(failed) == [failed[0].itemId] + Ids(failed[1..]);
    }
  }

  lemma {:induction false} NoIdsIn(ms: seq<Message>)
    requires forall i :: 0 <= i < |ms| ==> IdIn(ms[i]) == []
    ensures ReportedIds(ms) == []
  {
    if ms != [] {
      NoIdsIn(ms[1..]);
    }
  }

  lemma NotifiedTwice(a: seq<Message>, b: seq<Message>, c: seq<Message>)
    requires Notified(a, b) && Notified(b, c)
    ensures Notified(a, c)
    ensures Asked(a, b) || Asked(b, c) ==> Asked(a, c)
  {
    if Asked(a, b) {
      var i :| |a| <= i < |b| && b[i] == RequestPlaylist;
      assert c[i] == b[i];
    }
  }

  lemma Told(before: seq<Message>, ms: seq<Message>)
    requires forall i :: 0 <= i < |ms| ==> !ms[i].Response?
    ensures Notified(before, before + ms)
    ensures RequestPlaylist in ms ==> Asked(before, before + ms)
  {
    if RequestPlaylist in ms {
      var i :| 0 <= i < |ms| && ms[i] == RequestPlaylist;
      assert (before + ms)[|before| + i] == RequestPlaylist;
    }
  }

  // ---------------------------------------------------------------------------------------------
  // What every step keeps

  /** The items reported since the last update are, in order, items the queue has given up. */
  ghost predicate ReportSound(st: State) {
    && st.mark <= |st.pipe.pushed|
    && (st.cache.Some? ==>
          var queue := st.cache.value.queue;
          && |queue| <= |st.base| && queue == st.base[|st.base| - |queue|..]
          && Subsequence(ReportedIds(st.pipe.pushed[st.mark..]), Ids(st.base[..|st.base| - |queue|])))
  }

  ghost predicate CacheSound(st: State) {
    st.cache.Some? ==> S.Inv(st.cache.value)
  }

  /** Without a cache nothing plays. */
  predicate ControlSound(st: State) {
    st.cache == None ==> !st.playing && st.currentSong == None
  }

  ghost predicate Sound(st: State) {
    PipeSound(st.pipe) && ReportSound(st) && CacheSound(st) && ControlSound(st)
  }

  /** Whoever plays without a song waits for the queue. */
  predicate Attended(st: State) {
    st.playing && st.currentSong == None ==> st.waitingForQueue
  }

  /** The fail counter is the length of the streak; at three the connection is closed and nothing is
      read any more. */
  predicate CountSound(t: Tally) {
    && t.failCounter == Streak(t.judged) <= 3
    && (t.reading ==> t.failCounter < 3)
    && t.rejected == if t.failCounter == 3 then 1 else 0
  }

  ghost predicate Inv(st: State) {
    && Sound(st) && Attended(st) && CountSound(st.tally)
    && ResponseIds(st.pipe.pushed) == st.tally.asked
    && st.waits <= PlaylistRequests(st.pipe.pushed) && (st.waitingForQueue ==> st.waits > 0)
  }

  /** waitingForQueue is set at most once, and then the playlist is asked for. */
  ghost predicate Waited(st: State, r: State) {
    && (r.waits == st.waits || (r.waits == st.waits + 1 && Asked(st.pipe.pushed, r.pipe.pushed)))
    && (r.waits == st.waits && r.waitingForQueue ==> st.waitingForQueue)
  }

  /** Only notifications are pushed, and nothing is taken back from the socket. */
  ghost predicate Speaks(st: State, r: State) {
    Notified(st.pipe.pushed, r.pipe.pushed) && st.pipe.handed <= r.pipe.handed && r.pipe.closed == st.pipe.closed
  }

  /** A part of an action that does not concern the waiting. */
  ghost predicate Quiet(st: State, r: State) {
    Speaks(st, r) && r.tally == st.tally && r.waits == st.waits && r.waitingForQueue == st.waitingForQueue
  }

  ghost predicate Acts(st: State, r: State) {
    Speaks(st, r) && r.tally == st.tally && Waited(st, r)
  }

  lemma QuietActs(a: State, b: State, c: State)
    requires (Quiet(a, b) && (Quiet(b, c) || Acts(b, c))) || (Acts(a, b) && Quiet(b, c))
    ensures Acts(a, c) && (Quiet(a, b) && Quiet(b, c) ==> Quiet(a, c))
  {
    hide Notified, Asked;
    NotifiedTwice(a.pipe.pushed, b.pipe.pushed, c.pipe.pushed);
  }

  // ---------------------------------------------------------------------------------------------
  // Messages that report no item

  lemma {:induction false} SayAllKeeps(st: State, ms: seq<Message>)
    requires Sound(st) && forall i :: 0 <= i < |ms| ==> IdIn(ms[i]) == [] && !ms[i].Response?
    ensures Sound(SayAll(st, ms)) && Quiet(st, SayAll(st, ms))
    ensures RequestPlaylist in ms ==> Asked(st.pipe.pushed, SayAll(st, ms).pipe.pushed)
  {
    hide PushedAll, PipeSound, Subsequence, ReportedIds, Ids, IdIn;
    var pushed := st.pipe.pushed;
    Told(pushed, ms);
    assert (pushed + ms)[st.mark..] == pushed[st.mark..] + ms;
    ReportedConcat(pushed[st.mark..], ms);
    NoIdsIn(ms);
    assert ReportedIds(pushed[st.mark..]) + [] == ReportedIds(pushed[st.mark..]);
  }

  lemma SayKeeps(st: State, m: Message)
    requires Sound(st) && IdIn(m) == [] && !m.Response?
    ensures Sound(Say(st, m)) && Quiet(st, Say(st, m))
    ensures m == RequestPlaylist ==> Asked(st.pipe.pushed, Say(st, m).pipe.pushed)
  {
    hide PipeSound, Subsequence, ReportedIds, Ids;
    SayIsAll(st, m);
    SayAllKeeps(st, [m]);
  }

  lemma SayIsAll(st: State, m: Message)
    ensures Say(st, m) == SayAll(st, [m])
  {
    assert PushedAll(st.pipe, []) == st.pipe;
    assert [m][..0] == [];
  }

  lemma PlaysKeeps(st: State, played: P.Played)
    requires Sound(st)
    ensures Sound(Plays(st, played)) && Quiet(st, Plays(st, played))
  {
    hide PipeSound, Subsequence, ReportedIds, Ids;
    assert Sound(st.(player := played.player));
    SayAllKeeps(st.(player := played.player), Statuses(played.reports));
  }

  // ---------------------------------------------------------------------------------------------
  // The loop of OpenNextSong

  /** What a fate says about the item at this position. */
  predicate FateSound(q: S.QueueItem, fate: Fate, last: bool, outcome: S.Outcome) {
    match fate
    case Absent => false
    case LetGo(item) => item.Pending() && item.itemId == q.itemId
    case Failed(item) => item.failed && !item.ready && item.itemId == q.itemId
    case Final(item) =>
      last && item.itemId == q.itemId && (if outcome.Returned? then item.ready else outcome == S.Disconnected && item.failed)
  }

  /** Each position given up was let go while its item was still being downloaded, or its item had
      failed; only the last one may have another fate, and an empty queue is given up whole. */
  ghost predicate FatesSound(queue: seq<S.QueueItem>, fates: seq<Fate>, outcome: S.Outcome) {
    && |fates| <= |queue|
    && (forall i :: 0 <= i < |fates| ==> FateSound(queue[i], fates[i], i + 1 == |fates|, outcome))
    && (outcome == S.EmptyQueue ==> |fates| == |queue|)
    && (outcome.Returned? || outcome == S.Disconnected ==> fates != [] && fates[|fates| - 1].Final?)
  }

  /** The items of the positions that failed, in order. */
  function FailedOf(queue: seq<S.QueueItem>, fates: seq<Fate>): (failed: seq<S.QueueItem>)
    requires |fates| <= |queue|
  {
    if fates == [] then []
    else (if fates[0].Failed? then [queue[0]] else []) + FailedOf(queue[1..], fates[1..])
  }

  lemma {:induction false} FailedConcat(queue: seq<S.QueueItem>, a: seq<Fate>, b: seq<Fate>)
    requires |a| + |b| <= |queue|
    ensures FailedOf(queue, a + b) == FailedOf(queue, a) + FailedOf(queue[|a|..], b)
  {
    if a == [] {
      assert a + b == b && queue[0..] == queue;
    } else {
      assert (a + b)[1..] == a[1..] + b && queue[1..][|a| - 1..] == queue[|a|..];
      FailedConcat(queue[1..], a[1..], b);
    }
  }

  lemma {:induction false} NoneFailed(queue: seq<S.QueueItem>, fates: seq<Fate>)
    requires |fates| <= |queue| && forall i :: 0 <= i < |fates| ==> !fates[i].Failed?
    ensures FailedOf(queue, fates) == []
  {
    if fates != [] {
      NoneFailed(queue[1..], fates[1..]);
    }
  }

  /** The fates of one call of NextSong. */
  lemma FatesOfOne(st: S.State, r: S.NextResult)
    requires S.Consumed(st, r)
    ensures var n := |r.met| + if r.outcome == S.EmptyQueue then 0 else 1;
            && |Fates(r)| == n <= |st.queue| && r.st.queue == st.queue[n..]
            && (forall i :: 0 <= i < n ==>
                  FateSound(st.queue[i], Fates(r)[i], i + 1 == n && !r.outcome.FailedToLoad?, r.outcome))
            && (r.outcome.FailedToLoad? ==>
                  Fates(r)[n - 1].Failed? && st.queue[n - 1] == S.QueueItem(r.outcome.songId, r.outcome.itemId))
            && (!r.outcome.FailedToLoad? ==> FatesSound(st.queue, Fates(r), r.outcome))
            && FailedOf(st.queue, Fates(r)) == if r.outcome.FailedToLoad? then [st.queue[n - 1]] else []
  {
    var k := |r.met|;
    var fates := Fates(r);
    if r.outcome.FailedToLoad? {
      assert fates == fates[..k] + [fates[k]];
      NoneFailed(st.queue, fates[..k]);
      FailedConcat(st.queue, fates[..k], [fates[k]]);
      assert FailedOf(st.queue[k..], [fates[k]]) == [st.queue[k]] + FailedOf(st.queue[k..][1..], [fates[k]][1..]);
    } else {
      NoneFailed(st.queue, fates);
    }
  }

  lemma FatesTogether(queue: seq<S.QueueItem>, a: seq<Fate>, b: seq<Fate>, outcome: S.Outcome, first: S.Outcome)
    requires |a| <= |queue| && FatesSound(queue[|a|..], b, outcome)
    requires forall i :: 0 <= i < |a| ==> FateSound(queue[i], a[i], false, first)
    ensures FatesSound(queue, a + b, outcome)
  {
    var fates := a + b;
    forall i | 0 <= i < |fates|
      ensures FateSound(queue[i], fates[i], i + 1 == |fates|, outcome)
    {
      if i < |a| {
        assert FateSound(queue[i], a[i], false, first);
      } else {
        assert queue[|a|..][i - |a|] == queue[i];
      }
    }
  }

  /** What the loop leaves, and what it has pushed: one message for each item that failed, in order. */
  ghost predicate Taken(st: State, r: Songs)
    requires st.cache.Some? && r.st.cache.Some?
  {
    var queue := st.cache.value.queue;
    && r.st == st.(cache := r.st.cache, pipe := r.st.pipe) && S.Inv(r.st.cache.value)
    && FatesSound(queue, r.fates, r.outcome) && r.st.cache.value.queue == queue[|r.fates|..]
    && r.st.pipe.pushed == st.pipe.pushed + Failures(FailedOf(queue, r.fates))
    && (PipeSound(st.pipe) ==> PipeSound(r.st.pipe))
    && st.pipe.handed <= r.st.pipe.handed && r.st.pipe.closed == st.pipe.closed
    && (r.outcome.Returned? ==>
          && r.fates != [] && r.outcome.handle < |r.st.cache.value.items|
          && queue[|r.fates| - 1].itemId == r.st.cache.value.items[r.outcome.handle].itemId)
  }

  lemma {:induction false} TakeSongsMeaning(st: State, pulls: seq<Pull>)
    requires st.cache.Some? && S.Inv(st.cache.value)
    ensures Taken(st, TakeSongs(st, pulls))
    decreases |st.cache.value.queue|
  {
    hide S.Inv, S.NextSong, S.Consumed, Taken;
    var cache, pull := st.cache.value, FirstPull(pulls);
    var r := S.NextSong(cache, pull.naps, pull.online);
    S.NextSongConsumes(cache, pull.naps, pull.online);
    if r.outcome.FailedToLoad? {
      var mid := Say(st.(cache := Some(r.st)), SongFailed(r.outcome.itemId, r.outcome.songId));
      TakeSongsMeaning(mid, LaterPulls(pulls));
      TakenMore(st, r, mid, TakeSongs(mid, LaterPulls(pulls)));
    } else {
      TakenLast(st, r);
    }
  }

  lemma TakenMore(st: State, r: S.NextResult, mid: State, rest: Songs)
    requires st.cache.Some? && S.Consumed(st.cache.value, r) && r.outcome.FailedToLoad?
    requires mid == Say(st.(cache := Some(r.st)), SongFailed(r.outcome.itemId, r.outcome.songId))
    requires rest.st.cache.Some? && Taken(mid, rest)
    ensures Taken(st, rest.(fates := Fates(r) + rest.fates))
  {
    hide S.Inv, S.Consumed, PipeSound, FailedOf, FatesSound, FateSound, Fates, Pushed;
    var queue := st.cache.value.queue;
    var fates := Fates(r);
    FatesOfOne(st.cache.value, r);
    FatesTogether(queue, fates, rest.fates, rest.outcome, r.outcome);
    FatesFit(r.st.queue, rest.fates, rest.outcome);
    FailedConcat(queue, fates, rest.fates);
    FailuresMore(queue[|fates| - 1], FailedOf(r.st.queue, rest.fates), st.pipe.pushed);
    assert queue[|fates|..][|rest.fates|..] == queue[|fates| + |rest.fates|..];
    assert rest.outcome.Returned? ==> queue[|fates|..][|rest.fates| - 1] == queue[|fates| + |rest.fates| - 1];
  }

  lemma FatesFit(queue: seq<S.QueueItem>, fates: seq<Fate>, outcome: S.Outcome)
    requires FatesSound(queue, fates, outcome)
    ensures |fates| <= |queue|
  {
  }

  lemma TakenLast(st: State, r: S.NextResult)
    requires st.cache.Some? && S.Consumed(st.cache.value, r) && S.Inv(r.st) && !r.outcome.FailedToLoad?
    ensures Taken(st, Songs(st.(cache := Some(r.st)), r.outcome, Fates(r)))
  {
    hide S.Inv, S.Consumed, PipeSound, FailedOf, FatesSound, FateSound, Fates;
    FatesOfOne(st.cache.value, r);
    assert st.pipe.pushed + Failures([]) == st.pipe.pushed;
    if r.outcome.Returned? {
      LastTaken(st.cache.value, r);
    }
  }

  lemma LastTaken(st: S.State, r: S.NextResult)
    requires S.Consumed(st, r) && r.outcome.Returned?
    ensures |r.met| < |st.queue| && r.outcome.handle < |r.st.items|
    ensures st.queue[|r.met|].itemId == r.st.items[r.outcome.handle].itemId
  {
  }

  lemma FailuresMore(q: S.QueueItem, rest: seq<S.QueueItem>, pushed: seq<Message>)
    ensures pushed + [SongFailed(q.itemId, q.songId)] + Failures(rest) == pushed + Failures([q] + rest)
  {
  }

  // ---------------------------------------------------------------------------------------------
  // Opening the next song

  lemma {:induction false} FailedInOrder(queue: seq<S.QueueItem>, fates: seq<Fate>)
    requires |fates| <= |queue|
    ensures Subsequence(Ids(FailedOf(queue, fates)), Ids(queue[..|fates|]))
  {
    if fates != [] {
      var first := if fates[0].Failed? then [queue[0]] else [];
      var rest := FailedOf(queue[1..], fates[1..]);
      FailedInOrder(queue[1..], fates[1..]);
      assert Ids(first + rest) == Ids(first) + Ids(rest);
      assert Ids(queue[..|fates|]) == [queue[0].itemId] + Ids(queue[1..][..|fates| - 1]);
      assert Ids([queue[0]]) == [queue[0].itemId];
      assert Subsequence(Ids(first), [queue[0].itemId]) by {
        if fates[0].Failed? {
          assert Ids(first)[1..] == [];
        }
      }
      SubsequenceConcat(Ids(first), [queue[0].itemId], Ids(rest), Ids(queue[1..][..|fates| - 1]));
    }
  }

  /** The item looked at last may be reported after those that failed. */
  lemma FinalInOrder(queue: seq<S.QueueItem>, fates: seq<Fate>)
    requires fates != [] && |fates| <= |queue| && fates[|fates| - 1].Final?
    ensures Subsequence(Ids(FailedOf(queue, fates)) + [queue[|fates| - 1].itemId], Ids(queue[..|fates|]))
  {
    hide Subsequence;
    var n := |fates| - 1;
    assert fates == fates[..n] + [fates[n]];
    FailedConcat(queue, fates[..n], [fates[n]]);
    NoneFailed(queue[n..], [fates[n]]);
    assert FailedOf(queue, fates[..n]) + [] == FailedOf(queue, fates[..n]);
    FailedInOrder(queue, fates[..n]);
    var id := queue[n].itemId;
    assert Subsequence([id], [id]) by { OneInOne(id); }
    SubsequenceConcat(Ids(FailedOf(queue, fates[..n])), Ids(queue[..n]), [id], [id]);
    assert Ids(queue[..n + 1]) == Ids(queue[..n]) + [id];
  }

  lemma OneInOne<T>(x: T)
    ensures Subsequence([x], [x])
  {
    assert [x][1..] == [];
  }

  /** Reports stay in order when the queue gives up these positions. */
  lemma GivenUp(base: seq<S.QueueItem>, queue: seq<S.QueueItem>, n: nat, reported: seq<string>, more: seq<string>)
    requires n <= |queue| <= |base| && queue == base[|base| - |queue|..]
    requires Subsequence(reported, Ids(base[..|base| - |queue|])) && Subsequence(more, Ids(queue[..n]))
    ensures queue[n..] == base[|base| - |queue[n..]|..]
    ensures Subsequence(reported + more, Ids(base[..|base| - |queue[n..]|]))
  {
    hide Subsequence;
    var at := |base| - |queue|;
    SubsequenceConcat(reported, Ids(base[..at]), more, Ids(queue[..n]));
    assert Ids(base[..at + n]) == Ids(base[..at]) + Ids(queue[..n]);
  }

  lemma NothingMore(queue: seq<S.QueueItem>, fates: seq<Fate>, outcome: S.Outcome)
    requires FatesSound(queue, fates, outcome)
    ensures |fates| <= |queue| && Subsequence(Ids(FailedOf(queue, fates)), Ids(queue[..|fates|]))
    ensures outcome.Returned? ==>
              fates != [] && Subsequence(Ids(FailedOf(queue, fates)) + [queue[|fates| - 1].itemId], Ids(queue[..|fates|]))
  {
    hide Subsequence, FailedOf;
    FailedInOrder(queue, fates);
    if outcome.Returned? {
      FinalInOrder(queue, fates);
    }
  }

  /** What was reported since the last update, once these messages are pushed too. */
  lemma ReportedMore(st: State, ms: seq<Message>)
    requires st.mark <= |st.pipe.pushed|
    ensures ReportedIds((st.pipe.pushed + ms)[st.mark..]) == ReportedIds(st.pipe.pushed[st.mark..]) + ReportedIds(ms)
  {
    assert (st.pipe.pushed + ms)[st.mark..] == st.pipe.pushed[st.mark..] + ms;
    ReportedConcat(st.pipe.pushed[st.mark..], ms);
  }

  /** The loop keeps everything; and if it found a song, that may be reported next. */
  lemma TakenKeeps(st: State, r: Songs)
    requires st.cache.Some? && r.st.cache.Some? && Sound(st) && Taken(st, r)
    ensures Sound(r.st) && Quiet(st, r.st)
    ensures r.outcome.Returned? ==>
              var queue := r.st.cache.value.queue;
              && r.outcome.handle < |r.st.cache.value.items| && |queue| <= |st.base|
              && Subsequence(ReportedIds(r.st.pipe.pushed[st.mark..]) + [r.st.cache.value.items[r.outcome.handle].itemId],
                             Ids(st.base[..|st.base| - |queue|]))
  {
    hide S.Inv, PipeSound, Subsequence, FailedOf, FatesSound, ReportedIds;
    var queue, fates := st.cache.value.queue, r.fates;
    NothingMore(queue, fates, r.outcome);
    var failed := FailedOf(queue, fates);
    var reported := ReportedIds(st.pipe.pushed[st.mark..]);
    Told(st.pipe.pushed, Failures(failed));
    ReportedMore(st, Failures(failed));
    FailuresIds(failed);
    GivenUp(st.base, queue, |fates|, reported, Ids(failed));
    if r.outcome.Returned? {
      var id := queue[|fates| - 1].itemId;
      GivenUp(st.base, queue, |fates|, reported, Ids(failed) + [id]);
      assert reported + (Ids(failed) + [id]) == reported + Ids(failed) + [id];
    }
  }

  /** A song whose report is due is opened and reported. */
  lemma OpenItKeeps(st: State, itemId: string, d: P.Device)
    requires st.cache.Some? && Sound(st)
    requires var queue := st.cache.value.queue;
             && |queue| <= |st.base|
             && Subsequence(ReportedIds(st.pipe.pushed[st.mark..]) + [itemId], Ids(st.base[..|st.base| - |queue|]))
    ensures Sound(OpenIt(st, itemId, d)) && Quiet(st, OpenIt(st, itemId, d))
    ensures var played := P.Opened(P.Called(st.player, P.OpenCall), d);
            OpenIt(st, itemId, d) == st.(currentSong := Some(itemId), player := played.player, pipe := OpenIt(st, itemId, d).pipe)
            && OpenIt(st, itemId, d).pipe.pushed == st.pipe.pushed + Statuses(played.reports) + [SongStarted(itemId)]
  {
    hide S.Inv, PipeSound, Subsequence, ReportedIds, Ids;
    var st' := st.(currentSong := Some(itemId));
    assert Sound(st');
    var played := P.Opened(P.Called(st.player, P.OpenCall), d);
    PlaysKeeps(st', played);
    var mid := Plays(st', played);
    var r := Say(mid, SongStarted(itemId));
    ReportedMore(st, Statuses(played.reports));
    NoIdsIn(Statuses(played.reports));
    assert ReportedIds(st.pipe.pushed[st.mark..]) + [] == ReportedIds(st.pipe.pushed[st.mark..]);
    ReportedMore(mid, [SongStarted(itemId)]);
    assert ReportedIds([SongStarted(itemId)]) == [itemId] by { OneReported(itemId); }
    Told(mid.pipe.pushed, [SongStarted(itemId)]);
    assert Quiet(mid, r);
    QuietActs(st', mid, r);
  }

  lemma OneReported(itemId: string)
    ensures ReportedIds([SongStarted(itemId)]) == [itemId]
  {
    assert [SongStarted(itemId)][1..] == [];
  }

  /** The items that failed, what the player reported when the song was opened or the player closed,
      how it ended, and what the player reported when it was started. */
  datatype Trace = Trace(failed: seq<S.QueueItem>, reports: seq<bool>, opening: Opening, started: seq<bool>)

  /** The messages of a trace. */
  ghost function Lines(t: Trace): seq<Message> {
    Failures(t.failed) + Statuses(t.reports)
    + [match t.opening
       case Started(itemId) => SongStarted(itemId)
       case QueueEmpty => RequestPlaylist
       case ServerGone => FileserverDisconnected]
    + Statuses(t.started)
  }

  /** What the player is asked to do, and what it reports, when opening a song ends like this. */
  function Player1(p: P.Player, opening: Opening, d: P.Device): P.Played {
    match opening
    case Started(_) => P.Opened(P.Called(p, P.OpenCall), d)
    case QueueEmpty => P.Played(p, [])
    case ServerGone => P.Closed(P.Called(p, P.CloseCall), d)
  }

  /** And when it is then started, if there is a song and it is to play. */
  function Player2(p: P.Player, opening: Opening, play: bool, d: P.Device): P.Played {
    if opening.Started? && play then P.Started(P.Called(Player1(p, opening, d).player, P.PlayCall), d)
    else P.Played(Player1(p, opening, d).player, [])
  }

  /** How the loop ended. */
  function OpeningOf(r: Songs): Opening
    requires r.st.cache.Some? && (r.outcome.Returned? ==> r.outcome.handle < |r.st.cache.value.items|)
  {
    match r.outcome
    case Returned(h) => Started(r.st.cache.value.items[h].itemId)
    case EmptyQueue => QueueEmpty
    case _ => ServerGone
  }

  /** Everything about opening a song: which positions the queue gives up and why, the messages, the
      player, the waiting, and what remains. `play` is whether the song is to be played. */
  ghost predicate Opens(st: State, songs: Songs, d: P.Device, r: State, play: bool)
    requires st.cache.Some? && songs.st.cache.Some?
    requires songs.outcome.Returned? ==> songs.outcome.handle < |songs.st.cache.value.items|
  {
    var queue, fates, opening := st.cache.value.queue, songs.fates, OpeningOf(songs);
    && FatesSound(queue, fates, songs.outcome)
    && (opening.Started? ==> fates != [] && opening.itemId == queue[|fates| - 1].itemId)
    && r.pipe.pushed == st.pipe.pushed + Lines(TraceOf(st, songs, d, play))
    && r.player == Player2(st.player, opening, play, d).player
    && Remains(st, opening, queue[|fates|..], r)
  }

  /** The trace of the loop and what follows it. */
  ghost function TraceOf(st: State, songs: Songs, d: P.Device, play: bool): Trace
    requires st.cache.Some? && songs.st.cache.Some? && |songs.fates| <= |st.cache.value.queue|
    requires songs.outcome.Returned? ==> songs.outcome.handle < |songs.st.cache.value.items|
  {
    var opening := OpeningOf(songs);
    Trace(FailedOf(st.cache.value.queue, songs.fates), Player1(st.player, opening, d).reports, opening,
          Player2(st.player, opening, play, d).reports)
  }

  /** What is left in the end. */
  predicate Remains(st: State, opening: Opening, queue: seq<S.QueueItem>, r: State) {
    && (if opening == ServerGone then r.cache == None && !r.playing else r.cache.Some? && r.cache.value.queue == queue)
    && r.currentSong == (match opening
                         case Started(itemId) => Some(itemId)
                         case QueueEmpty => st.currentSong
                         case ServerGone => None)
    && r.waitingForQueue == (st.waitingForQueue || opening == QueueEmpty)
    && r.base == st.base && r.mark == st.mark
  }

  lemma ResetKeeps(st: State, d: P.Device)
    requires Sound(st)
    ensures var r := ResetPlayer(st, d);
            && Sound(r) && Quiet(st, r) && r.cache == None && Attended(r) && r.base == st.base && r.mark == st.mark
            && (st.cache.Some? ==>
                  var played := P.Closed(P.Called(st.player, P.CloseCall), d);
                  r.pipe.pushed == st.pipe.pushed + Statuses(played.reports) && r.player == played.player)
  {
    hide PipeSound, Subsequence, ReportedIds, Ids;
    if st.cache.Some? {
      PlaysKeeps(st, P.Closed(P.Called(st.player, P.CloseCall), d));
    } else {
      Told(st.pipe.pushed, []);
      assert st.pipe.pushed + [] == st.pipe.pushed;
    }
  }

  lemma WaitKeeps(st: State)
    requires st.cache.Some? && st.cache.value.queue == [] && Sound(st)
    ensures var r := WaitForQueue(st);
            && Sound(r) && Acts(st, r) && r == st.(waitingForQueue := true, waits := st.waits + 1, pipe := r.pipe)
            && r.pipe.pushed == st.pipe.pushed + [RequestPlaylist]
  {
    hide PipeSound, Subsequence, ReportedIds, Ids;
    var st' := st.(waitingForQueue := true, waits := st.waits + 1);
    assert Sound(st');
    SayKeeps(st', RequestPlaylist);
  }

  lemma LoseKeeps(st: State, d: P.Device)
    requires st.cache.Some? && Sound(st)
    ensures var r, played := LoseServer(st, d), P.Closed(P.Called(st.player, P.CloseCall), d);
            && Sound(r) && Quiet(st, r) && r.cache == None && !r.playing && r.currentSong == None
            && r.pipe.pushed == st.pipe.pushed + Statuses(played.reports) + [FileserverDisconnected]
            && r.player == played.player && r.base == st.base && r.mark == st.mark
  {
    hide Sound, Notified;
    ResetKeeps(st, d);
    var mid := ResetPlayer(st, d);
    SayKeeps(mid, FileserverDisconnected);
    QuietActs(st, mid, LoseServer(st, d));
  }

  lemma StartKeeps(st: State, d: P.Device)
    requires Sound(st)
    ensures var r, played := StartPlayer(st, d), P.Started(P.Called(st.player, P.PlayCall), d);
            && Sound(r) && Quiet(st, r) && r == st.(player := played.player, pipe := r.pipe)
            && r.pipe.pushed == st.pipe.pushed + Statuses(played.reports)
  {
    hide Sound, Quiet;
    PlaysKeeps(st, P.Started(P.Called(st.player, P.PlayCall), d));
  }

  lemma CacheIsSound(st: State)
    requires Sound(st) && st.cache.Some?
    ensures S.Inv(st.cache.value)
  {
  }

  lemma LinesAre(before: seq<Message>, failed: seq<S.QueueItem>, reports: seq<bool>, opening: Opening)
    ensures var m := match opening
                     case Started(itemId) => SongStarted(itemId)
                     case QueueEmpty => RequestPlaylist
                     case ServerGone => FileserverDisconnected;
            before + Failures(failed) + Statuses(reports) + [m] == before + Lines(Trace(failed, reports, opening, []))
  {
  }

  /** What the end of OpenOrWait adds to the loop. */
  ghost predicate Ends(songs: Songs, opening: Opening, d: P.Device, r: State)
    requires songs.st.cache.Some?
  {
    var played, queue := Player1(songs.st.player, opening, d), songs.st.cache.value.queue;
    && Sound(r) && Acts(songs.st, r)
    && r.pipe.pushed == songs.st.pipe.pushed + Statuses(played.reports)
                        + [match opening
                           case Started(itemId) => SongStarted(itemId)
                           case QueueEmpty => RequestPlaylist
                           case ServerGone => FileserverDisconnected]
    && r.player == played.player && Remains(songs.st, opening, queue, r)
    && (opening != ServerGone ==> r.playing == songs.st.playing)
  }

  lemma OpensSong(st: State, songs: Songs, d: P.Device)
    requires st.cache.Some? && songs.st.cache.Some? && Sound(st) && Taken(st, songs) && songs.outcome.Returned?
    ensures songs.outcome.handle < |songs.st.cache.value.items|
    ensures Ends(songs, OpeningOf(songs), d, OpenIt(songs.st, songs.st.cache.value.items[songs.outcome.handle].itemId, d))
  {
    hide Sound, Quiet, Subsequence, ReportedIds, Ids, S.Inv, PipeSound;
    TakenKeeps(st, songs);
    var itemId := songs.st.cache.value.items[songs.outcome.handle].itemId;
    OpenItKeeps(songs.st, itemId, d);
    assert Acts(songs.st, OpenIt(songs.st, itemId, d)) by { QuietIsActing(songs.st, OpenIt(songs.st, itemId, d)); }
  }

  lemma QuietIsActing(st: State, r: State)
    requires Quiet(st, r)
    ensures Acts(st, r)
  {
  }

  lemma MeetsTheEnd(st: State, songs: Songs)
    requires st.cache.Some? && songs.st.cache.Some? && Taken(st, songs) && songs.outcome == S.EmptyQueue
    ensures songs.st.cache.value.queue == []
  {
  }

  lemma FindsNothing(st: State, songs: Songs, d: P.Device)
    requires st.cache.Some? && songs.st.cache.Some? && Sound(st) && Taken(st, songs)
    requires !songs.outcome.Returned? && !songs.outcome.FailedToLoad?
    ensures Ends(songs, OpeningOf(songs), d,
                 if songs.outcome == S.EmptyQueue then WaitForQueue(songs.st) else LoseServer(songs.st, d))
  {
    hide Sound, Quiet, Acts, Subsequence, ReportedIds, Ids, S.Inv, PipeSound, Taken;
    TakenKeeps(st, songs);
    if songs.outcome == S.EmptyQueue {
      MeetsTheEnd(st, songs);
      WaitKeeps(songs.st);
      assert songs.st.pipe.pushed + Statuses([]) == songs.st.pipe.pushed;
    } else {
      LoseKeeps(songs.st, d);
      QuietIsActing(songs.st, LoseServer(songs.st, d));
    }
  }

  lemma EndsOpen(st: State, songs: Songs, d: P.Device, r: State)
    requires st.cache.Some? && songs.st.cache.Some? && Taken(st, songs)
    requires songs.outcome.Returned? ==> songs.outcome.handle < |songs.st.cache.value.items|
    requires Ends(songs, OpeningOf(songs), d, r)
    ensures Opens(st, songs, d, r, false)
  {
    hide Sound, Acts, S.Inv, PipeSound, FatesSound, FailedOf, Lines, Player1, Failures, Statuses;
    var opening := OpeningOf(songs);
    FatesFit(st.cache.value.queue, songs.fates, songs.outcome);
    LinesAre(st.pipe.pushed, FailedOf(st.cache.value.queue, songs.fates), Player1(st.player, opening, d).reports, opening);
  }

  /** OpenOrWait, without starting the player. */
  lemma OpenOrWaitKeeps(st: State, w: World)
    requires st.cache.Some? && Sound(st)
    ensures var (r, opening) := OpenOrWait(st, w);
            && Sound(r) && Acts(st, r) && Opens(st, TakeSongs(st, w.pulls), w.device, r, false)
            && opening == OpeningOf(TakeSongs(st, w.pulls))
            && (opening != ServerGone ==> r.playing == st.playing)
  {
    hide Sound, Acts, Quiet, Opens, TakeSongs, Taken, OpenIt, WaitForQueue, LoseServer;
    var songs := TakeSongs(st, w.pulls);
    var (r, opening) := OpenOrWait(st, w);
    CacheIsSound(st);
    TakeSongsMeaning(st, w.pulls);
    TakenKeeps(st, songs);
    TakenSame(st, songs);
    if songs.outcome.Returned? {
      OpensSong(st, songs, w.device);
    } else {
      FindsNothing(st, songs, w.device);
    }
    EndsOpen(st, songs, w.device, r);
    QuietActs(st, songs.st, r);
  }

  lemma TakenSame(st: State, r: Songs)
    requires st.cache.Some? && r.st.cache.Some? && Taken(st, r)
    ensures r.st.playing == st.playing && r.st.currentSong == st.currentSong
  {
  }

  // ---------------------------------------------------------------------------------------------
  // Actions

  lemma LinesStarted(t: Trace, started: seq<bool>)
    requires t.started == []
    ensures Lines(t.(started := started)) == Lines(t) + Statuses(started)
  {
  }

  /** The player is started once the song is open. */
  lemma StartsSong(st: State, songs: Songs, d: P.Device, mid: State)
    requires st.cache.Some? && songs.st.cache.Some? && songs.outcome.Returned?
    requires songs.outcome.handle < |songs.st.cache.value.items|
    requires Opens(st, songs, d, mid, false) && Sound(mid)
    ensures var r := StartPlayer(mid, d);
            Sound(r) && Quiet(mid, r) && Opens(st, songs, d, r, true) && r.playing == mid.playing
  {
    hide Sound, Quiet, FatesSound, FailedOf, Lines, P.Started, P.Opened;
    StartKeeps(mid, d);
    FatesFit(st.cache.value.queue, songs.fates, songs.outcome);
    LinesStarted(TraceOf(st, songs, d, false), Player2(st.player, OpeningOf(songs), true, d).reports);
  }

  /** Without a song there is nothing to start. */
  lemma NothingStarts(st: State, songs: Songs, d: P.Device, r: State)
    requires st.cache.Some? && songs.st.cache.Some? && !songs.outcome.Returned?
    requires Opens(st, songs, d, r, false)
    ensures Opens(st, songs, d, r, true)
  {
  }

  lemma RemainsSo(st: State, songs: Songs, d: P.Device, r: State, play: bool)
    requires st.cache.Some? && songs.st.cache.Some?
    requires songs.outcome.Returned? ==> songs.outcome.handle < |songs.st.cache.value.items|
    requires Opens(st, songs, d, r, play)
    ensures OpeningOf(songs).Started? ==> r.currentSong.Some?
    ensures OpeningOf(songs) == QueueEmpty ==> r.waitingForQueue
    ensures r.cache == None <==> OpeningOf(songs) == ServerGone
    ensures OpeningOf(songs) == ServerGone ==> !r.playing
    ensures r.waitingForQueue == (st.waitingForQueue || OpeningOf(songs) == QueueEmpty)
  {
  }

  /** What an attempt to open a song keeps, and all it does. */
  ghost predicate OpensFrom(st: State, w: World, r: State, play: bool)
    requires st.cache.Some?
  {
    Sound(r) && Acts(st, r) && Attended(r) && Opens(st, TakeSongs(st, w.pulls), w.device, r, play)
  }

  /** NextAction: without a cache nothing; otherwise a song is opened, and started if one was playing. */
  lemma NextTrace(st: State, w: World)
    requires Sound(st)
    ensures var done := NextAction(st, w);
            && done.rtc == (if done.st.cache == None then FILESERVER_NOT_SET else OK)
            && (st.cache == None ==> done.st == st)
            && (st.cache.Some? ==>
                  OpensFrom(st, w, done.st, st.playing) && (done.st.cache.Some? ==> done.st.playing == st.playing))
  {
    hide Sound, Acts, Quiet, Opens, TakeSongs, OpenOrWait, StartPlayer;
    if st.cache.Some? {
      var songs := TakeSongs(st, w.pulls);
      var (mid, opening) := OpenOrWait(st, w);
      OpenOrWaitKeeps(st, w);
      RemainsSo(st, songs, w.device, mid, false);
      if opening.Started? && mid.playing {
        StartsSong(st, songs, w.device, mid);
        QuietActs(st, mid, StartPlayer(mid, w.device));
        RemainsSo(st, songs, w.device, StartPlayer(mid, w.device), true);
      } else if !songs.outcome.Returned? {
        NothingStarts(st, songs, w.device, mid);
      }
    }
  }

  lemma PlayingSet(st: State)
    requires Sound(st) && st.cache.Some?
    ensures var r := st.(playing := true);
            Sound(r) && Quiet(st, r)
  {
    Told(st.pipe.pushed, []);
    assert st.pipe.pushed + [] == st.pipe.pushed;
  }

  lemma PlayingOpens(st: State, songs: Songs, d: P.Device, r: State)
    requires st.cache.Some? && songs.st.cache.Some?
    requires songs.outcome.Returned? ==> songs.outcome.handle < |songs.st.cache.value.items|
    requires Opens(st, songs, d, r, false) && r.cache.Some?
    ensures Opens(st, songs, d, r.(playing := true), false)
  {
  }

  /** PlayAction: without a cache nothing; without a song one is opened, and the player is started
      unless it was to play already. */
  lemma PlayTrace(st: State, w: World)
    requires Sound(st) && Attended(st)
    ensures var done := PlayAction(st, w);
            && done.rtc == (if done.st.cache == None then FILESERVER_NOT_SET else OK)
            && (st.cache == None ==> done.st == st)
            && (st.cache.Some? && st.currentSong == None ==> OpensFrom(st, w, done.st, !st.playing))
            && (st.cache.Some? && st.currentSong.Some? ==>
                  Sound(done.st) && Acts(st, done.st) && Attended(done.st) &&
                  done.st == if st.playing then st else StartPlayer(st.(playing := true), w.device))
            && (done.st.cache.Some? ==> done.st.playing)
  {
    hide Sound, Acts, Quiet, Opens, TakeSongs, OpenOrWait, StartPlayer;
    if st.cache.Some? && st.currentSong.Some? {
      PlayingSet(st);
      if !st.playing {
        var mid := st.(playing := true);
        StartKeeps(mid, w.device);
        QuietActs(st, mid, StartPlayer(mid, w.device));
      } else {
        QuietIsActing(st, st.(playing := true));
      }
    } else if st.cache.Some? {
      var songs := TakeSongs(st, w.pulls);
      var (mid, opening) := OpenOrWait(st, w);
      OpenOrWaitKeeps(st, w);
      RemainsSo(st, songs, w.device, mid, false);
      if opening != ServerGone && !mid.playing {
        PlayingSet(mid);
        var on := mid.(playing := true);
        QuietActs(st, mid, on);
        PlayingOpens(st, songs, w.device, mid);
        if opening.Started? {
          StartsSong(st, songs, w.device, on);
          QuietActs(st, on, StartPlayer(on, w.device));
          RemainsSo(st, songs, w.device, StartPlayer(on, w.device), true);
        } else {
          NothingStarts(st, songs, w.device, on);
        }
      } else if opening == ServerGone {
        NothingStarts(st, songs, w.device, mid);
      }
    }
  }

  /** An action is sound. */
  ghost predicate SoundAction(st: State, r: State) {
    Sound(r) && Acts(st, r) && Attended(r)
  }

  lemma NothingDone(st: State)
    requires Sound(st) && Attended(st)
    ensures SoundAction(st, st)
  {
    Told(st.pipe.pushed, []);
    assert st.pipe.pushed + [] == st.pipe.pushed;
  }

  /** PauseAction: nothing plays any more, whether or not the stream could be stopped. */
  lemma PauseTrace(st: State, d: P.Device)
    requires Sound(st) && Attended(st)
    ensures var done, played := PauseAction(st, d), P.Stopped(P.Called(st.player, P.PauseCall), d);
            && SoundAction(st, done.st) && !done.st.playing && done.st.currentSong == st.currentSong && done.st.cache == st.cache
            && done.rtc == (if st.cache == None then FILESERVER_NOT_SET else OK)
            && (st.cache.Some? ==>
                  && done.st.pipe.pushed == st.pipe.pushed + Statuses(played.reports)
                  && done.st.player == played.player)
  {
    hide PipeSound, Subsequence, ReportedIds, Ids;
    NothingDone(st);
    if st.cache.Some? {
      PlaysKeeps(st, P.Stopped(P.Called(st.player, P.PauseCall), d));
    }
  }

  /** ResetAction: no cache, no song, nothing plays; the waiting goes on. */
  lemma ResetTrace(st: State, d: P.Device)
    requires Sound(st)
    ensures var done := ResetAction(st, d);
            && SoundAction(st, done.st) && done.rtc == OK
            && done.st.cache == None && !done.st.playing && done.st.currentSong == None
            && done.st.waitingForQueue == st.waitingForQueue
  {
    hide Sound, Quiet, Acts;
    ResetKeeps(st, d);
    QuietIsActing(st, ResetPlayer(st, d));
    ResetWaits(st, d);
  }

  lemma ResetWaits(st: State, d: P.Device)
    requires Sound(st)
    ensures var r := ResetPlayer(st, d);
            !r.playing && r.currentSong == None && r.waitingForQueue == st.waitingForQueue
  {
    hide PushedAll;
  }

  lemma InitialCache()
    ensures S.Inv(S.INITIAL)
  {
  }

  /** InitializeAction: with a url there is a new, empty cache, and the playlist is asked for exactly
      when the server answers; what is playing goes on. */
  lemma InitializeTrace(st: State, payload: map<string, Json>, online: bool)
    requires Sound(st) && Attended(st)
    ensures var done := InitializeAction(st, payload, online);
            && SoundAction(st, done.st)
            && done.st.playing == st.playing && done.st.currentSong == st.currentSong
            && done.st.waitingForQueue == st.waitingForQueue
            && (if HasString(payload, "url") then
                  && done.rtc == (if online then OK else FILESERVER_UNREACHABLE)
                  && done.st.cache == Some(S.INITIAL)
                  && done.st.player == (if online then st.player.(hasCallbacks := true) else st.player)
                  && done.st.pipe.pushed == st.pipe.pushed + (if online then [RequestPlaylist] else [])
                else done == Done(st, MALFORMED_REQUEST))
  {
    hide Sound, Quiet, Acts, Attended;
    NothingDone(st);
    if HasString(payload, "url") {
      var st' := NewCache(st);
      NewCacheKeeps(st);
      NothingSaid(st, st');
      PlayerIsFree(st', st'.player.(hasCallbacks := true));
      if online {
        var on := st'.(player := st'.player.(hasCallbacks := true));
        SayKeeps(on, RequestPlaylist);
        Asks(st, st', Say(on, RequestPlaylist));
      } else {
        assert st.pipe.pushed + [] == st.pipe.pushed;
        QuietIsActing(st, st');
      }
      StillAttended(st, if online then Say(st'.(player := st'.player.(hasCallbacks := true)), RequestPlaylist) else st');
    }
  }

  function NewCache(st: State): State {
    st.(cache := Some(S.INITIAL), base := [], mark := |st.pipe.pushed|)
  }

  lemma NewCacheKeeps(st: State)
    requires Sound(st)
    ensures Sound(NewCache(st))
  {
    hide ReportSound, PipeSound, S.Inv;
    InitialCache();
    ReportRestarts(st, S.INITIAL);
  }

  lemma PlayerIsFree(st: State, player: P.Player)
    requires Sound(st)
    ensures Sound(st.(player := player))
  {
  }

  lemma ReportRestarts(st: State, cache: S.State)
    ensures ReportSound(st.(cache := Some(cache), base := cache.queue, mark := |st.pipe.pushed|))
  {
    NoneReported(st.pipe.pushed);
    assert cache.queue[|cache.queue| - |cache.queue|..] == cache.queue;
  }

  lemma NothingSaid(st: State, r: State)
    requires r.pipe == st.pipe && r.tally == st.tally && r.waits == st.waits && r.waitingForQueue == st.waitingForQueue
    ensures Quiet(st, r)
  {
    Told(st.pipe.pushed, []);
    assert st.pipe.pushed + [] == st.pipe.pushed;
  }

  lemma Asks(st: State, mid: State, r: State)
    requires Quiet(st, mid) && Quiet(mid.(player := mid.player.(hasCallbacks := true)), r)
    ensures Acts(st, r)
  {
    hide Notified, Asked;
    NotifiedTwice(st.pipe.pushed, mid.pipe.pushed, r.pipe.pushed);
  }

  lemma StillAttended(st: State, r: State)
    requires Attended(st) && r.playing == st.playing && r.currentSong == st.currentSong && r.waitingForQueue == st.waitingForQueue
    ensures Attended(r)
  {
  }

  lemma NoneReported(pushed: seq<Message>)
    ensures ReportedIds(pushed[|pushed|..]) == []
  {
  }

  lemma VolumeTrace(st: State, payload: map<string, Json>)
    requires Sound(st) && Attended(st)
    ensures var done := VolumeAction(st, payload);
            && SoundAction(st, done.st)
            && done == if VolumeOk(payload) then Done(st.(player := st.player.(volume := payload["volume"].n)), OK)
                       else Done(st, MALFORMED_REQUEST)
  {
    hide PipeSound, Subsequence, ReportedIds, Ids;
    NothingDone(st);
  }

  lemma TakeQueueKeeps(st: State, queue: seq<S.QueueItem>)
    requires Sound(st) && st.cache.Some?
    ensures var r := TakeQueue(st, queue);
            && Sound(r) && Quiet(st, r) && r.cache.Some? && r.cache.value.queue == queue
            && r == st.(cache := r.cache, base := queue, mark := |st.pipe.pushed|)
  {
    hide PipeSound, S.Inv, S.UpdateCache, ReportSound, Quiet;
    S.ExecKeeps(st.cache.value, S.Update(queue));
    ReportRestarts(st, S.UpdateQueue(st.cache.value, queue));
    NothingSaid(st, TakeQueue(st, queue));
  }

  /** UpdateQueueAction: a queue that is taken over replaces the old one, and whoever waited for it
      opens a song; otherwise the playlist is asked for when less than three songs are left. What is
      refused changes nothing. */
  lemma UpdateQueueTrace(st: State, payload: map<string, Json>, w: World)
    requires Sound(st) && Attended(st)
    ensures var done := UpdateQueueAction(st, payload, w);
            && SoundAction(st, done.st)
            && (if st.cache == None then done == Done(st, FILESERVER_NOT_SET)
                else if !HasQueue(payload) then done == Done(st, MALFORMED_REQUEST)
                else
                  var queue := QueueOf(payload);
                  var taken := TakeQueue(st, queue).(waitingForQueue := false);
                  && done.rtc == OK
                  && (if st.waitingForQueue then OpensFrom(taken, w, done.st, st.playing)
                      else
                        && done.st == TakeQueue(st, queue).(pipe := done.st.pipe)
                        && done.st.pipe.pushed == st.pipe.pushed + (if |queue| < 3 then [RequestPlaylist] else [])))
  {
    hide Sound, Quiet, OpensFrom, TakeQueue, S.UpdateQueue;
    NothingDone(st);
    if st.cache.Some? && HasQueue(payload) {
      var queue := QueueOf(payload);
      var mid := TakeQueue(st, queue);
      TakeQueueKeeps(st, queue);
      if st.waitingForQueue {
        var taken := mid.(waitingForQueue := false);
        assert Sound(taken) by { WaitingIsFree(mid); }
        NextTrace(taken, w);
        StopsWaiting(st, mid, NextAction(taken, w).st, w);
      } else if |queue| < 3 {
        SayKeeps(mid, RequestPlaylist);
        QuietActs(st, mid, Say(mid, RequestPlaylist));
        NotWaiting(st, mid, Say(mid, RequestPlaylist));
      } else {
        QuietIsActing(st, mid);
        assert st.pipe.pushed + [] == st.pipe.pushed;
      }
    }
  }

  lemma WaitingIsFree(st: State)
    requires Sound(st)
    ensures Sound(st.(waitingForQueue := false))
  {
  }

  lemma NotWaiting(st: State, mid: State, r: State)
    requires Attended(st) && !st.waitingForQueue && r == mid.(pipe := r.pipe)
    requires mid.playing == st.playing && mid.currentSong == st.currentSong
    ensures Attended(r)
  {
  }

  /** Who stopped waiting to open a song may wait again. */
  lemma StopsWaiting(st: State, mid: State, r: State, w: World)
    requires Quiet(st, mid) && mid.cache.Some? && st.waitingForQueue
    requires OpensFrom(mid.(waitingForQueue := false), w, r, mid.playing)
    ensures SoundAction(st, r)
  {
    hide Sound, Opens, Notified, Asked;
    NotifiedTwice(st.pipe.pushed, mid.pipe.pushed, r.pipe.pushed);
  }

  /** A session is reset, initialised again and given a queue: it opens a song then, though it was not
      asked to, exactly when it was waiting before the reset; otherwise it has no song and at most asks
      for the playlist. */
  lemma ResetRemembers(st: State, d: P.Device, url: map<string, Json>, payload: map<string, Json>, w: World)
    requires Sound(st) && HasString(url, "url") && HasQueue(payload)
    ensures var again := InitializeAction(ResetAction(st, d).st, url, true).st;
            var r := UpdateQueueAction(again, payload, w).st;
            && again.cache == Some(S.INITIAL) && again.currentSong == None && again.waitingForQueue == st.waitingForQueue
            && (st.waitingForQueue ==>
                  OpensFrom(TakeQueue(again, QueueOf(payload)).(waitingForQueue := false), w, r, false))
            && (!st.waitingForQueue ==>
                  && r.currentSong == None && r.player == again.player
                  && r.pipe.pushed == again.pipe.pushed + if |QueueOf(payload)| < 3 then [RequestPlaylist] else [])
  {
    hide Sound, Acts, Attended, OpensFrom, ResetPlayer, InitializeAction, UpdateQueueAction, S.UpdateQueue;
    ResetTrace(st, d);
    var reset := ResetAction(st, d).st;
    InitializeTrace(reset, url, true);
    UpdateQueueTrace(InitializeAction(reset, url, true).st, payload, w);
  }

  // ---------------------------------------------------------------------------------------------
  // Requests

  /** What an action keeps, whether or not it counts a failure. */
  ghost predicate SoundStep(st: State, r: State) {
    Sound(r) && Attended(r) && Speaks(st, r) && Waited(st, r)
  }

  lemma ActionIsStep(st: State, r: State)
    requires SoundAction(st, r)
    ensures SoundStep(st, r) && r.tally == st.tally
  {
  }

  lemma FailureIsStep(st: State)
    requires Sound(st) && Attended(st)
    ensures SoundStep(st, CountedFailure(st))
  {
    NothingDone(st);
  }

  /** A request that changes nothing in the player. */
  predicate Idle(request: map<string, Json>) {
    !HasHeader(request) || !HasString(request, "method") ||
    var action := GetAction(request["method"].s);
    action == NOT_SUPPORTED ||
    (action in {UPDATE_QUEUE, INITIALIZE, VOLUME} && !HasParams(request)) || action in {CLOSE, SEEK}
  }

  /** What the read loop keeps of an action: whether it is counted, and how it is answered. */
  predicate Dispatched(st: State, request: map<string, Json>, online: bool, done: Done) {
    && done.st.tally == st.tally.(failCounter := st.tally.failCounter + if Counted(Some(Object(request))) then 1 else 0)
    && done.rtc == RightCode(request, st.cache.Some?, done.st.cache.Some?, online)
  }

  lemma ParamsTrace(st: State, action: ActionEnum, request: map<string, Json>, w: World)
    requires Sound(st) && Attended(st) && action in {UPDATE_QUEUE, INITIALIZE, VOLUME, CLOSE, SEEK}
    ensures var done := ParamsAction(st, action, request, w);
            && SoundStep(st, done.st)
            && done.st.tally == st.tally.(failCounter := st.tally.failCounter +
                                                         if action in {CLOSE, SEEK} && HasParams(request) then 1 else 0)
            && done.rtc == ParamsCode(action, request, st.cache.Some?, w.online)
  {
    hide Sound, Attended, SoundAction, SoundStep, OpensFrom, UpdateQueueAction, InitializeAction, VolumeAction;
    NothingDone(st);
    ActionIsStep(st, st);
    FailureIsStep(st);
    if HasParams(request) {
      var payload := request["params"].fields;
      UpdateQueueTrace(st, payload, w);
      ActionIsStep(st, UpdateQueueAction(st, payload, w).st);
      InitializeTrace(st, payload, w.online);
      ActionIsStep(st, InitializeAction(st, payload, w.online).st);
      VolumeTrace(st, payload);
      ActionIsStep(st, VolumeAction(st, payload).st);
    }
  }

  lemma PlainTrace(st: State, w: World)
    requires Sound(st) && Attended(st)
    ensures SoundStep(st, PlayAction(st, w).st) && SoundStep(st, NextAction(st, w).st)
    ensures SoundStep(st, PauseAction(st, w.device).st) && SoundStep(st, ResetAction(st, w.device).st)
    ensures PlayAction(st, w).st.tally == NextAction(st, w).st.tally == st.tally
    ensures PauseAction(st, w.device).st.tally == ResetAction(st, w.device).st.tally == st.tally
    ensures PlayAction(st, w).rtc == if PlayAction(st, w).st.cache == None then FILESERVER_NOT_SET else OK
    ensures NextAction(st, w).rtc == if NextAction(st, w).st.cache == None then FILESERVER_NOT_SET else OK
    ensures PauseAction(st, w.device).rtc == if st.cache == None then FILESERVER_NOT_SET else OK
    ensures ResetAction(st, w.device).rtc == OK
  {
    hide Sound, Acts, Attended, PlayAction, NextAction, PauseAction, ResetAction, Opens, SoundStep;
    NothingDone(st);
    PlayTrace(st, w);
    NextTrace(st, w);
    PauseTrace(st, w.device);
    ResetTrace(st, w.device);
    ActionIsStep(st, PlayAction(st, w).st);
    ActionIsStep(st, NextAction(st, w).st);
    ActionIsStep(st, PauseAction(st, w.device).st);
    ActionIsStep(st, ResetAction(st, w.device).st);
  }

  /** Every request is answered with the right code, and counted if and only if it is a failure by
      Counted. */
  lemma DispatchTrace(st: State, request: map<string, Json>, w: World)
    requires Sound(st) && Attended(st)
    ensures var done := Dispatch(st, request, w);
            SoundStep(st, done.st) && Dispatched(st, request, w.online, done)
  {
    hide Sound, Attended, SoundAction, SoundStep, PlayAction, NextAction, PauseAction, ResetAction, GetAction, HasHeader;
    hide ParamsAction, ParamsCode, HasParams;
    NothingDone(st);
    ActionIsStep(st, st);
    FailureIsStep(st);
    if HasHeader(request) && HasString(request, "method") {
      var action := GetAction(request["method"].s);
      if action in {UPDATE_QUEUE, INITIALIZE, VOLUME, CLOSE, SEEK} {
        ParamsTrace(st, action, request, w);
      } else if action != NOT_SUPPORTED {
        PlainTrace(st, w);
      }
    }
  }

  /** A request without a proper header, without a method, without parameters where they are needed, or
      with an action that is not supported touches neither player nor cache, and causes no message. */
  lemma IdleTrace(st: State, request: map<string, Json>, w: World)
    requires Idle(request)
    ensures Dispatch(st, request, w).st == st.(tally := Dispatch(st, request, w).st.tally)
  {
  }

  /** An answer adds to the fail counter exactly when its code is 11, or when it is 12 behind a proper
      header without a method; any other answer ends the streak, though it may be an error too. */
  lemma AnswersCounted(st: State, request: map<string, Json>, w: World)
    requires Sound(st) && Attended(st)
    ensures var done, r := Dispatch(st, request, w), HandleRequest(st, request, w);
            && r.pipe.pushed == done.st.pipe.pushed + [Response(done.rtc, if "id" in request then request["id"] else Null)]
            && r.tally.failCounter ==
               if done.rtc == 11 ||
                  (done.rtc == 12 && ProperHeader(request) && !("method" in request && request["method"].String?))
               then st.tally.failCounter + 1 else 0
  {
    hide Sound, SoundStep, Dispatch;
    DispatchTrace(st, request, w);
  }

  /** A request of version 2.0 with an id. */
  predicate ProperHeader(request: map<string, Json>) {
    "jsonrpc" in request && request["jsonrpc"] == String("2.0") && "id" in request
  }

  const METHODS := {"PLAY", "PAUSE", "NEXT", "RESET", "CLOSE", "UPDATEQUEUE", "INITIALIZE", "VOLUME", "SEEK"}

  /** Which payloads are counted as failures: what is no object; and behind a proper header a request
      without a method, with a method of another name, or one to close or seek that has parameters. */
  lemma CountedMeaning(payload: Option<Json>)
    ensures Counted(payload) <==>
            (payload.Some? && payload.value.Object? ==>
               var request := payload.value.fields;
               && ProperHeader(request)
               && ("method" in request && request["method"].String? ==>
                     var text := request["method"].s;
                     text !in METHODS ||
                     ((text == "CLOSE" || text == "SEEK") && "params" in request && request["params"].Object?)))
  {
  }

  /** Which method text starts which action, and the codes of requests that start none. */
  lemma MethodTexts(st: State, request: map<string, Json>, w: World)
    requires ProperHeader(request) && "method" in request && request["method"].String?
    ensures var text, done := request["method"].s, Dispatch(st, request, w);
            && (text == "PLAY" ==> done == PlayAction(st, w))
            && (text == "PAUSE" ==> done == PauseAction(st, w.device))
            && (text == "NEXT" ==> done == NextAction(st, w))
            && (text == "RESET" ==> done == ResetAction(st, w.device))
            && (text !in METHODS ==>
                  done.rtc == 11 && done.st == st.(tally := st.tally.(failCounter := st.tally.failCounter + 1)))
  {
  }

  /** The methods with parameters; without them nothing is done and the answer is 0. */
  lemma MethodsWithParams(st: State, request: map<string, Json>, w: World)
    requires ProperHeader(request) && "method" in request && request["method"].String?
    requires request["method"].s in {"UPDATEQUEUE", "INITIALIZE", "VOLUME", "CLOSE", "SEEK"}
    ensures var text, done := request["method"].s, Dispatch(st, request, w);
            if "params" in request && request["params"].Object? then
              var payload := request["params"].fields;
              && (text == "UPDATEQUEUE" ==> done == UpdateQueueAction(st, payload, w))
              && (text == "INITIALIZE" ==> done == InitializeAction(st, payload, w.online))
              && (text == "VOLUME" ==> done == VolumeAction(st, payload))
              && (text == "CLOSE" || text == "SEEK" ==>
                    done.rtc == 11 && done.st == st.(tally := st.tally.(failCounter := st.tally.failCounter + 1)))
            else done == Done(st, 0)
  {
    hide UpdateQueueAction, InitializeAction, VolumeAction;
  }

  /** A request without a proper header or without a method is answered with 12; only the second is
      counted. */
  lemma NoMethod(st: State, request: map<string, Json>, w: World)
    ensures !ProperHeader(request) ==> Dispatch(st, request, w) == Done(st, 12)
    ensures ProperHeader(request) && !("method" in request && request["method"].String?) ==>
              Dispatch(st, request, w) == Done(st.(tally := st.tally.(failCounter := st.tally.failCounter + 1)), 12)
  {
  }

  /** The codes of the actions, by number. */
  lemma ActionCodes(st: State, payload: map<string, Json>, w: World)
    requires Sound(st) && Attended(st)
    ensures PlayAction(st, w).rtc == if PlayAction(st, w).st.cache == None then 13 else 0
    ensures NextAction(st, w).rtc == if NextAction(st, w).st.cache == None then 13 else 0
    ensures PauseAction(st, w.device).rtc == (if st.cache == None then 13 else 0) && ResetAction(st, w.device).rtc == 0
    ensures InitializeAction(st, payload, w.online).rtc ==
            if !("url" in payload && payload["url"].String?) then 12 else if w.online then 0 else 55
    ensures VolumeAction(st, payload).rtc ==
            if "volume" in payload && payload["volume"].Number? && 0 <= payload["volume"].n <= 100 then 0 else 12
    ensures UpdateQueueAction(st, payload, w).rtc == if st.cache == None then 13 else if HasQueue(payload) then 0 else 12
  {
    hide Sound, Acts, Attended, SoundStep, PlayAction, NextAction, PauseAction, Opens, OpensFrom, SoundAction;
    PlainTrace(st, w);
  }

  /** The steps between two payloads keep all of this but what the reading itself changes. */
  ghost predicate Holds(st: State) {
    && Sound(st) && Attended(st) && ResponseIds(st.pipe.pushed) == st.tally.asked
    && st.tally.failCounter == Streak(st.tally.judged)
    && st.waits <= PlaylistRequests(st.pipe.pushed) && (st.waitingForQueue ==> st.waits > 0)
  }

  lemma WaitsCounted(st: State, r: State)
    requires Waited(st, r) && st.pipe.pushed <= r.pipe.pushed
    requires st.waits <= PlaylistRequests(st.pipe.pushed) && (st.waitingForQueue ==> st.waits > 0)
    ensures r.waits <= PlaylistRequests(r.pipe.pushed) && (r.waitingForQueue ==> r.waits > 0)
  {
    RequestsGrow(st.pipe.pushed, r.pipe.pushed);
  }

  lemma StepHolds(st: State, r: State)
    requires Holds(st) && SoundStep(st, r) && r.tally == st.tally
    ensures Holds(r) && st.pipe.pushed <= r.pipe.pushed && Waited(st, r)
  {
    hide Sound, PlaylistRequests, ResponseIds, Streak;
    NotifiedIds(st.pipe.pushed, r.pipe.pushed);
    hide Asked;
    WaitsCounted(st, r);
  }

  /** A message that is no report may always be pushed. */
  lemma AnswerKeeps(st: State, m: Message)
    requires Sound(st) && IdIn(m) == []
    ensures Sound(Say(st, m))
  {
    hide PipeSound, Subsequence, ReportedIds, Ids, S.Inv;
    ReportedMore(st, [m]);
    NoIdsIn([m]);
    assert ReportedIds(st.pipe.pushed[st.mark..]) + [] == ReportedIds(st.pipe.pushed[st.mark..]);
  }

  lemma ResponsesPush(before: seq<Message>, pushed: seq<Message>, m: Message)
    requires Notified(before, pushed) && m.Response?
    ensures ResponseIds(pushed + [m]) == ResponseIds(before) + [m.id]
  {
    NotifiedIds(before, pushed);
    assert (pushed + [m])[..|pushed|] == pushed;
  }

  /** Every request gets exactly one response, after all it caused, with its own id. */
  lemma OneResponse(st: State, request: map<string, Json>, w: World)
    requires Holds(st)
    ensures var done, r := Dispatch(st, request, w), HandleRequest(st, request, w);
            && Holds(r) && Waited(st, r) && Notified(st.pipe.pushed, done.st.pipe.pushed)
            && r.pipe.pushed == done.st.pipe.pushed + [Response(done.rtc, if "id" in request then request["id"] else Null)]
            && r.tally.judged == st.tally.judged + [Counted(Some(Object(request)))]
            && r.tally.asked == st.tally.asked + [if "id" in request then request["id"] else Null]
            && r.tally.failCounter <= st.tally.failCounter + 1
            && r.tally.reading == st.tally.reading && r.tally.rejected == st.tally.rejected
            && st.pipe.handed <= r.pipe.handed && r.pipe.closed == st.pipe.closed
  {
    hide Sound, PlaylistRequests, ResponseIds, Dispatch, Counted, Pushed, RightCode;
    DispatchTrace(st, request, w);
    var done, r := Dispatch(st, request, w), HandleRequest(st, request, w);
    var m := Response(done.rtc, IdOf(request));
    AnswerKeeps(done.st, m);
    TallyIsFree(Say(done.st, m), r.tally);
    ResponsesPush(st.pipe.pushed, done.st.pipe.pushed, m);
    StreakPush(st.tally.judged, Counted(Some(Object(request))));
    AskedMore(st.pipe.pushed, done.st.pipe.pushed, m);
    WaitsCounted(st, r);
  }

  lemma TallyIsFree(st: State, t: Tally)
    requires Sound(st)
    ensures Sound(st.(tally := t))
  {
  }

  lemma AskedMore(before: seq<Message>, after: seq<Message>, m: Message)
    ensures Asked(before, after) ==> Asked(before, after + [m])
  {
    if Asked(before, after) {
      var i :| |before| <= i < |after| && after[i] == RequestPlaylist;
      assert (after + [m])[i] == RequestPlaylist;
    }
  }

  // ---------------------------------------------------------------------------------------------
  // Steps and runs

  /** What a step never does: take a message back, from the session or from the socket, or set
      waitingForQueue without asking for the playlist. */
  ghost predicate Grows(st: State, r: State) {
    st.pipe.pushed <= r.pipe.pushed && st.pipe.handed <= r.pipe.handed && Waited(st, r)
  }

  lemma InvHolds(st: State)
    ensures Inv(st) <==> Holds(st) && CountSound(st.tally)
  {
    hide Sound, PlaylistRequests, ResponseIds, Streak;
  }

  lemma WrittenKeeps(st: State)
    requires Sound(st)
    ensures Sound(st.(pipe := Written(st.pipe))) && st.pipe.handed <= Written(st.pipe).handed
  {
    hide Subsequence, ReportedIds, Ids, S.Inv;
  }

  lemma CloseOrReadKeeps(st: State)
    requires Holds(st) && st.tally.failCounter <= 3 && st.tally.rejected == 0
    ensures Inv(CloseOrRead(st)) && st.pipe.handed <= CloseOrRead(st).pipe.handed
    ensures CloseOrRead(st).tally.reading <==> Streak(st.tally.judged) < 3
    ensures CloseOrRead(st).tally.judged == st.tally.judged && CloseOrRead(st).pipe.pushed == st.pipe.pushed
    ensures CloseOrRead(st).waits == st.waits && CloseOrRead(st).waitingForQueue == st.waitingForQueue
    ensures CloseOrRead(st).tally.rejected == if Streak(st.tally.judged) == 3 then 1 else 0
  {
    hide Sound, PlaylistRequests, ResponseIds, Streak;
    WrittenKeeps(st);
    TallyIsFree(st, CloseOrRead(st).tally);
    TallyIsFree(st.(pipe := Written(st.pipe)), CloseOrRead(st).tally);
  }

  lemma DrainedKeeps(st: State)
    requires Sound(st)
    ensures Sound(st.(pipe := Drained(st.pipe)))
  {
    hide Subsequence, ReportedIds, Ids, S.Inv;
  }

  /** OnClose: no cache, nothing playing, nothing waiting to be written. */
  lemma CloseKeeps(st: State, d: P.Device)
    requires Holds(st)
    ensures var r := OnClose(st, d);
            && Holds(r) && Grows(st, r) && r.tally == st.tally && Notified(st.pipe.pushed, r.pipe.pushed)
            && r.pipe.closed && r.pipe.writeQueue == [] && r.cache == None && !r.playing && r.currentSong == None
  {
    hide Sound, PlaylistRequests, ResponseIds, Streak, ResetPlayer, Drained;
    ResetKeeps(st, d);
    ResetWaits(st, d);
    var mid := ResetPlayer(st, d);
    QuietIsActing(st, mid);
    StepHolds(st, mid);
    DrainedKeeps(mid);
  }

  lemma ReadingOff(st: State)
    requires Inv(st)
    ensures Holds(st.(tally := st.tally.(reading := false)))
  {
    hide PlaylistRequests, ResponseIds, Streak;
    TallyIsFree(st, st.tally.(reading := false));
  }

  /** A payload that is no object is counted. */
  lemma NoRequest(st: State, payload: Option<Json>)
    requires Holds(st) && !(payload.Some? && payload.value.Object?)
    ensures var t := st.tally.(failCounter := st.tally.failCounter + 1, judged := st.tally.judged + [Counted(payload)]);
            Holds(st.(tally := t)) && Streak(t.judged) == Streak(st.tally.judged) + 1
  {
    hide Sound, PlaylistRequests, ResponseIds;
    StreakPush(st.tally.judged, true);
    TallyIsFree(st, st.tally.(failCounter := st.tally.failCounter + 1, judged := st.tally.judged + [Counted(payload)]));
  }

  /** Every payload is judged, after a read error and after a close too. Three counted in a row, and
      only they, close the connection for a bad payload and end the reading. */
  lemma ReadJudges(st: State, result: ReadResult, payload: Option<Json>, w: World)
    requires Inv(st) && st.tally.reading && result in {ReadOk, ReadFailed}
    ensures var r := OnRead(st, result, payload, w);
            && Inv(r) && Grows(st, r)
            && r.tally.judged == st.tally.judged + [Counted(payload)]
            && (r.tally.reading <==> Streak(r.tally.judged) < 3)
            && r.tally.rejected == (if Streak(r.tally.judged) == 3 then 1 else 0)
  {
    hide Sound, PlaylistRequests, ResponseIds, Streak, HandleRequest, Holds, Counted, CloseOrRead, Written, Asked;
    var idle := st.(tally := st.tally.(reading := false));
    ReadingOff(st);
    if payload.Some? && payload.value.Object? {
      var mid := HandleRequest(idle, payload.value.fields, w);
      OneResponse(idle, payload.value.fields, w);
      CloseOrReadKeeps(mid);
      WaitedOn(st, idle, mid, CloseOrRead(mid));
    } else {
      NoRequest(idle, payload);
      var mid := CountedFailure(idle).(tally := CountedFailure(idle).tally.(judged := st.tally.judged + [Counted(payload)]));
      CloseOrReadKeeps(mid);
      WaitedOn(st, idle, mid, CloseOrRead(mid));
    }
  }

  lemma WaitedOn(st: State, idle: State, mid: State, r: State)
    requires idle == st.(tally := idle.tally) && st.pipe.handed <= mid.pipe.handed <= r.pipe.handed
    requires (Waited(idle, mid) && idle.pipe.pushed <= mid.pipe.pushed) || mid == idle.(tally := mid.tally)
    requires r.pipe.pushed == mid.pipe.pushed && r.waits == mid.waits && r.waitingForQueue == mid.waitingForQueue
    ensures Grows(st, r)
  {
  }

  lemma ReadKeeps(st: State, result: ReadResult, payload: Option<Json>, w: World)
    requires Inv(st) && st.tally.reading
    ensures Inv(OnRead(st, result, payload, w)) && Grows(st, OnRead(st, result, payload, w))
  {
    hide Sound, PlaylistRequests, ResponseIds, Streak, HandleRequest, Asked, OnClose, Holds, CloseOrRead;
    if result in {ReadOk, ReadFailed} {
      ReadJudges(st, result, payload, w);
    } else {
      var idle := st.(tally := st.tally.(reading := false));
      ReadingOff(st);
      if result == ReadClosed {
        CloseKeeps(idle, w.device);
        InvHolds(OnClose(idle, w.device));
        WaitedOn(st, idle, OnClose(idle, w.device), OnClose(idle, w.device));
      } else {
        InvHolds(idle);
        WaitedOn(st, idle, idle, idle);
      }
    }
  }

  lemma WriteKeeps(st: State, aborted: bool)
    requires Inv(st) && st.pipe.writing.Some?
    ensures var r := st.(pipe := WriteEnded(st.pipe, aborted));
            Inv(r) && Grows(st, r)
  {
    hide Subsequence, ReportedIds, Ids, S.Inv, PlaylistRequests, ResponseIds, Streak, PipeSound;
  }

  lemma DownloadKeeps(st: State, c: S.Completion)
    requires Inv(st) && st.cache.Some?
    ensures var r := st.(cache := Some(S.Complete(st.cache.value, c)));
            Inv(r) && Grows(st, r)
  {
    hide Subsequence, ReportedIds, Ids, S.Inv, PlaylistRequests, ResponseIds, Streak, PipeSound;
    S.CompleteKeeps(st.cache.value, c);
  }

  /** Every step, whichever it is, keeps the invariant. */
  lemma StepKeeps(st: State, e: Event)
    requires Inv(st)
    ensures Inv(Step(st, e)) && Grows(st, Step(st, e))
  {
    hide Sound, PlaylistRequests, ResponseIds, Streak, OnRead, NextAction, OnClose, WriteEnded, S.Complete, Opens, Asked;
    hide Holds, CountSound, Plays;
    InvHolds(st);
    match e
    case Read(result, payload, w) =>
      if st.tally.reading {
        ReadKeeps(st, result, payload, w);
      }
    case WriteEnds(aborted) =>
      if st.pipe.writing.Some? {
        WriteKeeps(st, aborted);
      }
    case SongOver(w) =>
      SoundOf(st);
      NothingDone(st);
      NextTrace(st, w);
      ActionHolds(st, NextAction(st, w).st);
    case DownloadEnds(c) =>
      if st.cache.Some? {
        DownloadKeeps(st, c);
      }
    case Decoding =>
      SoundOf(st);
      var r := Step(st, e);
      PlaysKeeps(st, P.Report(st.player, st.player.status == P.PLAYING));
      QuietIsActing(st, r);
      DecodingAttended(st);
      ActionHolds(st, r);
    case Close(d) =>
      CloseKeeps(st, d);
      InvHolds(OnClose(st, d));
  }

  lemma SoundOf(st: State)
    requires Inv(st)
    ensures Sound(st) && Attended(st)
  {
  }

  lemma DecodingAttended(st: State)
    requires Attended(st)
    ensures Attended(Step(st, Decoding))
  {
  }

  lemma ActionHolds(st: State, r: State)
    requires Inv(st) && Sound(r) && Acts(st, r) && Attended(r)
    ensures Inv(r) && Grows(st, r)
  {
    hide Sound, PlaylistRequests, ResponseIds, Streak, CountSound;
    InvHolds(st);
    InvHolds(r);
    StepHolds(st, r);
  }

  lemma InitialInv()
    ensures Inv(INITIAL)
  {
  }

  lemma {:induction false} RunKeeps(events: seq<Event>)
    ensures Inv(Run(events))
  {
    if events == [] {
      InitialInv();
    } else {
      RunKeeps(events[..|events| - 1]);
      StepKeeps(Run(events[..|events| - 1]), events[|events| - 1]);
    }
  }

  /** The pipeline after any run: what is handed over and what waits is all that was pushed, in order,
      but for what a close threw away; and nothing waits while nobody writes. */
  lemma PipelineAfterRun(events: seq<Event>)
    ensures var p := Run(events).pipe;
            && p.handed + p.writeQueue == p.live && (!p.closed ==> p.live == p.pushed)
            && (p.writing == None ==> p.writeQueue == [])
            && (p.writing.Some? ==> p.handed != [] && p.handed[|p.handed| - 1] == p.writing.value)
  {
    RunKeeps(events);
  }

  /** The payloads that a run reads: those of the events in which a read was outstanding and did not end
      the reading. */
  ghost function Payloads(events: seq<Event>): seq<Option<Json>> {
    if events == [] then []
    else
      var before, e := events[..|events| - 1], events[|events| - 1];
      Payloads(before) +
      if e.Read? && Run(before).tally.reading && (e.result == ReadOk || e.result == ReadFailed) then [e.payload] else []
  }

  /** The request objects among payloads. */
  ghost function Objects(payloads: seq<Option<Json>>): seq<map<string, Json>> {
    if payloads == [] then []
    else
      var p := payloads[|payloads| - 1];
      Objects(payloads[..|payloads| - 1]) + if p.Some? && p.value.Object? then [p.value.fields] else []
  }

  lemma ObjectsMore(payloads: seq<Option<Json>>, p: Option<Json>)
    ensures Objects(payloads + [p]) == Objects(payloads) + if p.Some? && p.value.Object? then [p.value.fields] else []
  {
    assert (payloads + [p])[..|payloads|] == payloads;
  }

  /** What one read adds to the history of reading. */
  lemma ReadReads(st: State, result: ReadResult, payload: Option<Json>, w: World)
    requires Inv(st) && st.tally.reading
    ensures var r, handles := OnRead(st, result, payload, w), result == ReadOk || result == ReadFailed;
            && r.tally.judged == st.tally.judged + (if handles then [Counted(payload)] else [])
            && r.tally.asked == st.tally.asked +
                                if handles && payload.Some? && payload.value.Object? then
                                  [if "id" in payload.value.fields then payload.value.fields["id"] else Null]
                                else []
  {
    hide Sound, Streak, ResponseIds, PlaylistRequests, Counted, OnClose, HandleRequest, Holds, Waited, Notified;
    var idle := st.(tally := st.tally.(reading := false));
    ReadingOff(st);
    if result == ReadOk || result == ReadFailed {
      if payload.Some? && payload.value.Object? {
        OneResponse(idle, payload.value.fields, w);
      }
    } else if result == ReadClosed {
      CloseKeeps(idle, w.device);
    }
  }

  /** What one step adds to it. */
  lemma StepReads(st: State, e: Event)
    requires Inv(st)
    ensures var r, handles := Step(st, e), e.Read? && st.tally.reading && (e.result == ReadOk || e.result == ReadFailed);
            && r.tally.judged == st.tally.judged + (if handles then [Counted(e.payload)] else [])
            && r.tally.asked == st.tally.asked +
                                if handles && e.payload.Some? && e.payload.value.Object? then
                                  [if "id" in e.payload.value.fields then e.payload.value.fields["id"] else Null]
                                else []
  {
    hide Sound, Streak, ResponseIds, PlaylistRequests, Counted, OnClose, Opens, Acts, S.Complete, PushedAll, WriteEnded;
    hide NextAction, OnRead;
    SoundOf(st);
    match e
    case Read(result, payload, w) =>
      if st.tally.reading {
        ReadReads(st, result, payload, w);
      }
    case SongOver(w) =>
      NextTrace(st, w);
      if st.cache.Some? {
        SameTally(st, NextAction(st, w).st);
      }
    case Close(d) =>
      InvHolds(st);
      CloseKeeps(st, d);
    case _ =>
  }

  lemma SameTally(st: State, r: State)
    requires Acts(st, r)
    ensures r.tally == st.tally
  {
  }

  /** After any run there is one judgement for each payload read, and one response for each request
      object, in order and with its id, or null if it has none. */
  lemma {:induction false} ResponsesAfterRun(events: seq<Event>)
    ensures var payloads, ids := Payloads(events), ResponseIds(Run(events).pipe.pushed);
            var requests := Objects(payloads);
            && |ids| == |requests|
            && (forall i :: 0 <= i < |requests| ==> ids[i] == if "id" in requests[i] then requests[i]["id"] else Null)
            && |Run(events).tally.judged| == |payloads|
            && (forall i :: 0 <= i < |payloads| ==> Run(events).tally.judged[i] == Counted(payloads[i]))
  {
    hide ResponseIds, Counted, Step;
    RunKeeps(events);
    AnswersAre(Run(events));
    if events != [] {
      var before, e := events[..|events| - 1], events[|events| - 1];
      ResponsesAfterRun(before);
      RunKeeps(before);
      AnswersAre(Run(before));
      StepReads(Run(before), e);
      assert Payloads(before) + [] == Payloads(before);
      if e.Read? {
        ObjectsMore(Payloads(before), e.payload);
      }
    }
  }

  lemma AnswersAre(st: State)
    requires Inv(st)
    ensures ResponseIds(st.pipe.pushed) == st.tally.asked
  {
  }

  /** The fail counter after any run is the streak, at most three; at three the connection was closed,
      once, and nothing is read. */
  lemma FailCounterAfterRun(events: seq<Event>)
    ensures var t := Run(events).tally;
            && t.failCounter == Streak(t.judged) <= 3
            && t.rejected == (if Streak(t.judged) == 3 then 1 else 0)
            && (t.reading ==> Streak(t.judged) < 3)
  {
    RunKeeps(events);
  }

  /** Control after any run: without a cache nothing plays, playing without a song means waiting, and the
      playlist was asked for at least as often as waiting was set. */
  lemma ControlAfterRun(events: seq<Event>)
    ensures var st := Run(events);
            && (st.cache == None ==> !st.playing && st.currentSong == None)
            && (st.playing && st.currentSong == None ==> st.waitingForQueue)
            && st.waits <= PlaylistRequests(st.pipe.pushed) && (st.waitingForQueue ==> st.waits > 0)
  {
    RunKeeps(events);
  }

  /** Reports after any run: since the last update they are, in order, items of positions that the queue
      has given up. */
  lemma ReportsAfterRun(events: seq<Event>)
    ensures var st := Run(events);
            && st.mark <= |st.pipe.pushed|
            && (st.cache.Some? ==>
                  var queue := st.cache.value.queue;
                  && |queue| <= |st.base| && queue == st.base[|st.base| - |queue|..]
                  && Subsequence(ReportedIds(st.pipe.pushed[st.mark..]), Ids(st.base[..|st.base| - |queue|])))
  {
    hide Run, Subsequence, ReportedIds, Ids, S.Inv, PipeSound, PlaylistRequests, ResponseIds, Streak;
    RunKeeps(events);
  }

  /** Songs after any run: whatever comes next, each position that the queue gives up either held an item
      that was still being downloaded, or one that had failed and is reported, in order; then the song
      that is ready becomes the current one and is reported, or the session waits, or the server is
      lost. */
  lemma SongsAfterRun(events: seq<Event>, w: World)
    ensures var st := Run(events);
            st.cache.Some? ==>
              && OpensFrom(st, w, NextAction(st, w).st, st.playing)
              && (st.currentSong == None ==> OpensFrom(st, w, PlayAction(st, w).st, !st.playing))
  {
    hide Opens, Sound, Acts;
    var st := Run(events);
    RunKeeps(events);
    SoundOf(st);
    NextTrace(st, w);
    PlayTrace(st, w);
  }

  // ---------------------------------------------------------------------------------------------
  // Writing goes on

  /** How many messages are not yet written. */
  function Unwritten(p: Pipe): nat {
    |p.writeQueue| + if p.writing.Some? then 1 else 0
  }

  /** A write that ends frees the writer or hands over the message that waits longest; one that is
      aborted changes nothing. */
  lemma WriteGoesOn(p: Pipe)
    requires p.writing.Some?
    ensures WriteEnded(p, true) == p
    ensures var r := WriteEnded(p, false);
            && Unwritten(r) == Unwritten(p) - 1
            && (if p.writeQueue == [] then r.writing == None && r.handed == p.handed
                else r.writing == Some(p.writeQueue[0]) && r.handed == p.handed + [p.writeQueue[0]])
            && r.writeQueue == (if p.writeQueue == [] then [] else p.writeQueue[1..])
            && r.live == p.live && r.pushed == p.pushed && r.closed == p.closed
  {
  }

  /** The same end of a write n times. */
  ghost function Writes(n: nat): seq<Event> {
    seq(n, _ => WriteEnds(false))
  }

  /** After any run, when as many writes end as messages are not yet written, everything has been handed
      over and nobody writes. */
  lemma {:induction false} AllIsWritten(events: seq<Event>, n: nat)
    requires n == Unwritten(Run(events).pipe)
    ensures var r := Run(events + Writes(n));
            && r.pipe.writing == None && r.pipe.writeQueue == []
            && r.pipe.handed == r.pipe.live == Run(events).pipe.live
    decreases n
  {
    hide Inv, PushedAll;
    RunKeeps(events);
    var p := Run(events).pipe;
    NobodyIdle(Run(events));
    if n == 0 {
      assert events + Writes(0) == events;
    } else {
      WriteGoesOn(p);
      var next := events + [WriteEnds(false)];
      assert next[..|events|] == events;
      AllIsWritten(next, n - 1);
      assert next + Writes(n - 1) == events + Writes(n);
    }
  }

  lemma NobodyIdle(st: State)
    requires Inv(st)
    ensures st.pipe.writing == None ==> st.pipe.writeQueue == []
    ensures st.pipe.handed + st.pipe.writeQueue == st.pipe.live
  {
  }

  // ---------------------------------------------------------------------------------------------
  // The stream

  /** PLAY with a song: a stream that is open or paused and can be started plays, and the status is
      pushed once if it is wanted; the session plays in any case. */
  lemma PlayStarts(st: State, w: World)
    requires st.cache.Some? && st.currentSong.Some? && !st.playing
    ensures var r := PlayAction(st, w).st;
            && r.playing
            && (if (st.player.status == P.OPEN || st.player.status == P.PAUSED) && w.device.starts then
                  && r.player.status == P.PLAYING
                  && r.pipe.pushed == st.pipe.pushed + if st.player.hasCallbacks then [Status(true)] else []
                else r.player.status == st.player.status && r.pipe.pushed == st.pipe.pushed)
  {
    P.Starting(P.Called(st.player, P.PlayCall), w.device);
    StatusLines();
    assert st.pipe.pushed + [] == st.pipe.pushed;
  }

  lemma StatusLines()
    ensures Statuses([]) == [] && Statuses([true]) == [Status(true)] && Statuses([false]) == [Status(false)]
  {
  }

  /** PAUSE: a stream that plays and can be stopped is paused, and the status is pushed once if it is
      wanted. */
  lemma PauseStops(st: State, d: P.Device)
    requires st.cache.Some?
    ensures var r := PauseAction(st, d).st;
            && !r.playing && r.currentSong == st.currentSong && r.cache == st.cache
            && (if st.player.status == P.PLAYING && d.stops then
                  && r.player.status == P.PAUSED
                  && r.pipe.pushed == st.pipe.pushed + if st.player.hasCallbacks then [Status(false)] else []
                else r.player.status == st.player.status && r.pipe.pushed == st.pipe.pushed)
  {
    P.Stopping(P.Called(st.player, P.PauseCall), d);
    StatusLines();
    assert st.pipe.pushed + [] == st.pipe.pushed;
  }

  /** PAUSE and then PLAY brings a song that plays back to playing. */
  lemma PausePlay(st: State, w: World)
    requires st.cache.Some? && st.currentSong.Some? && st.player.status == P.PLAYING && w.device.stops && w.device.starts
    ensures var r := PlayAction(PauseAction(st, w.device).st, w).st;
            r.playing && r.player.status == P.PLAYING && r.currentSong == st.currentSong
  {
    hide PauseAction, PlayAction;
    PauseStops(st, w.device);
    PlayStarts(PauseAction(st, w.device).st, w);
    SameSong(PauseAction(st, w.device).st, w);
  }

  lemma SameSong(st: State, w: World)
    requires st.currentSong.Some?
    ensures PlayAction(st, w).st.currentSong == st.currentSong
  {
  }

  /** A reset leaves no stream open or paused, nor playing if it can be stopped. */
  lemma ResetCloses(st: State, d: P.Device)
    requires st.cache.Some?
    ensures var r := ResetAction(st, d).st;
            && r.player.status == (if st.player.status == P.PLAYING && !d.stops then P.PLAYING else P.EMPTY)
            && r.pipe.pushed == st.pipe.pushed +
                                if st.player.status == P.PLAYING && d.stops && st.player.hasCallbacks then [Status(false)] else []
  {
    P.Closing(P.Called(st.player, P.CloseCall), d);
    StatusLines();
    assert st.pipe.pushed + [] == st.pipe.pushed;
  }

  /** NEXT with a song that is ready, on a device where everything works: what plays is stopped, and the
      song plays if one did before, and is open otherwise. */
  lemma NextPlays(st: State, w: World)
    requires Sound(st) && st.cache.Some? && TakeSongs(st, w.pulls).outcome.Returned?
    requires w.device.starts && w.device.stops && w.device.opens
    ensures var r := NextAction(st, w).st;
            r.currentSong.Some? && r.player.status == if st.playing then P.PLAYING else P.OPEN
  {
    hide Sound, Acts, TakeSongs, NextAction, FatesSound, Lines;
    NextTrace(st, w);
    var open := P.Opened(P.Called(st.player, P.OpenCall), w.device);
    P.Opening(P.Called(st.player, P.OpenCall), w.device);
    P.Starting(P.Called(open.player, P.PlayCall), w.device);
  }

  // ---------------------------------------------------------------------------------------------
  // The other steps

  /** A song that is over opens the next one; a download that ends concerns the cache alone; the decoder
      reports once, if it is heard, whether the stream plays; and a close leaves nothing. */
  lemma OtherSteps(st: State, w: World, c: S.Completion, d: P.Device)
    requires Inv(st)
    ensures st.cache.Some? ==> OpensFrom(st, w, Step(st, SongOver(w)), st.playing)
    ensures st.cache == None ==> Step(st, SongOver(w)) == st && Step(st, DownloadEnds(c)) == st
    ensures st.cache.Some? ==> Step(st, DownloadEnds(c)) == st.(cache := Some(S.Complete(st.cache.value, c)))
    ensures Step(st, Decoding).pipe.pushed ==
            st.pipe.pushed + if st.player.hasCallbacks then [Status(st.player.status == P.PLAYING)] else []
    ensures var r := Step(st, Close(d));
            r.pipe.closed && r.pipe.writeQueue == [] && r.cache == None && !r.playing && r.currentSong == None
  {
    hide Sound, Acts, Opens, NextAction, S.Complete, OnClose, Streak, ResponseIds, PlaylistRequests;
    SoundOf(st);
    InvHolds(st);
    NextTrace(st, w);
    CloseKeeps(st, d);
    StatusLines();
    assert st.pipe.pushed + [] == st.pipe.pushed;
  }

  /** A read that is aborted ends the reading; one that finds the connection closed closes the session
      too. */
  lemma ReadingEnds(st: State, payload: Option<Json>, w: World)
    requires Inv(st) && st.tally.reading
    ensures Step(st, Read(ReadAborted, payload, w)) == st.(tally := st.tally.(reading := false))
    ensures var r := Step(st, Read(ReadClosed, payload, w));
            && !r.tally.reading && r.tally.judged == st.tally.judged
            && r.pipe.closed && r.pipe.writeQueue == [] && r.cache == None && !r.playing && r.currentSong == None
  {
    hide Sound, OnClose, Streak, ResponseIds, PlaylistRequests;
    ReadingOff(st);
    CloseKeeps(st.(tally := st.tally.(reading := false)), w.device);
  }
}
