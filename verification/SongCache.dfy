/** The song cache itself (SongCache.cpp and SongCache.h): the queue, the map of cached items and
    the downloads, changed in place. Every method does to the ghost field `model` what
    SongCacheSpec says, and `Valid` says that the fields hold what the model holds. */
module SongCache {
  import opened Wrappers
  import opened Sequences
  import opened S = SongCacheSpec

  class SongCacheItem {
    const itemId: string
    /** The song the download was started for. */
    const songId: string
    /** The place of the download in the list of tasks. */
    const handle: nat
    var ready: bool
    var cancelled: bool
    var failed: bool
    var done: bool
    var buffer: Body

    constructor (itemId: string, songId: string, handle: nat)
      ensures View() == Item(itemId, songId, false, false, false, false, [])
      ensures this.itemId == itemId && this.handle == handle
    {
      this.itemId, this.songId, this.handle := itemId, songId, handle;
      ready, cancelled, failed, done, buffer := false, false, false, false, [];
    }

    ghost function View(): Item
      reads this
    {
      Item(itemId, songId, ready, cancelled, failed, done, buffer)
    }

    method Cancel()
      modifies this`cancelled
      ensures View() == old(View()).(cancelled := true)
    {
      cancelled := true;
    }

    method Fail()
      modifies this`failed
      ensures View() == old(View()).(failed := true)
    {
      failed := true;
    }

    /** The download has ended: with the bytes of the song, or with an exception. */
    method Finish(body: Option<Body>)
      requires !done
      modifies this
      ensures View() == match body
                        case Some(b) => old(View()).(done := true, body := b, ready := old(ready) || !cancelled)
                        case None => old(View()).(done := true, failed := true)
    {
      done := true;
      if body.Some? {
        buffer := body.value;
        if !cancelled {
          ready := true;
        }
      } else {
        Fail();
      }
    }
  }

  class SongCache {
    var queue: seq<QueueItem>
    var cache: map<string, SongCacheItem>
    /** The downloads that were started, each with the item it holds on to. */
    var tasks: seq<SongCacheItem>
    ghost var model: State

    ghost predicate Valid()
      reads this, tasks
    {
      && model.queue == queue
      && |model.items| == |tasks| && (forall h :: 0 <= h < |tasks| ==> tasks[h].handle == h && model.items[h] == tasks[h].View())
      && model.cache.Keys == cache.Keys
      && (forall k :: k in cache ==>
            model.cache[k] == cache[k].handle < |tasks| && tasks[cache[k].handle] == cache[k])
    }

    constructor ()
      ensures Valid() && model == INITIAL && tasks == []
    {
      queue, cache, tasks, model := [], map[], [], INITIAL;
    }

    method AddToCache(q: QueueItem)
      requires Valid()
      modifies this`cache, this`tasks, this`model
      ensures Valid() && model == S.AddToCache(old(model), q) && q.itemId in cache
      ensures fresh(set t | t in tasks && t !in old(tasks)) && old(tasks) <= tasks
    {
      if q.itemId !in cache {
        var ptr := new SongCacheItem(q.itemId, q.songId, |tasks|);
        cache := cache[q.itemId := ptr];
        tasks := tasks + [ptr];
        model := S.AddToCache(model, q);
      }
    }

    /** The keys of the cache, in some order. */
    method Keys() returns (keys: seq<string>)
      ensures NoDuplicates(keys) && forall k :: k in keys <==> k in cache
    {
      keys := [];
      var rest := cache.Keys;
      while rest != {}
        invariant NoDuplicates(keys) && rest <= cache.Keys
        invariant forall k :: k in keys <==> k in cache && k !in rest
      {
        var it :| it in rest;
        keys := keys + [it];
        rest := rest - {it};
      }
    }

    /** The keys of the items that are not in the first five positions. */
    method MissingKeys() returns (keys: seq<string>)
      ensures NoDuplicates(keys) && forall k :: k in keys <==> k in cache && k !in FirstIds(queue, 5)
    {
      hide FirstIds;
      keys := Keys();
      NoIds(queue);
      var i := 0;
      while i < |queue| && i < 5
        invariant 0 <= i <= Min(5, |queue|) && NoDuplicates(keys)
        invariant forall k :: k in keys <==> k in cache && k !in FirstIds(queue, i)
      {
        var item := queue[i].itemId;
        if item in cache {
          keys := EraseFirst(keys, item);
        }
        OneMoreId(queue, i);
        i := i + 1;
      }
      SameIds(queue, i);
    }

    method CancelOne(it: string)
      requires Valid() && it in cache
      modifies this`cache, this`model, tasks
      ensures Valid() && tasks == old(tasks) && cache.Keys == old(cache).Keys - {it}
      ensures it in old(model).cache && model == CancelledOne(old(model), it)
    {
      cache[it].Cancel();
      model := CancelledOne(model, it);
      cache := cache - {it};
    }

    /** The items under these keys are cancelled and leave the cache. */
    method CancelAndErase(keys: seq<string>, ghost gone: set<string>)
      requires Valid() && NoDuplicates(keys) && gone <= cache.Keys && forall k :: k in keys <==> k in gone
      modifies this`cache, this`model, tasks
      ensures Valid() && tasks == old(tasks) && cache.Keys == old(cache).Keys - gone
      ensures model == Cancelled(old(model), gone)
    {
      hide CancelledOne, CancelAll, Handles, NoDuplicates;
      ghost var done: set<string> := {};
      ghost var st := model;
      var it := 0;
      CancelNone(st);
      while it < |keys|
        invariant 0 <= it <= |keys| && Valid() && tasks == old(tasks) && cache.Keys == old(cache).Keys - done
        invariant done <= gone && forall j :: 0 <= j < |keys| ==> (keys[j] in done <==> j < it)
        invariant model == Cancelled(st, done)
      {
        OnlyAt(keys, it);
        CancelMore(st, done, keys[it]);
        CancelOne(keys[it]);
        done := done + {keys[it]};
        it := it + 1;
      }
      assert done == gone;
    }

    ghost method RecordEvicted(handles: set<nat>)
      requires Valid()
      modifies this`model
      ensures Valid() && model == old(model).(evicted := old(model).evicted + handles)
    {
      model := model.(evicted := model.evicted + handles);
    }

    /** UpdateCache, the second half. */
    method Evict()
      requires Valid()
      modifies this`cache, this`model, tasks
      ensures Valid() && tasks == old(tasks) && model == S.Evict(old(model))
    {
      hide CancelAll, FirstIds, Handles;
      assert |cache| == |cache.Keys| == |model.cache|;
      if |cache| > 5 {
        ghost var st := model;
        ghost var gone := cache.Keys - FirstIds(queue, 5);
        var keys := MissingKeys();
        CancelAndErase(keys, gone);
        EvictIs(st, model.cache);
        RecordEvicted(Handles(st.cache, gone));
      }
    }

    method UpdateCache()
      requires Valid()
      modifies this`cache, this`tasks, this`model, tasks
      ensures Valid() && model == S.UpdateCache(old(model))
      ensures fresh(set t | t in tasks && t !in old(tasks)) && old(tasks) <= tasks
    {
      hide S.Evict, S.AddToCache, FirstIds, CancelAll, Handles;
      var i := 0;
      while i < |queue| && i < 3
        invariant 0 <= i <= Min(3, |queue|) && Valid() && queue == old(queue)
        invariant model == AddFirst(old(model), i)
        invariant fresh(set t | t in tasks && t !in old(tasks)) && old(tasks) <= tasks
      {
        if queue[i].itemId !in cache {
          AddToCache(queue[i]);
        } else {
          CachedAlready(model, queue[i]);
        }
        i := i + 1;
      }
      Evict();
    }

    method UpdateQueue(newQueue: seq<QueueItem>)
      requires Valid()
      modifies this, tasks
      ensures Valid() && model == S.UpdateQueue(old(model), newQueue) && queue == newQueue
      ensures fresh(set t | t in tasks && t !in old(tasks)) && old(tasks) <= tasks
    {
      hide S.UpdateCache;
      queue := [];
      var i := 0;
      while i < |newQueue|
        invariant 0 <= i <= |newQueue| && queue == newQueue[..i]
        modifies this`queue
      {
        queue := queue + [newQueue[i]];
        i := i + 1;
      }
      model := model.(queue := newQueue);
      UpdateCache();
    }

    method CancelIfRunning(it: string)
      requires Valid() && it in cache
      modifies this`model, tasks
      ensures Valid() && it in old(model).cache && model == CancelledIfRunning(old(model), it)
    {
      hide CancelledIfRunning;
      var song := cache[it];
      StopOne(model, it);
      if !song.failed && !song.ready {
        song.Cancel();
        model := model.(items := CancelAll(model.items, {song.handle}));
      }
    }

    /** The loop of Reset. */
    method CancelRunning()
      requires Valid()
      modifies this`model, tasks
      ensures Valid() && model == Stopped(old(model), cache.Keys)
    {
      hide CancelledIfRunning, Stopped, CancelAll, Handles, Running, NoDuplicates;
      ghost var st, done: set<string> := model, {};
      var keys := Keys();
      var it := 0;
      StoppedNone(st);
      while it < |keys|
        invariant 0 <= it <= |keys| && Valid() && model == Stopped(st, done)
        invariant done <= cache.Keys && forall j :: 0 <= j < |keys| ==> (keys[j] in done <==> j < it)
      {
        OnlyAt(keys, it);
        StoppedMore(st, done, keys[it]);
        CancelIfRunning(keys[it]);
        done := done + {keys[it]};
        it := it + 1;
      }
      assert done == cache.Keys;
    }

    method Reset()
      requires Valid()
      modifies this, tasks
      ensures Valid() && model == S.Reset(old(model)) && tasks == old(tasks) && queue == [] && cache == map[]
    {
      ghost var st := model;
      CancelRunning();
      cache := map[];
      queue := [];
      model := S.Reset(st);
    }

    /** The end of a download, whenever it comes. */
    method EndDownload(h: nat, body: Option<Body>)
      requires Valid() && h < |tasks| && !tasks[h].done
      modifies this`model, tasks
      ensures Valid() && model == Complete(old(model), Completion(h, body))
    {
      tasks[h].Finish(body);
      model := Complete(model, Completion(h, body));
    }

    /** While the player sleeps, these downloads end. */
    method Sleep(ended: seq<Completion>)
      requires Valid()
      modifies this`model, tasks
      ensures Valid() && model == CompleteAll(old(model), ended)
    {
      hide Complete;
      var i := 0;
      while i < |ended|
        invariant 0 <= i <= |ended| && Valid() && CompleteAll(model, ended[i..]) == CompleteAll(old(model), ended)
      {
        assert ended[i..][1..] == ended[i + 1..];
        if ended[i].handle < |tasks| && !tasks[ended[i].handle].done {
          EndDownload(ended[i].handle, ended[i].body);
        } else {
          NothingEnds(model, ended[i]);
        }
        i := i + 1;
      }
    }

    method RemoveHead() returns (songPtr: SongCacheItem)
      requires Valid() && queue != [] && queue[0].itemId in cache
      modifies this`queue, this`cache, this`model
      ensures Valid() && songPtr == old(cache)[old(queue)[0].itemId] && songPtr.handle < |tasks|
      ensures tasks[songPtr.handle] == songPtr && model == WithoutHead(old(model))
      ensures old(model).queue[0] == old(queue)[0] && old(model).cache[old(queue)[0].itemId] == songPtr.handle
    {
      var itemId := queue[0].itemId;
      songPtr := cache[itemId];
      model := WithoutHead(model);
      cache := cache - {itemId};
      queue := queue[1..];
    }

    /** A head that is taken out: it is returned, reported or let go. `nap` is what ends while the player
        sleeps, and `online` what the file server answers to a ping. */
    method TryTaken(item: QueueItem, songPtr: SongCacheItem, nap: seq<Completion>, online: bool)
      returns (outcome: Option<Outcome>, slept: bool)
      requires Valid() && songPtr.handle < |tasks| && tasks[songPtr.handle] == songPtr
      modifies this`model, tasks
      ensures Valid() && tasks == old(tasks)
      ensures Taken(old(model), model, item, songPtr.handle, outcome, slept, nap, online)
      ensures outcome.Some? && outcome.value.Returned? ==> outcome.value.handle == songPtr.handle
      ensures queue == old(queue)
    {
      hide CompleteAll;
      slept := false;
      if songPtr.ready {
        return Some(Returned(songPtr.handle)), slept;
      } else if songPtr.cancelled {
        return None, slept;
      } else if songPtr.failed {
        if online {
          return Some(FailedToLoad(item.songId, item.itemId)), slept;
        } else {
          return Some(Disconnected), slept;
        }
      } else {
        Sleep(nap);
        return None, true;
      }
    }

    method TakeHead(nap: seq<Completion>, online: bool)
      returns (outcome: Option<Outcome>, song: SongCacheItem?, slept: bool)
      requires Valid() && queue != [] && queue[0].itemId in cache
      modifies this, tasks
      ensures Valid() && Tried(old(model), model, outcome, slept, nap, online) && queue == old(queue)[1..]
      ensures if outcome.Some? && outcome.value.Returned? then
                outcome.value.handle < |tasks| && song == tasks[outcome.value.handle]
              else song == null
      ensures fresh(set t | t in tasks && t !in old(tasks)) && old(tasks) <= tasks
    {
      hide S.TakeHead, S.UpdateCache, S.AddToCache, CompleteAll, Taken, Tried;
      ghost var st := model;
      var item := queue[0];
      var songPtr := TakeIt();
      outcome, slept := TryTaken(item, songPtr, nap, online);
      song := if outcome.Some? && outcome.value.Returned? then songPtr else null;
      TakenIs(st, S.TakeHead(st), model, item, songPtr.handle, outcome, slept, nap, online);
    }

    /** NextSong up to its recursive calls: the outcome, or the state to go on from. */
    method TryHead(nap: seq<Completion>, online: bool)
      returns (outcome: Option<Outcome>, song: SongCacheItem?, slept: bool)
      requires Valid()
      modifies this, tasks
      ensures Valid() && Tried(old(model), model, outcome, slept, nap, online)
      ensures if outcome.Some? && outcome.value.Returned? then
                outcome.value.handle < |tasks| && song == tasks[outcome.value.handle]
              else song == null
      ensures fresh(set t | t in tasks && t !in old(tasks)) && old(tasks) <= tasks
      ensures outcome == None ==>
                |queue| < |old(queue)| ||
                (queue == old(queue) != [] && old(queue[0].itemId !in cache) && queue[0].itemId in cache)
    {
      hide S.TakeHead, S.UpdateCache, S.AddToCache, CompleteAll, Taken;
      song, slept := null, false;
      if |queue| > 0 {
        if queue[0].itemId in cache {
          outcome, song, slept := TakeHead(nap, online);
        } else {
          AddToCache(queue[0]);
          outcome := None;
        }
      } else {
        outcome := Some(EmptyQueue);
      }
    }

    /** The head leaves queue and cache, and the cache is brought up to date. */
    method TakeIt() returns (songPtr: SongCacheItem)
      requires Valid() && queue != [] && queue[0].itemId in cache
      modifies this, tasks
      ensures Valid() && queue == old(queue)[1..]
      ensures old(model).queue == old(queue) && old(queue)[0].itemId in old(model).cache
      ensures model == S.TakeHead(old(model)) && songPtr.handle == old(model).cache[old(queue)[0].itemId]
      ensures songPtr.handle < |tasks| && tasks[songPtr.handle] == songPtr
      ensures fresh(set t | t in tasks && t !in old(tasks)) && old(tasks) <= tasks
    {
      hide S.TakeHead, S.UpdateCache;
      ghost var st := model;
      songPtr := RemoveHead();
      UpdateCache();
      TakeHeadIs(st);
    }

    /** NextSong. `naps` are the downloads that end each time it sleeps, and `online` is what the file
        server answers to a ping. */
    method NextSong(naps: seq<seq<Completion>>, online: bool) returns (outcome: Outcome, song: SongCacheItem?)
      requires Valid()
      modifies this, tasks
      ensures Valid()
      ensures var r := S.NextSong(old(model), naps, online);
              model == r.st && outcome == r.outcome
      ensures if outcome.Returned? then outcome.handle < |tasks| && song == tasks[outcome.handle] else song == null
      ensures song != null ==> outcome.handle < |model.items| && song.itemId == model.items[outcome.handle].itemId
      ensures fresh(set t | t in tasks && t !in old(tasks)) && old(tasks) <= tasks
      decreases |queue|, queue != [] && queue[0].itemId !in cache
    {
      hide S.NextSong, Tried;
      ghost var st := model;
      var nap := if naps == [] then [] else naps[0];
      var tried, slept;
      tried, song, slept := TryHead(nap, online);
      TriedIs(st, model, tried, slept, naps, online);
      if tried.Some? {
        outcome := tried.value;
      } else {
        outcome, song := NextSong(if slept && naps != [] then naps[1..] else naps, online);
      }
    }
  }

  /** What becomes of the item of this handle once it is taken. */
  ghost predicate Taken(st: State, next: State, head: QueueItem, h: nat, outcome: Option<Outcome>, slept: bool,
                        nap: seq<Completion>, online: bool) {
    h < |st.items| &&
    if st.items[h].ready then next == st && outcome == Some(Returned(h)) && !slept
    else if st.items[h].cancelled then next == st && outcome == None && !slept
    else if st.items[h].failed then
      && next == st && !slept
      && outcome == Some(if online then FailedToLoad(head.songId, head.itemId) else Disconnected)
    else slept && next == CompleteAll(st, nap) && outcome == None
  }

  /** What one attempt at the head of the queue does. */
  ghost predicate Tried(st: State, next: State, outcome: Option<Outcome>, slept: bool, nap: seq<Completion>, online: bool) {
    if st.queue == [] then next == st && outcome == Some(EmptyQueue) && !slept
    else if st.queue[0].itemId !in st.cache then
      next == S.AddToCache(st, st.queue[0]) && outcome == None && !slept
    else
      Taken(S.TakeHead(st), next, st.queue[0], st.cache[st.queue[0].itemId], outcome, slept, nap, online)
  }

  lemma TakenIs(st: State, mid: State, next: State, head: QueueItem, h: nat, outcome: Option<Outcome>, slept: bool,
                nap: seq<Completion>, online: bool)
    requires st.queue != [] && st.queue[0] == head && head.itemId in st.cache && st.cache[head.itemId] == h
    requires mid == S.TakeHead(st) && Taken(mid, next, head, h, outcome, slept, nap, online)
    ensures Tried(st, next, outcome, slept, nap, online)
  {
  }

  /** Attempts put together are NextSong. */
  lemma TriedIs(st: State, next: State, outcome: Option<Outcome>, slept: bool, naps: seq<seq<Completion>>, online: bool)
    requires Tried(st, next, outcome, slept, if naps == [] then [] else naps[0], online)
    ensures outcome.Some? ==>
              var r := S.NextSong(st, naps, online);
              r.st == next && r.outcome == outcome.value
    ensures outcome == None ==>
              var r, r' := S.NextSong(st, naps, online),
                           S.NextSong(next, if slept && naps != [] then naps[1..] else naps, online);
              r.st == r'.st && r.outcome == r'.outcome
  {
    hide S.TakeHead, S.UpdateCache, S.AddToCache;
  }

  lemma NothingEnds(st: State, c: Completion)
    requires c.handle >= |st.items| || st.items[c.handle].done
    ensures Complete(st, c) == st
  {
  }

  ghost function WithoutHead(st: State): State
    requires st.queue != [] && st.queue[0].itemId in st.cache
  {
    var id := st.queue[0].itemId;
    st.(queue := st.queue[1..], cache := st.cache - {id}, taken := st.taken + {st.cache[id]})
  }

  lemma TakeHeadIs(st: State)
    requires st.queue != [] && st.queue[0].itemId in st.cache
    ensures S.TakeHead(st) == S.UpdateCache(WithoutHead(st))
  {
  }

  ghost function CancelledOne(st: State, k: string): State
    requires k in st.cache
  {
    st.(cache := st.cache - {k}, items := CancelAll(st.items, {st.cache[k]}))
  }

  /** The items under `done` cancelled and taken out of the cache. */
  ghost function Cancelled(st: State, done: set<string>): State {
    st.(cache := st.cache - done, items := CancelAll(st.items, Handles(st.cache, done)))
  }

  ghost function CancelledIfRunning(st: State, k: string): State
    requires k in st.cache
  {
    st.(items := CancelAll(st.items, Running(st, {k})))
  }

  lemma StopOne(st: State, k: string)
    requires k in st.cache && st.cache[k] < |st.items|
    ensures var h := st.cache[k];
            CancelledIfRunning(st, k) ==
            if !st.items[h].failed && !st.items[h].ready then st.(items := CancelAll(st.items, {h})) else st
  {
  }

  /** Those of the items under `done` that were still running cancelled. */
  ghost function Stopped(st: State, done: set<string>): State {
    st.(items := CancelAll(st.items, Running(st, done)))
  }

  lemma StoppedNone(st: State)
    ensures Stopped(st, {}) == st
  {
  }

  lemma StoppedMore(st: State, done: set<string>, k: string)
    requires k in st.cache
    ensures k in Stopped(st, done).cache
    ensures CancelledIfRunning(Stopped(st, done), k) == Stopped(st, done + {k})
  {
  }

  lemma CachedAlready(st: State, q: QueueItem)
    requires q.itemId in st.cache
    ensures S.AddToCache(st, q) == st
  {
  }

  lemma CancelNone(st: State)
    ensures Cancelled(st, {}) == st
  {
  }

  lemma CancelMore(st: State, done: set<string>, k: string)
    requires k in st.cache && k !in done
    ensures var r := Cancelled(st, done);
            k in r.cache && CancelledOne(r, k) == Cancelled(st, done + {k})
  {
  }

  lemma OnlyAt<T>(s: seq<T>, i: nat)
    requires NoDuplicates(s) && i < |s|
    ensures forall j :: 0 <= j < |s| && s[j] == s[i] ==> j == i
  {
  }

  method EraseFirst(keys: seq<string>, item: string) returns (r: seq<string>)
    requires NoDuplicates(keys)
    ensures NoDuplicates(r) && forall k :: k in r <==> k in keys && k != item
  {
    var it := 0;
    while it < |keys|
      invariant 0 <= it <= |keys| && item !in keys[..it]
    {
      if keys[it] == item {
        return keys[..it] + keys[it + 1..];
      }
      it := it + 1;
    }
    return keys;
  }

  lemma NoIds(queue: seq<QueueItem>)
    ensures FirstIds(queue, 0) == {}
  {
  }

  lemma SameIds(queue: seq<QueueItem>, i: nat)
    requires i == Min(5, |queue|)
    ensures FirstIds(queue, i) == FirstIds(queue, 5)
  {
  }

  lemma OneMoreId(queue: seq<QueueItem>, i: nat)
    requires i < |queue|
    ensures FirstIds(queue, i + 1) == FirstIds(queue, i) + {queue[i].itemId}
  {
    hide FirstIds;
    forall k
      ensures k in FirstIds(queue, i + 1) <==> k in FirstIds(queue, i) || k == queue[i].itemId
    {
      if k in FirstIds(queue, i + 1) {
        var j :| 0 <= j < Min(i + 1, |queue|) && queue[j].itemId == k;
        assert j < i ==> k in FirstIds(queue, i);
      }
      if k in FirstIds(queue, i) {
        var j :| 0 <= j < Min(i, |queue|) && queue[j].itemId == k;
        assert 0 <= j < Min(i + 1, |queue|);
      }
    }
  }
}
