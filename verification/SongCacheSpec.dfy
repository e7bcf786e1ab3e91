/** What the song cache does, as a state machine over values: the queue, the cache, and every item
    ever created. An item is known by its handle, its place in the list of items; a handle stands
    for the identity of a shared pointer. */
module SongCacheSpec {
  import opened Wrappers
  import opened Sequences

  type Body = seq<int>

  datatype QueueItem = QueueItem(songId: string, itemId: string)

  /** A cache item and its download: the song that was asked for, whether the download has ended, and
      what it brought. */
  datatype Item = Item(itemId: string, songId: string, ready: bool, cancelled: bool, failed: bool, done: bool, body: Body)
  {
    /** Still being downloaded for someone. */
    predicate Pending() {
      !ready && !cancelled && !failed
    }
  }

  /** `taken`, `evicted` and `cleared` record what became of the items that left the cache. */
  datatype State = State(queue: seq<QueueItem>, cache: map<string, nat>, items: seq<Item>,
                         taken: set<nat>, evicted: set<nat>, cleared: set<nat>)

  const INITIAL := State([], map[], [], {}, {}, {})

  // ---------------------------------------------------------------------------------------------
  // Operations

  /** AddToCache: the item and its download start together. */
  function AddToCache(st: State, q: QueueItem): (r: State)
    ensures r.queue == st.queue
  {
    if q.itemId in st.cache then st
    else st.(cache := st.cache[q.itemId := |st.items|],
             items := st.items + [Item(q.itemId, q.songId, false, false, false, false, [])])
  }

  function AddFirst(st: State, n: nat): (r: State)
    requires n <= |st.queue|
    ensures r.queue == st.queue
  {
    if n == 0 then st else AddToCache(AddFirst(st, n - 1), st.queue[n - 1])
  }

  function CancelAll(items: seq<Item>, handles: set<nat>): (r: seq<Item>)
    ensures |r| == |items|
    ensures forall h :: 0 <= h < |items| ==> r[h] == if h in handles then items[h].(cancelled := true) else items[h]
  {
    seq(|items|, h requires 0 <= h < |items| => if h in handles then items[h].(cancelled := true) else items[h])
  }

  /** The items of the first n queue positions. */
  function FirstIds(queue: seq<QueueItem>, n: nat): (ids: set<string>)
    ensures |ids| <= n
    ensures forall k :: k in ids <==> exists i :: 0 <= i < Min(n, |queue|) && queue[i].itemId == k
  {
    if n == 0 || queue == [] then {}
    else
      var rest := FirstIds(queue[1..], n - 1);
      assert forall i :: 1 <= i < Min(n, |queue|) ==> queue[i] == queue[1..][i - 1];
      assert forall k :: k in rest ==> exists i :: 0 <= i < Min(n - 1, |queue[1..]|) && queue[1..][i].itemId == k
                                                   && queue[i + 1].itemId == k;
      {queue[0].itemId} + rest
  }

  function Handles(cache: map<string, nat>, keys: set<string>): set<nat> {
    set k | k in keys && k in cache :: cache[k]
  }

  /** With more than five items, those that are not in the first five positions are cancelled and
      dropped. */
  function Evict(st: State): (r: State)
    ensures r.queue == st.queue && |r.items| == |st.items|
  {
    if |st.cache| <= 5 then st
    else
      var keep := FirstIds(st.queue, 5);
      var victims := Handles(st.cache, st.cache.Keys - keep);
      st.(cache := map k | k in st.cache && k in keep :: st.cache[k],
          items := CancelAll(st.items, victims), evicted := st.evicted + victims)
  }

  lemma EvictIs(st: State, cache: map<string, nat>)
    requires |st.cache| > 5
    requires forall k :: k in cache <==> k in st.cache && k in FirstIds(st.queue, 5)
    requires forall k :: k in cache ==> cache[k] == st.cache[k]
    ensures var victims := Handles(st.cache, st.cache.Keys - FirstIds(st.queue, 5));
            Evict(st) == st.(cache := cache, items := CancelAll(st.items, victims), evicted := st.evicted + victims)
  {
  }

  function UpdateCache(st: State): (r: State)
    ensures r.queue == st.queue
  {
    Evict(AddFirst(st, Min(3, |st.queue|)))
  }

  function UpdateQueue(st: State, queue: seq<QueueItem>): State {
    UpdateCache(st.(queue := queue))
  }

  /** The cached items under these keys that are neither ready nor failed. */
  function Running(st: State, keys: set<string>): set<nat> {
    set h | h in Handles(st.cache, keys) && h < |st.items| && !st.items[h].failed && !st.items[h].ready
  }

  function Reset(st: State): State {
    st.(queue := [], cache := map[], items := CancelAll(st.items, Running(st, st.cache.Keys)),
        cleared := st.cleared + Handles(st.cache, st.cache.Keys))
  }

  /** The end of a download: the song's bytes, or a failure. */
  datatype Completion = Completion(handle: nat, body: Option<Body>)

  function Complete(st: State, c: Completion): State {
    if c.handle >= |st.items| || st.items[c.handle].done then st
    else
      var item := st.items[c.handle];
      st.(items := st.items[c.handle :=
            match c.body
            case Some(body) => item.(done := true, body := body, ready := item.ready || !item.cancelled)
            case None => item.(done := true, failed := true)])
  }

  function CompleteAll(st: State, cs: seq<Completion>): (r: State)
    ensures r.queue == st.queue && r.cache == st.cache && |r.items| == |st.items|
    ensures r.taken == st.taken && r.evicted == st.evicted && r.cleared == st.cleared
    decreases |cs|
  {
    if cs == [] then st else CompleteAll(Complete(st, cs[0]), cs[1..])
  }

  datatype Outcome = Returned(handle: nat) | FailedToLoad(songId: string, itemId: string) | Disconnected | EmptyQueue

  /** What NextSong met on its way: a head that was not cached, or an item it took and let go, as the
      item was at that moment. */
  datatype Met = Missing | Dropped(handle: nat, item: Item)

  /** `last` is the item that was taken last, as it was when NextSong looked at it. */
  datatype NextResult = NextResult(st: State, outcome: Outcome, met: seq<Met>, last: Option<Item>)

  /** The head leaves the queue and the cache, and the cache is brought up to date. */
  function TakeHead(st: State): (r: State)
    requires st.queue != [] && st.queue[0].itemId in st.cache
    ensures r.queue == st.queue[1..]
  {
    var id := st.queue[0].itemId;
    UpdateCache(st.(queue := st.queue[1..], cache := st.cache - {id}, taken := st.taken + {st.cache[id]}))
  }

  function Seen(met: Met, r: NextResult): NextResult {
    r.(met := [met] + r.met)
  }

  /** NextSong. Each element of `naps` holds the downloads that end while the player sleeps once;
      `online` is what the file server answers to a ping. */
  function NextSong(st: State, naps: seq<seq<Completion>>, online: bool): (r: NextResult)
    ensures r.outcome.Returned? ==> r.outcome.handle < |r.st.items|
    ensures r.outcome.FailedToLoad? ==> |r.st.queue| < |st.queue|
    ensures |r.st.queue| <= |st.queue|
    decreases |st.queue|, st.queue != [] && st.queue[0].itemId !in st.cache
  {
    if st.queue == [] then NextResult(st, EmptyQueue, [], None)
    else
      var head := st.queue[0];
      if head.itemId !in st.cache then Seen(Missing, NextSong(AddToCache(st, head), naps, online))
      else
        var handle, st' := st.cache[head.itemId], TakeHead(st);
        if handle >= |st'.items| then NextResult(st', Disconnected, [], None)
        else
          var item := st'.items[handle];
          if item.ready then NextResult(st', Returned(handle), [], Some(item))
          else if item.cancelled then Seen(Dropped(handle, item), NextSong(st', naps, online))
          else if item.failed then
            NextResult(st', if online then FailedToLoad(head.songId, head.itemId) else Disconnected, [], Some(item))
          else
            var ended, later := if naps == [] then [] else naps[0], if naps == [] then [] else naps[1..];
            Seen(Dropped(handle, item), NextSong(CompleteAll(st', ended), later, online))
  }

  // ---------------------------------------------------------------------------------------------
  // Every reachable state

  /** The item of this handle is in the cache. */
  predicate InCache(st: State, h: nat) {
    h < |st.items| && st.items[h].itemId in st.cache && st.cache[st.items[h].itemId] == h
  }

  /** The cache holds, under each key, an uncancelled item of that id. */
  ghost predicate CacheSound(st: State) {
    forall k :: k in st.cache ==>
      st.cache[k] < |st.items| && st.items[st.cache[k]].itemId == k && !st.items[st.cache[k]].cancelled
  }

  /** In how many places the item is: the cache, and the three ways out of it. */
  function Places(st: State, h: nat): nat {
    (if InCache(st, h) then 1 else 0) + (if h in st.taken then 1 else 0)
    + (if h in st.evicted then 1 else 0) + (if h in st.cleared then 1 else 0)
  }

  ghost predicate OnePlace(st: State) {
    && (forall h :: h in st.taken || h in st.evicted || h in st.cleared ==> h < |st.items|)
    && (forall h :: 0 <= h < |st.items| ==> Places(st, h) == 1)
  }

  /** How an item may look, given where it is. */
  ghost predicate ItemSound(st: State, h: nat)
    requires h < |st.items|
  {
    var item := st.items[h];
    && (item.ready ==> item.done && !item.failed) && (item.failed ==> item.done)
    && (item.done && !item.cancelled ==> item.ready || item.failed)
    && (h in st.evicted ==> item.cancelled)
    && (h in st.cleared ==> !item.Pending())
    && (item.cancelled ==> h in st.evicted || h in st.cleared)
  }

  ghost predicate Inv(st: State) {
    && CacheSound(st) && OnePlace(st)
    && (forall h :: 0 <= h < |st.items| ==> ItemSound(st, h))
    && |st.cache| <= 5
    && (forall i :: 0 <= i < Min(3, |st.queue|) ==> st.queue[i].itemId in st.cache)
  }

  /** The invariant while the cache is brought up to date: the first n positions are cached. */
  ghost predicate InvUpTo(st: State, n: nat) {
    && CacheSound(st) && OnePlace(st)
    && (forall h :: 0 <= h < |st.items| ==> ItemSound(st, h))
    && (forall i :: 0 <= i < Min(n, |st.queue|) ==> st.queue[i].itemId in st.cache)
  }

  lemma AddKeeps(st: State, n: nat)
    requires InvUpTo(st, n) && n < |st.queue|
    ensures InvUpTo(AddToCache(st, st.queue[n]), n + 1)
  {
    var r := AddToCache(st, st.queue[n]);
    assert |st.items| !in st.taken && |st.items| !in st.evicted && |st.items| !in st.cleared;
    forall h | 0 <= h < |st.items|
      ensures r.items[h] == st.items[h] && ItemSound(r, h) && Places(r, h) == 1
    {
      assert ItemSound(st, h) && Places(st, h) == 1;
    }
  }

  lemma {:induction false} AddFirstKeeps(st: State, n: nat)
    requires InvUpTo(st, 0) && n <= |st.queue|
    ensures InvUpTo(AddFirst(st, n), n)
  {
    if n > 0 {
      hide InvUpTo, AddToCache;
      AddFirstKeeps(st, n - 1);
      AddKeeps(AddFirst(st, n - 1), n - 1);
    }
  }

  lemma VictimOf(st: State, keep: set<string>, h: nat)
    requires CacheSound(st) && h < |st.items|
    ensures h in Handles(st.cache, st.cache.Keys - keep) <==> InCache(st, h) && st.items[h].itemId !in keep
  {
  }

  lemma {:induction false} SubsetSize<T>(a: set<T>, b: set<T>)
    requires a <= b
    ensures |a| <= |b|
  {
    if a != {} {
      var x :| x in a;
      SubsetSize(a - {x}, b - {x});
    }
  }

  /** Where the items are after an eviction. */
  lemma EvictPlaces(st: State)
    requires CacheSound(st) && |st.cache| > 5
    ensures var victims := Handles(st.cache, st.cache.Keys - FirstIds(st.queue, 5));
            && (forall h :: 0 <= h < |st.items| ==> (InCache(Evict(st), h) <==> InCache(st, h) && h !in victims))
            && (forall h :: 0 <= h < |st.items| && h in victims ==> InCache(st, h))
    ensures forall h :: h in Evict(st).evicted ==> h in st.evicted || h < |st.items|
    ensures CacheSound(Evict(st)) && |Evict(st).cache| <= 5
  {
    var keep, r := FirstIds(st.queue, 5), Evict(st);
    assert r.cache.Keys <= keep;
    SubsetSize(r.cache.Keys, keep);
    forall h | 0 <= h < |st.items|
      ensures h in Handles(st.cache, st.cache.Keys - keep) <==> InCache(st, h) && st.items[h].itemId !in keep
    {
      VictimOf(st, keep, h);
    }
    forall k | k in r.cache
      ensures !r.items[r.cache[k]].cancelled
    {
      assert st.items[st.cache[k]].itemId == k;
    }
  }

  /** What stands in the first five positions stays, with its identity. */
  lemma StillCached(st: State)
    ensures forall i :: 0 <= i < Min(5, |st.queue|) && st.queue[i].itemId in st.cache ==>
              var id := st.queue[i].itemId;
              id in Evict(st).cache && Evict(st).cache[id] == st.cache[id]
  {
  }

  lemma EvictItems(st: State)
    requires InvUpTo(st, 3) && |st.cache| > 5
    ensures OnePlace(Evict(st)) && forall h :: 0 <= h < |Evict(st).items| ==> ItemSound(Evict(st), h)
  {
    hide InCache, FirstIds;
    EvictPlaces(st);
    var r := Evict(st);
    forall h | 0 <= h < |r.items|
      ensures ItemSound(r, h) && Places(r, h) == 1
    {
      assert ItemSound(st, h) && Places(st, h) == 1;
    }
  }

  lemma EvictKeeps(st: State)
    requires InvUpTo(st, 3)
    ensures Inv(Evict(st))
  {
    if |st.cache| > 5 {
      EvictPlaces(st);
      EvictItems(st);
      StillCached(st);
      hide Evict, OnePlace, CacheSound, ItemSound;
      forall i | 0 <= i < Min(3, |st.queue|)
        ensures st.queue[i].itemId in Evict(st).cache
      {
      }
    }
  }

  lemma {:induction false} AddFirstKeepsHandles(st: State, n: nat)
    requires n <= |st.queue|
    ensures forall k :: k in st.cache ==> k in AddFirst(st, n).cache && AddFirst(st, n).cache[k] == st.cache[k]
  {
    if n > 0 {
      AddFirstKeepsHandles(st, n - 1);
    }
  }

  /** Bringing the cache up to date never replaces an item: who survives keeps its identity, and
      whoever stands in the first five positions survives. */
  lemma UpdateKeepsIdentity(st: State)
    ensures var r := UpdateCache(st);
            && (forall k :: k in st.cache && k in r.cache ==> r.cache[k] == st.cache[k])
            && (forall i :: 0 <= i < Min(5, |st.queue|) && st.queue[i].itemId in st.cache ==>
                  st.queue[i].itemId in r.cache)
  {
    AddFirstKeepsHandles(st, Min(3, |st.queue|));
    StillCached(AddFirst(st, Min(3, |st.queue|)));
  }

  lemma UpdateKeeps(st: State)
    requires InvUpTo(st, 0)
    ensures Inv(UpdateCache(st))
  {
    AddFirstKeeps(st, Min(3, |st.queue|));
    EvictKeeps(AddFirst(st, Min(3, |st.queue|)));
  }

  lemma ResetKeeps(st: State)
    requires Inv(st)
    ensures Inv(Reset(st))
  {
    var r := Reset(st);
    forall h | h in Handles(st.cache, st.cache.Keys)
      ensures h < |st.items|
    {
      var k :| k in st.cache && st.cache[k] == h;
    }
    forall h | 0 <= h < |r.items|
      ensures ItemSound(r, h) && Places(r, h) == 1
    {
      assert ItemSound(st, h) && Places(st, h) == 1;
      if h in Handles(st.cache, st.cache.Keys) {
        var k :| k in st.cache && st.cache[k] == h;
        assert st.items[h].itemId == k;
      }
    }
  }

  lemma CompleteKeeps(st: State, c: Completion)
    requires Inv(st)
    ensures Inv(Complete(st, c))
  {
    var r := Complete(st, c);
    forall h | 0 <= h < |r.items|
      ensures ItemSound(r, h) && Places(r, h) == 1
    {
      assert ItemSound(st, h) && Places(st, h) == 1;
    }
  }

  lemma {:induction false} CompleteAllKeeps(st: State, cs: seq<Completion>)
    requires Inv(st)
    ensures Inv(CompleteAll(st, cs))
    decreases |cs|
  {
    if cs != [] {
      CompleteKeeps(st, cs[0]);
      CompleteAllKeeps(Complete(st, cs[0]), cs[1..]);
    }
  }

  lemma TakeHeadKeeps(st: State)
    requires Inv(st) && st.queue != []
    ensures st.queue[0].itemId in st.cache && Inv(TakeHead(st))
    ensures var h := st.cache[st.queue[0].itemId];
            h < |TakeHead(st).items| && TakeHead(st).items[h] == st.items[h] && h in TakeHead(st).taken
  {
    assert st.queue[0].itemId in st.cache;
    var id := st.queue[0].itemId;
    var mid := st.(queue := st.queue[1..], cache := st.cache - {id}, taken := st.taken + {st.cache[id]});
    forall h | 0 <= h < |mid.items|
      ensures ItemSound(mid, h) && Places(mid, h) == 1
    {
      assert ItemSound(st, h) && Places(st, h) == 1;
    }
    UpdateKeeps(mid);
    UpdateSpares(mid, st.cache[id]);
  }

  /** Bringing the cache up to date does not touch an item that is not in it. */
  lemma UpdateSpares(st: State, h: nat)
    requires InvUpTo(st, 0) && h < |st.items| && !InCache(st, h)
    ensures h < |UpdateCache(st).items| && UpdateCache(st).items[h] == st.items[h]
    ensures UpdateCache(st).taken == st.taken
  {
    var n := Min(3, |st.queue|);
    AddFirstSpares(st, n, h);
    AddFirstKeeps(st, n);
    var mid := AddFirst(st, n);
    VictimOf(mid, FirstIds(mid.queue, 5), h);
  }

  lemma {:induction false} AddFirstSpares(st: State, n: nat, h: nat)
    requires n <= |st.queue| && h < |st.items| && InvUpTo(st, 0)
    ensures h < |AddFirst(st, n).items| && AddFirst(st, n).items[h] == st.items[h]
    ensures InCache(AddFirst(st, n), h) ==> InCache(st, h)
    ensures AddFirst(st, n).taken == st.taken
  {
    if n > 0 {
      AddFirstSpares(st, n - 1, h);
    }
  }

  // ---------------------------------------------------------------------------------------------
  // What the operations do to the cache

  /** The ids of the first n positions, by position. */
  predicate AmongFirst(queue: seq<QueueItem>, n: nat, id: string) {
    exists i :: 0 <= i < n && i < |queue| && queue[i].itemId == id
  }

  /** Prefetching: what is cached stays, exactly the ids of the first n positions are added, and each
      new item is a download of a song from one of these positions that has only just started. */
  lemma {:induction false} PrefetchMeaning(st: State, n: nat)
    requires n <= |st.queue|
    ensures var r := AddFirst(st, n);
            && (forall k :: k in r.cache <==> k in st.cache || AmongFirst(st.queue, n, k))
            && (forall k :: k in st.cache ==> r.cache[k] == st.cache[k])
            && |st.items| <= |r.items| && (forall h :: 0 <= h < |st.items| ==> r.items[h] == st.items[h])
            && (forall h :: |st.items| <= h < |r.items| ==>
                  && (exists i :: 0 <= i < n &&
                        r.items[h].itemId == st.queue[i].itemId && r.items[h].songId == st.queue[i].songId)
                  && !r.items[h].ready && !r.items[h].cancelled && !r.items[h].failed && !r.items[h].done
                  && r.items[h].itemId in r.cache && r.cache[r.items[h].itemId] == h)
            && r.taken == st.taken && r.evicted == st.evicted && r.cleared == st.cleared
  {
    if n > 0 {
      PrefetchMeaning(st, n - 1);
      var mid, q := AddFirst(st, n - 1), st.queue[n - 1];
      var r := AddFirst(st, n);
      forall k
        ensures k in r.cache <==> k in st.cache || AmongFirst(st.queue, n, k)
      {
        assert AmongFirst(st.queue, n, k) <==> AmongFirst(st.queue, n - 1, k) || k == q.itemId;
      }
      forall h | |st.items| <= h < |r.items|
        ensures exists i :: 0 <= i < n && r.items[h].itemId == st.queue[i].itemId && r.items[h].songId == st.queue[i].songId
        ensures r.items[h].itemId in r.cache && r.cache[r.items[h].itemId] == h
      {
        if h == |mid.items| {
          assert r.items[h].itemId == st.queue[n - 1].itemId && r.items[h].songId == st.queue[n - 1].songId;
        } else {
          var i :| 0 <= i < n - 1 && r.items[h].itemId == st.queue[i].itemId && r.items[h].songId == st.queue[i].songId;
        }
      }
    }
  }

  /** Eviction: up to five entries nothing happens. Beyond them exactly the ids outside the first five
      positions leave the cache; their items are cancelled and recorded, and no other item changes. */
  lemma EvictMeaning(st: State)
    ensures |st.cache| <= 5 ==> Evict(st) == st
    ensures |st.cache| > 5 ==>
              var r := Evict(st);
              && (forall k :: k in r.cache <==> k in st.cache && AmongFirst(st.queue, 5, k))
              && (forall k :: k in r.cache ==> r.cache[k] == st.cache[k])
              && (forall h :: h in r.evicted <==>
                    h in st.evicted || exists k :: k in st.cache && st.cache[k] == h && !AmongFirst(st.queue, 5, k))
              && |r.items| == |st.items|
              && (forall h :: 0 <= h < |st.items| ==>
                    r.items[h] == if exists k :: k in st.cache && st.cache[k] == h && !AmongFirst(st.queue, 5, k)
                                  then st.items[h].(cancelled := true) else st.items[h])
              && r.taken == st.taken && r.cleared == st.cleared && r.queue == st.queue
  {
    hide FirstIds;
    if |st.cache| > 5 {
      var keep := FirstIds(st.queue, 5);
      forall k
        ensures k in keep <==> AmongFirst(st.queue, 5, k)
      {
      }
      var victims := Handles(st.cache, st.cache.Keys - keep);
      forall h
        ensures h in victims <==> exists k :: k in st.cache && st.cache[k] == h && !AmongFirst(st.queue, 5, k)
      {
      }
    }
  }

  /** Bringing the cache up to date: the first three positions are prefetched, and then it is as full as
      before or emptied down to the first five positions. */
  lemma UpdateMeaning(st: State)
    ensures UpdateCache(st) == Evict(AddFirst(st, if |st.queue| < 3 then |st.queue| else 3))
  {
  }

  /** Reset: queue and cache are empty; of the items that were cached those that are neither ready nor
      failed are cancelled, and all of them are recorded as cleared; nothing else changes. */
  lemma ResetMeaning(st: State)
    ensures var r := Reset(st);
            && r.queue == [] && r.cache == map[] && r.taken == st.taken && r.evicted == st.evicted
            && (forall h :: h in r.cleared <==> h in st.cleared || exists k :: k in st.cache && st.cache[k] == h)
            && |r.items| == |st.items|
            && (forall h :: 0 <= h < |st.items| ==>
                  r.items[h] == if (exists k :: k in st.cache && st.cache[k] == h) && !st.items[h].ready && !st.items[h].failed
                                then st.items[h].(cancelled := true) else st.items[h])
  {
    forall h
      ensures h in Handles(st.cache, st.cache.Keys) <==> exists k :: k in st.cache && st.cache[k] == h
    {
    }
  }

  /** The end of a download: the first end counts. What it brings makes the item ready unless it was
      cancelled, and nothing makes it failed; no other item changes. */
  lemma CompleteMeaning(st: State, c: Completion)
    ensures var r := Complete(st, c);
            && r == st.(items := r.items) && |r.items| == |st.items|
            && (forall h :: 0 <= h < |st.items| ==>
                  var before, after := st.items[h], r.items[h];
                  if h != c.handle || before.done then after == before
                  else
                    && after.done && after.itemId == before.itemId && after.songId == before.songId
                    && after.cancelled == before.cancelled
                    && (c.body.Some? ==>
                          && after.body == c.body.value && after.failed == before.failed
                          && (after.ready <==> before.ready || !before.cancelled))
                    && (c.body == None ==> after.failed && after.ready == before.ready && after.body == before.body))
  {
  }

  /** Downloads that end one after the other. */
  lemma CompleteAllMeaning(st: State, c: Completion, cs: seq<Completion>)
    ensures CompleteAll(st, []) == st
    ensures CompleteAll(st, [c] + cs) == CompleteAll(Complete(st, c), cs)
  {
    assert ([c] + cs)[1..] == cs;
  }

  // ---------------------------------------------------------------------------------------------
  // NextSong

  /** NextSong consumes the queue from its head: position k is what it reports, and every position
      before k held an item that was still being downloaded when it was taken. */
  ghost predicate Consumed(st: State, r: NextResult) {
    var k := |r.met|;
    && k <= |st.queue|
    && (forall i :: 0 <= i < k ==>
          && r.met[i].Dropped? && r.met[i].item.Pending() && r.met[i].item.itemId == st.queue[i].itemId
          && r.met[i].handle in r.st.taken)
    && (r.outcome == EmptyQueue <==> k == |st.queue|)
    && r.st.queue == (if k == |st.queue| then [] else st.queue[k + 1..])
    && match r.outcome
       case Returned(h) =>
         h < |r.st.items| && r.st.items[h].ready && r.st.items[h].itemId == st.queue[k].itemId && h in r.st.taken
         && r.last == Some(r.st.items[h])
       case FailedToLoad(songId, itemId) => QueueItem(songId, itemId) == st.queue[k] && LastFailed(r, itemId)
       case Disconnected => LastFailed(r, st.queue[k].itemId)
       case EmptyQueue => r.last == None
  }

  /** The item taken last is of this id, and its download has failed. */
  predicate LastFailed(r: NextResult, itemId: string) {
    r.last.Some? && r.last.value.failed && !r.last.value.ready && r.last.value.itemId == itemId
  }

  lemma ConsumedHere(st: State, r: NextResult)
    requires st.queue != [] && r.met == [] && r.st.queue == st.queue[1..]
    requires match r.outcome
             case Returned(h) =>
               h < |r.st.items| && r.st.items[h].ready && r.st.items[h].itemId == st.queue[0].itemId && h in r.st.taken
               && r.last == Some(r.st.items[h])
             case FailedToLoad(songId, itemId) => QueueItem(songId, itemId) == st.queue[0] && LastFailed(r, itemId)
             case Disconnected => LastFailed(r, st.queue[0].itemId)
             case EmptyQueue => false
    ensures Consumed(st, r)
  {
  }

  lemma ConsumedStep(st: State, st': State, met: Met, r: NextResult)
    requires st.queue != [] && st'.queue == st.queue[1..] && Consumed(st', r)
    requires met.Dropped? && met.item.Pending() && met.item.itemId == st.queue[0].itemId && met.handle in r.st.taken
    ensures Consumed(st, Seen(met, r))
  {
  }

  lemma HeadIsUncancelled(st: State)
    requires Inv(st) && st.queue != []
    ensures st.queue[0].itemId in st.cache
    ensures var h := st.cache[st.queue[0].itemId];
            h < |st.items| && !st.items[h].cancelled && st.items[h].itemId == st.queue[0].itemId
  {
  }

  function Ended(naps: seq<seq<Completion>>): seq<Completion> {
    if naps == [] then [] else naps[0]
  }

  function Later(naps: seq<seq<Completion>>): seq<seq<Completion>> {
    if naps == [] then [] else naps[1..]
  }

  /** In a reachable state the head is always cached and never cancelled, so only three of the
      branches of NextSong can be taken. */
  lemma NextSongCases(st: State, naps: seq<seq<Completion>>, online: bool)
    requires Inv(st) && st.queue != []
    ensures st.queue[0].itemId in st.cache
    ensures var h, st' := st.cache[st.queue[0].itemId], TakeHead(st);
            && h < |st'.items| && Inv(st') && h in st'.taken && st.taken <= st'.taken
            && st'.items[h].itemId == st.queue[0].itemId && !st'.items[h].cancelled
            && NextSong(st, naps, online) ==
               if st'.items[h].ready then NextResult(st', Returned(h), [], Some(st'.items[h]))
               else if st'.items[h].failed then
                 NextResult(st', if online then FailedToLoad(st.queue[0].songId, st.queue[0].itemId) else Disconnected, [],
                            Some(st'.items[h]))
               else
                 Seen(Dropped(h, st'.items[h]), NextSong(CompleteAll(st', Ended(naps)), Later(naps), online))
  {
    hide Inv, UpdateCache, TakeHead;
    HeadIsUncancelled(st);
    TakeHeadKeeps(st);
    TakenGrows(st);
  }

  lemma {:induction false} NextSongConsumes(st: State, naps: seq<seq<Completion>>, online: bool)
    requires Inv(st)
    ensures Inv(NextSong(st, naps, online).st)
    ensures Consumed(st, NextSong(st, naps, online))
    ensures st.taken <= NextSong(st, naps, online).st.taken
    ensures NextSong(st, naps, online).outcome == Disconnected ==> !online
    ensures NextSong(st, naps, online).outcome.FailedToLoad? ==> online
    decreases |st.queue|
  {
    if st.queue != [] {
      hide Inv, UpdateCache, TakeHead, NextSong, Consumed;
      NextSongCases(st, naps, online);
      var h, st' := st.cache[st.queue[0].itemId], TakeHead(st);
      if st'.items[h].Pending() {
        CompleteAllKeeps(st', Ended(naps));
        var next := CompleteAll(st', Ended(naps));
        NextSongConsumes(next, Later(naps), online);
        ConsumedStep(st, next, Dropped(h, st'.items[h]), NextSong(next, Later(naps), online));
      } else {
        ConsumedHere(st, NextSong(st, naps, online));
      }
    }
  }

  /** NextSong reports on the head of the queue exactly when the head is no longer being downloaded at
      the call; even a head that becomes ready while NextSong sleeps is let go. */
  lemma HeadReported(st: State, naps: seq<seq<Completion>>, online: bool)
    requires Inv(st) && st.queue != []
    ensures st.queue[0].itemId in st.cache && st.cache[st.queue[0].itemId] < |st.items|
    ensures NextSong(st, naps, online).met == [] <==> !st.items[st.cache[st.queue[0].itemId]].Pending()
  {
    hide Inv, UpdateCache, TakeHead, NextSong;
    HeadIsUncancelled(st);
    NextSongCases(st, naps, online);
    TakeHeadKeeps(st);
  }

  lemma TakenGrows(st: State)
    requires Inv(st) && st.queue != [] && st.queue[0].itemId in st.cache
    ensures st.taken <= TakeHead(st).taken
  {
    TakenStays(st.(queue := st.queue[1..], cache := st.cache - {st.queue[0].itemId},
                   taken := st.taken + {st.cache[st.queue[0].itemId]}), Min(3, |st.queue[1..]|));
  }

  lemma {:induction false} TakenStays(st: State, n: nat)
    requires n <= |st.queue|
    ensures AddFirst(st, n).taken == st.taken
  {
    if n > 0 {
      TakenStays(st, n - 1);
    }
  }

  // ---------------------------------------------------------------------------------------------
  // Runs

  datatype Event =
    | Update(queue: seq<QueueItem>)
    | Next(naps: seq<seq<Completion>>, online: bool)
    | Clear
    | Finished(c: Completion)

  function Exec(st: State, e: Event): State {
    match e
    case Update(queue) => UpdateQueue(st, queue)
    case Next(naps, online) => NextSong(st, naps, online).st
    case Clear => Reset(st)
    case Finished(c) => Complete(st, c)
  }

  function Run(events: seq<Event>): State {
    if events == [] then INITIAL else Exec(Run(events[..|events| - 1]), events[|events| - 1])
  }

  lemma ExecKeeps(st: State, e: Event)
    requires Inv(st)
    ensures Inv(Exec(st, e))
  {
    match e
    case Update(queue) =>
      var mid := st.(queue := queue);
      forall h | 0 <= h < |mid.items|
        ensures ItemSound(mid, h) && Places(mid, h) == 1
      {
        assert ItemSound(st, h) && Places(st, h) == 1;
      }
      UpdateKeeps(mid);
    case Next(naps, online) => NextSongConsumes(st, naps, online);
    case Clear => ResetKeeps(st);
    case Finished(c) => CompleteKeeps(st, c);
  }

  lemma {:induction false} RunKeeps(events: seq<Event>)
    ensures Inv(Run(events))
  {
    if events != [] {
      RunKeeps(events[..|events| - 1]);
      ExecKeeps(Run(events[..|events| - 1]), events[|events| - 1]);
    }
  }

  /** The shape of the cache after any run: at most five items, each under its own id, and the first
      three positions of the queue are among them. */
  lemma CacheShape(events: seq<Event>)
    ensures var st := Run(events);
            && |st.cache| <= 5
            && (forall k :: k in st.cache ==> st.cache[k] < |st.items| && st.items[st.cache[k]].itemId == k)
            && (forall i :: 0 <= i < |st.queue| && i < 3 ==> st.queue[i].itemId in st.cache)
  {
    RunKeeps(events);
  }

  /** Conservation of downloads after any run: every item has exactly one place; those thrown out
      are cancelled, those cleared are ready, failed or cancelled, and what is cached or was taken is
      not cancelled. */
  lemma DownloadsConserved(events: seq<Event>)
    ensures var st := Run(events);
            && (forall h :: 0 <= h < |st.items| ==>
                  && Places(st, h) == 1
                  && (h in st.evicted ==> st.items[h].cancelled)
                  && (h in st.cleared ==> st.items[h].ready || st.items[h].failed || st.items[h].cancelled)
                  && (InCache(st, h) || h in st.taken ==> !st.items[h].cancelled))
            && (forall h :: h in st.taken || h in st.evicted || h in st.cleared ==> h < |st.items|)
  {
    hide Inv, Places, InCache, Run;
    RunKeeps(events);
    var st := Run(events);
    forall h | 0 <= h < |st.items|
      ensures Places(st, h) == 1
      ensures h in st.evicted ==> st.items[h].cancelled
      ensures h in st.cleared ==> st.items[h].ready || st.items[h].failed || st.items[h].cancelled
      ensures InCache(st, h) || h in st.taken ==> !st.items[h].cancelled
    {
      Conserved(st, h);
    }
    PlacesAreItems(st);
  }

  lemma Conserved(st: State, h: nat)
    requires Inv(st) && h < |st.items|
    ensures Places(st, h) == 1
    ensures h in st.evicted ==> st.items[h].cancelled
    ensures h in st.cleared ==> st.items[h].ready || st.items[h].failed || st.items[h].cancelled
    ensures InCache(st, h) || h in st.taken ==> !st.items[h].cancelled
  {
    assert ItemSound(st, h) && Places(st, h) == 1;
  }

  lemma PlacesAreItems(st: State)
    requires Inv(st)
    ensures forall h :: h in st.taken || h in st.evicted || h in st.cleared ==> h < |st.items|
  {
  }

  /** After any run, NextSong meets neither a head that is not cached nor a cancelled item. */
  lemma NextSongAfterRun(events: seq<Event>, naps: seq<seq<Completion>>, online: bool)
    ensures Consumed(Run(events), NextSong(Run(events), naps, online))
  {
    RunKeeps(events);
    NextSongConsumes(Run(events), naps, online);
  }

  // ---------------------------------------------------------------------------------------------
  // The cache agrees with direct download

  /** Every item id stands for one song, and a download that succeeds brings that song. */
  ghost predicate Faithful(st: State, songOf: string -> string, server: string -> Body) {
    && (forall i :: 0 <= i < |st.queue| ==> st.queue[i].songId == songOf(st.queue[i].itemId))
    && (forall h :: 0 <= h < |st.items| ==>
          && st.items[h].songId == songOf(st.items[h].itemId)
          && (st.items[h].ready ==> st.items[h].body == server(st.items[h].songId)))
  }

  ghost predicate FaithfulCompletion(st: State, c: Completion, server: string -> Body) {
    c.body.Some? && c.handle < |st.items| ==> c.body.value == server(st.items[c.handle].songId)
  }

  /** Downloads that end one after the other, each with what the server has for its song. */
  ghost predicate FaithfulAll(st: State, cs: seq<Completion>, server: string -> Body)
    decreases |cs|
  {
    cs != [] ==> FaithfulCompletion(st, cs[0], server) && FaithfulAll(Complete(st, cs[0]), cs[1..], server)
  }

  /** The same for every nap of a call of NextSong. */
  ghost predicate FaithfulNaps(st: State, naps: seq<seq<Completion>>, server: string -> Body)
    decreases |st.queue|, st.queue != [] && st.queue[0].itemId !in st.cache
  {
    if st.queue == [] then true
    else if st.queue[0].itemId !in st.cache then FaithfulNaps(AddToCache(st, st.queue[0]), naps, server)
    else
      var h, st' := st.cache[st.queue[0].itemId], TakeHead(st);
      h < |st'.items| && st'.items[h].Pending() && naps != [] ==>
        FaithfulAll(st', naps[0], server) && FaithfulNaps(CompleteAll(st', naps[0]), naps[1..], server)
  }

  ghost predicate FaithfulEvent(st: State, e: Event, songOf: string -> string, server: string -> Body) {
    match e
    case Update(queue) => forall i :: 0 <= i < |queue| ==> queue[i].songId == songOf(queue[i].itemId)
    case Next(naps, _) => FaithfulNaps(st, naps, server)
    case Clear => true
    case Finished(c) => FaithfulCompletion(st, c, server)
  }

  ghost predicate FaithfulRun(events: seq<Event>, songOf: string -> string, server: string -> Body) {
    events == [] ||
    (FaithfulRun(events[..|events| - 1], songOf, server) &&
     FaithfulEvent(Run(events[..|events| - 1]), events[|events| - 1], songOf, server))
  }

  lemma {:induction false} AddFirstFaithful(st: State, n: nat, songOf: string -> string, server: string -> Body)
    requires n <= |st.queue| && Faithful(st, songOf, server)
    ensures Faithful(AddFirst(st, n), songOf, server)
  {
    if n > 0 {
      AddFirstFaithful(st, n - 1, songOf, server);
    }
  }

  lemma UpdateFaithful(st: State, songOf: string -> string, server: string -> Body)
    requires Faithful(st, songOf, server)
    ensures Faithful(UpdateCache(st), songOf, server)
  {
    var n := Min(3, |st.queue|);
    AddFirstFaithful(st, n, songOf, server);
    hide AddFirst, FirstIds, Handles;
    var mid, r := AddFirst(st, n), UpdateCache(st);
    forall h | 0 <= h < |r.items|
      ensures r.items[h].songId == mid.items[h].songId && r.items[h].itemId == mid.items[h].itemId
      ensures r.items[h].ready == mid.items[h].ready && r.items[h].body == mid.items[h].body
    {
    }
  }

  lemma {:induction false} CompleteAllFaithful(st: State, cs: seq<Completion>, songOf: string -> string, server: string -> Body)
    requires Faithful(st, songOf, server) && FaithfulAll(st, cs, server)
    ensures Faithful(CompleteAll(st, cs), songOf, server)
    decreases |cs|
  {
    if cs != [] {
      CompleteAllFaithful(Complete(st, cs[0]), cs[1..], songOf, server);
    }
  }

  lemma TakeHeadFaithful(st: State, songOf: string -> string, server: string -> Body)
    requires Inv(st) && st.queue != [] && Faithful(st, songOf, server)
    ensures st.queue[0].itemId in st.cache && Faithful(TakeHead(st), songOf, server)
  {
    hide UpdateCache;
    HeadIsUncancelled(st);
    hide Inv;
    var id := st.queue[0].itemId;
    UpdateFaithful(st.(queue := st.queue[1..], cache := st.cache - {id}, taken := st.taken + {st.cache[id]}),
                   songOf, server);
  }

  lemma {:induction false} NextSongFaithful(st: State, naps: seq<seq<Completion>>, online: bool,
                                            songOf: string -> string, server: string -> Body)
    requires Inv(st) && Faithful(st, songOf, server) && FaithfulNaps(st, naps, server)
    ensures Faithful(NextSong(st, naps, online).st, songOf, server)
    decreases |st.queue|
  {
    if st.queue != [] {
      hide Inv, UpdateCache, TakeHead, NextSong, Faithful;
      NextSongCases(st, naps, online);
      TakeHeadFaithful(st, songOf, server);
      var st' := TakeHead(st);
      if st'.items[st.cache[st.queue[0].itemId]].Pending() {
        CompleteAllKeeps(st', Ended(naps));
        if naps == [] {
          NapsEmpty(st', server);
        } else {
          CompleteAllFaithful(st', naps[0], songOf, server);
        }
        NextSongFaithful(CompleteAll(st', Ended(naps)), Later(naps), online, songOf, server);
      }
    }
  }

  lemma {:induction false} NapsEmpty(st: State, server: string -> Body)
    ensures FaithfulNaps(st, [], server)
    decreases |st.queue|, st.queue != [] && st.queue[0].itemId !in st.cache
  {
  }

  lemma {:induction false} RunFaithful(events: seq<Event>, songOf: string -> string, server: string -> Body)
    requires FaithfulRun(events, songOf, server)
    ensures Faithful(Run(events), songOf, server)
  {
    if events != [] {
      var before, e := events[..|events| - 1], events[|events| - 1];
      RunFaithful(before, songOf, server);
      RunKeeps(before);
      match e
      case Update(queue) => UpdateFaithful(Run(before).(queue := queue), songOf, server);
      case Next(naps, online) => NextSongFaithful(Run(before), naps, online, songOf, server);
      case Clear =>
      case Finished(c) =>
    }
  }

  /** Caching is transparent: whatever queue updates, evictions and completions came before, the song
      that NextSong returns for a position holds exactly what a direct download of that position's
      song brings. */
  lemma AgreesWithDownload(events: seq<Event>, naps: seq<seq<Completion>>, online: bool,
                           songOf: string -> string, server: string -> Body)
    ensures var st := Run(events);
            var r := NextSong(st, naps, online);
            FaithfulRun(events, songOf, server) && FaithfulNaps(st, naps, server) && r.outcome.Returned? ==>
              && |r.met| < |st.queue| && r.outcome.handle < |r.st.items|
              && var q := st.queue[|r.met|];
                 var item := r.st.items[r.outcome.handle];
                 item.itemId == q.itemId && item.songId == q.songId && item.ready && item.body == server(q.songId)
  {
    RunKeeps(events);
    NextSongConsumes(Run(events), naps, online);
    if FaithfulRun(events, songOf, server) && FaithfulNaps(Run(events), naps, server) {
      RunFaithful(events, songOf, server);
      NextSongFaithful(Run(events), naps, online, songOf, server);
    }
  }
}
