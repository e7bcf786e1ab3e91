/** Inputs on which the code does not do what one would expect. */
module Witnesses {
  import opened Wrappers
  import opened Library
  import opened Paging
  import Q = Queries
  import F = FileLists
  import C = CStrings
  import J = Json
  import R = Requests
  import M = SessionSpec
  import L = SessionLaws
  import P = MusicPlayer
  import S = SongCacheSpec

  // ---------------------------------------------------------------------------------------------
  // The library

  const SONG := Metadata("title", "artist", "", "", 60)

  lemma EmptyIsSound()
    ensures WellFormed(EMPTY) && Consistent(EMPTY) && Tidy(EMPTY)
  {
  }

  /** The first song gets the id 1. */
  lemma FirstSong(m: Metadata, filename: string)
    ensures var db := AddSong(EMPTY, filename, m, NO_FAULTS);
            && db.song.Keys == {1} && db.song[1].path == filename && db.song[1].title == m.title
            && db.playlistSong == {} && KnownPath(db, filename)
  {
    hide AddSong, Refers, With, Has, Extends, ArtistId;
    AddSongMeaning(EMPTY, filename, m, NO_FAULTS);
    assert NewId({}) == 1;
  }

  /** The artist is created, but cannot be looked up: its album belongs to the artist -1. */
  lemma OrphanedAlbum()
    ensures !Consistent(AddSong(EMPTY, "f", Metadata("title", "artist", "album", "", 60), NO_FAULTS.(artistId := true)))
  {
    AddKeepsConsistent(EMPTY, "f", Metadata("title", "artist", "album", "", 60), NO_FAULTS.(artistId := true));
  }

  /** A known file comes again under another artist, who then has no song. */
  lemma UntidyAdd()
    ensures Tidy(AddSong(EMPTY, "f", SONG, NO_FAULTS))
    ensures !Tidy(AddSong(AddSong(EMPTY, "f", SONG, NO_FAULTS), "f", SONG.(artist := "other"), NO_FAULTS))
  {
    hide AddSong, Refers, With, Extends, ArtistId, Consistent, Tidy, Lookup;
    var db := AddSong(EMPTY, "f", SONG, NO_FAULTS);
    EmptyIsSound();
    FirstSong(SONG, "f");
    AddSongMeaning(EMPTY, "f", SONG, NO_FAULTS);
    AddKeepsConsistent(EMPTY, "f", SONG, NO_FAULTS);
    AddKeepsTidyWithoutFaults(EMPTY, "f", SONG);
    AddKeepsTidyWithoutFaults(db, "f", SONG.(artist := "other"));
    assert !Has(EMPTY.artist, "other");
  }

  /** The path is new, but the song is not inserted: its artist has no song either. */
  lemma UntidyFault()
    ensures !Tidy(AddSong(EMPTY, "f", SONG, NO_FAULTS.(song := true)))
  {
    EmptyIsSound();
    AddKeepsTidy(EMPTY, "f", SONG, NO_FAULTS.(song := true));
    assert !Has(EMPTY.artist, SONG.artist);
  }

  /** Song 1 in playlist 7. */
  ghost function OneInPlaylist(): Db {
    AddSong(EMPTY, "f", SONG, NO_FAULTS).(playlist := map[7 := Playlist("p", "", "user")],
                                          playlistSong := Modified({}, 7, {1}, {}))
  }

  /** The song is removed and another one added: it is in the playlist at once. */
  lemma InheritedMembership()
    ensures var db := OneInPlaylist();
            && WellFormed(Removed(db, {1}))
            && var r := AddSong(Removed(db, {1}), "g", SONG, NO_FAULTS);
               1 in r.song && r.song[1].path == "g" && (1, 7) in r.playlistSong
  {
    hide AddSong, Refers, With, Has, Extends, ArtistId, WellFormed, Tidy;
    FirstSong(SONG, "f");
    var db := OneInPlaylist();
    assert WellFormed(db) by { OneWellFormed(); }
    assert db.song - {1} == map[];
    RemovedTidy(db, {1});
    InheritedMemberships(db, {1}, "g", SONG, NO_FAULTS);
    assert NewId({}) == 1;
  }

  lemma OneWellFormed()
    ensures WellFormed(OneInPlaylist())
  {
    hide AddSong;
  }

  /** The check ends before it has read the one song, whose file is gone. */
  lemma UnreadSong()
    ensures var db := AddSong(EMPTY, "f", SONG, NO_FAULTS);
            Reconciled(db, {}, _ => false) != Reconciled(db, db.song.Keys, _ => false)
  {
    hide AddSong, Refers, With, Has, Extends, ArtistId;
    AddSongMeaning(EMPTY, "f", SONG, NO_FAULTS);
    assert NewId({}) == 1;
    PartialCheck(AddSong(EMPTY, "f", SONG, NO_FAULTS), {}, _ => false);
  }

  // ---------------------------------------------------------------------------------------------
  // The queries

  /** Song 1 in the playlists 7 and 8. */
  ghost function OneInTwoPlaylists(): Db {
    OneInPlaylist().(playlist := map[7 := Playlist("p", "", "user"), 8 := Playlist("q", "", "user")],
                     playlistSong := Modified(Modified({}, 7, {1}, {}), 8, {1}, {}))
  }

  /** Two rows with one id: the page that starts at the second row is empty. */
  lemma SecondRowLost<T(!new)>(q: Query<T>, x: T, y: T)
    requires Ordered(q.le) && q.rows == [x, y] && q.where_(x) && q.where_(y) && q.id(x) == q.id(y)
    ensures |Result(q)| == 2 && |Slice(Result(q), Offset(2), 2)| == 1 && Page(q, 2, 2) == []
  {
    hide Ordered, Page;
    FilterSize(q.rows, q.where_);
    ResultMeaning(q);
    var r := Result(q);
    assert r[0] in r && r[1] in r;
    PageIsFiltered(q, 2, 2);
    SkipFirst(r, 1, q.id);
  }

  /** Without a page the song view has the song twice; the page that starts at the second row is
      empty. */
  lemma SongInTwoPlaylists()
    ensures OneInTwoPlaylists().song.Keys == {1} && OneInTwoPlaylists().playlistSong == {(1, 7), (1, 8)}
    ensures Q.Within([1], OneInTwoPlaylists().song)
    ensures var q := Q.SongQuery(OneInTwoPlaylists(), [1], [(1, 7), (1, 8)], map[], false, (text, filter) => true);
            |Result(q)| == 2 && |Slice(Result(q), Offset(2), 2)| == 1 && Page(q, 2, 2) == []
  {
    hide AddSong, Ordered, Page, Result, Slice, Q.Join, Q.SongViewRow, Q.OrderBy;
    FirstSong(SONG, "f");
    var db := OneInTwoPlaylists();
    var q := Q.SongQuery(db, [1], [(1, 7), (1, 8)], map[], false, (text, filter) => true);
    Q.OrderIsOrdered(Q.SongKey(None), [false]);
    TwoRows(db);
    SecondRowLost(q, Q.SongViewRow(db, 1, Some(7)), Q.SongViewRow(db, 1, Some(8)));
  }

  lemma TwoRows(db: Db)
    requires db.song.Keys == {1}
    ensures Q.Join(db, [1], [(1, 7), (1, 8)]) == [Q.SongViewRow(db, 1, Some(7)), Q.SongViewRow(db, 1, Some(8))]
  {
    var members: seq<(int, int)> := [(1, 7), (1, 8)];
    assert members[1..] == [(1, 8)];
    assert members[1..][1..] == [];
    assert Q.Memberships(db, 1, []) == [];
    assert Q.Memberships(db, 1, [(1, 8)]) == [Q.SongViewRow(db, 1, Some(8))];
    var scan: seq<int> := [1];
    assert scan[1..] == [];
  }

  /** Two artists with an album each. */
  ghost function TwoArtists(): Db {
    EMPTY.(artist := map[1 := "a", 2 := "b"], album := map[1 := Album("x", 1), 2 := Album("y", 2)])
  }

  /** The list of albums asked for in descending order has the artists ascending. */
  lemma AscendingArtists(like: (string, string) -> bool)
    ensures Q.Within([1, 2], TwoArtists().album)
    ensures var r := Result(Q.AlbumQuery(TwoArtists(), [1, 2], map[], true, like));
            exists i, j :: 0 <= i < j < |r| && !Q.ValueLe(Q.TextValue(r[j].artist), Q.TextValue(r[i].artist))
  {
    hide Result, Q.ValueLe, Q.OrderBy;
    var db := TwoArtists();
    assert Q.Scans([1, 2], db.album);
    assert Q.AlbumFound(db, map[], like, 1) && Q.AlbumFound(db, map[], like, 2);
    Q.WhenDescending(db, [1, 2], map[], like);
  }

  // ---------------------------------------------------------------------------------------------
  // The lists of files

  /** Two files that do not exist: the byte before the destination is lost, and the first of the two
      stays in the list. */
  method TwoMissingFiles() returns (mem: array<char>)
    ensures mem.Length == 5 && mem[0] == C.NUL && C.StringAt(mem[..], 1, "a")
  {
    var text := "a|b";
    mem := new char[5];
    mem[0], mem[1], mem[2], mem[3], mem[4] := 'x', 'a', '|', 'b', C.NUL;
    assert mem[1..4] == text;
    NoneExists();
    var r := F.EnsureFilesExist(mem, 1, 1, name => false, text);
  }

  lemma NoneExists()
    ensures F.Split("a|b") == ["a", "b"] && F.Existing(name => false, ["a", "b"]) == []
  {
    F.SplitJoin(["a", "b"]);
    assert ["a", "b"][1..] == ["b"];
    F.ExistingNone(name => false, ["a", "b"]);
  }

  /** Of two selected files neither exists: the first one is stored. If both exist and neither can be
      read, the second one is. */
  lemma MissingFileStored()
    ensures F.Added(name => false, name => false, ["d\\a", "d\\b"]) == ["d\\a"]
    ensures F.Added(name => true, name => false, ["d\\a", "d\\b"]) == ["d\\b"]
  {
    var paths := ["d\\a", "d\\b"];
    F.ExistingNone(name => false, paths);
    F.ExistingAll(name => true, paths);
    assert paths[1..] == ["d\\b"];
  }

  // ---------------------------------------------------------------------------------------------
  // The cache and the session

  const QUEUE := [S.QueueItem("s", "i"), S.QueueItem("t", "j")]

  /** Both songs are being downloaded. */
  const BOTH := S.State(QUEUE, map["i" := 0, "j" := 1],
                        [S.Item("i", "s", false, false, false, false, []), S.Item("j", "t", false, false, false, false, [])],
                        {}, {}, {})

  lemma BothCached()
    ensures S.UpdateQueue(S.INITIAL, QUEUE) == BOTH
  {
    var st := S.INITIAL.(queue := QUEUE);
    assert S.AddFirst(st, 0) == st;
    var one := S.AddFirst(st, 1);
    assert one.cache == map["i" := 0] && one.items == [BOTH.items[0]];
    assert S.AddFirst(st, 2) == BOTH;
  }

  /** The first song is still being downloaded when the second one is ready: the first is dropped. */
  lemma PendingHeadDropped(body: S.Body)
    ensures var events := [S.Update(QUEUE), S.Finished(S.Completion(1, Some(body)))];
            var r := S.NextSong(S.Run(events), [], true);
            r.outcome == S.Returned(1) && r.st.queue == [] && r.st.taken == {0, 1}
  {
    hide S.NextSong, S.Run;
    SecondEnds(body);
    SecondReturned(S.Complete(BOTH, S.Completion(1, Some(body))));
  }

  lemma SecondEnds(body: S.Body)
    ensures S.Run([S.Update(QUEUE), S.Finished(S.Completion(1, Some(body)))]) == S.Complete(BOTH, S.Completion(1, Some(body)))
  {
    hide S.UpdateQueue, S.Complete;
    var events := [S.Update(QUEUE), S.Finished(S.Completion(1, Some(body)))];
    BothCached();
    assert events[..1] == [S.Update(QUEUE)] && events[..1][..0] == [];
    assert S.Run(events[..1]) == BOTH;
  }

  lemma FirstTaken(st: S.State)
    requires st.queue == QUEUE && st.cache == BOTH.cache && st.taken == {}
    ensures S.TakeHead(st) == st.(queue := [QUEUE[1]], cache := map["j" := 1], taken := {0})
  {
    var mid := st.(queue := [QUEUE[1]], cache := map["j" := 1], taken := {0});
    assert st.(queue := st.queue[1..], cache := st.cache - {"i"}, taken := st.taken + {0}) == mid;
    assert S.AddFirst(mid, 0) == mid;
    assert S.AddFirst(mid, 1) == mid;
  }

  lemma SecondTaken(st: S.State)
    requires st.queue == [QUEUE[1]] && st.cache == map["j" := 1] && st.taken == {0}
    ensures S.TakeHead(st) == st.(queue := [], cache := map[], taken := {0, 1})
  {
    var mid := st.(queue := [], cache := map[], taken := {0, 1});
    assert st.(queue := st.queue[1..], cache := st.cache - {"j"}, taken := st.taken + {1}) == mid;
    assert S.AddFirst(mid, 0) == mid;
  }

  lemma SecondReturned(st: S.State)
    requires st.queue == QUEUE && st.cache == BOTH.cache && |st.items| == 2 && st.items[0] == BOTH.items[0] && st.items[1].ready
    requires st.taken == {}
    ensures var r := S.NextSong(st, [], true);
            r.outcome == S.Returned(1) && r.st.queue == [] && r.st.taken == {0, 1}
  {
    hide S.TakeHead, S.UpdateCache, S.AddFirst;
    FirstTaken(st);
    var one := S.TakeHead(st);
    SecondTaken(one);
    assert S.CompleteAll(one, []) == one;
    assert S.NextSong(one, [], true).outcome == S.Returned(1);
  }

  const STILL := M.World(true, [], P.Device(true, true, true))

  /** Two payloads that are no JSON, and a request without anything: it is answered as malformed, and
      the streak of two is over. */
  lemma MalformedRequestEndsStreak()
    ensures var bad := M.Read(M.ReadOk, None, STILL);
            var two, three := M.Run([bad, bad]), M.Run([bad, bad, M.Read(M.ReadOk, Some(J.Object(map[])), STILL)]);
            && two.tally.failCounter == 2
            && three.tally.failCounter == 0 && three.tally.judged == [true, true, false] && three.tally.reading
            && three.pipe.pushed == [M.Response(R.MALFORMED_REQUEST, J.Null)]
  {
    var bad, last := M.Read(M.ReadOk, None, STILL), M.Read(M.ReadOk, Some(J.Object(map[])), STILL);
    var first: seq<M.Event> := [bad];
    assert first[..|first| - 1] == [] && [bad, bad][..1] == [bad] && [bad, bad, last][..2] == [bad, bad];
    assert M.Run([]) == M.INITIAL;
    var one := M.Run(first);
    assert one == M.Step(M.INITIAL, bad);
    assert one.tally == M.Tally(1, true, 0, [true], []) && one.pipe == M.INITIAL.pipe;
    var two := M.Run([bad, bad]);
    assert two.tally == M.Tally(2, true, 0, [true, true], []) && two.pipe == M.INITIAL.pipe;
    assert M.Run([bad, bad, last]) == M.Step(two, last);
    MalformedAnswered(two);
  }

  lemma MalformedAnswered(st: M.State)
    requires st.tally == M.Tally(2, true, 0, [true, true], []) && st.pipe == M.INITIAL.pipe
    ensures var r := M.Step(st, M.Read(M.ReadOk, Some(J.Object(map[])), STILL));
            && r.tally.failCounter == 0 && r.tally.judged == [true, true, false] && r.tally.reading
            && r.pipe.pushed == [M.Response(R.MALFORMED_REQUEST, J.Null)]
  {
    hide M.Pushed;
    var idle := st.(tally := st.tally.(reading := false));
    assert M.Dispatch(idle, map[], STILL) == M.Done(idle, R.MALFORMED_REQUEST);
  }

  const URL: map<string, J.Json> := map["url" := J.String("u")]

  const UPDATE: map<string, J.Json> :=
    map["queue" := J.Array([J.Object(map["songId" := J.String("s"), "itemId" := J.String("i")]),
                            J.Object(map["songId" := J.String("t"), "itemId" := J.String("j")])])]

  /** Initialised and asked for the next song, with nothing in the queue: the session waits. */
  ghost function Waiting(): M.State {
    M.NextAction(M.InitializeAction(M.INITIAL, URL, true).st, STILL).st
  }

  lemma ItWaits()
    ensures L.Sound(Waiting()) && Waiting().waitingForQueue && Waiting().currentSong == None
  {
    hide L.Sound, L.Acts, L.Opens, M.NextAction, M.InitializeAction, M.TakeSongs;
    L.InitialInv();
    L.SoundOf(M.INITIAL);
    L.InitializeTrace(M.INITIAL, URL, true);
    var st := M.InitializeAction(M.INITIAL, URL, true).st;
    L.NextTrace(st, STILL);
    NothingTaken(st);
    L.RemainsSo(st, M.TakeSongs(st, []), STILL.device, Waiting(), st.playing);
    OnlyWaits(st, Waiting());
  }

  lemma NothingTaken(st: M.State)
    requires st.cache == Some(S.INITIAL)
    ensures M.TakeSongs(st, []).outcome == S.EmptyQueue
  {
  }

  lemma OnlyWaits(st: M.State, r: M.State)
    requires st.cache == Some(S.INITIAL) && st.currentSong == None && M.TakeSongs(st, []).outcome == S.EmptyQueue
    requires L.Opens(st, M.TakeSongs(st, []), STILL.device, r, st.playing)
    ensures r.currentSong == None
  {
    hide M.TakeSongs, L.FatesSound, L.Lines;
  }

  /** The session waits, is reset, initialised again and given two songs, of which the second is
      downloaded while the first is waited for: it becomes the current song, though nobody asked for
      one since the reset. */
  lemma SongNobodyAskedFor(body: S.Body)
    ensures var again := M.InitializeAction(M.ResetAction(Waiting(), STILL.device).st, URL, true).st;
            var w := STILL.(pulls := [M.Pull([[S.Completion(1, Some(body))]], true)]);
            again.currentSong == None && M.UpdateQueueAction(again, UPDATE, w).st.currentSong == Some("j")
  {
    hide L.Sound, L.Opens, L.Acts, M.InitializeAction, M.ResetAction, M.UpdateQueueAction, M.TakeSongs, Waiting, S.UpdateQueue;
    var w := STILL.(pulls := [M.Pull([[S.Completion(1, Some(body))]], true)]);
    ItWaits();
    UpdateIsQueue();
    L.ResetRemembers(Waiting(), STILL.device, URL, UPDATE, w);
    var again := M.InitializeAction(M.ResetAction(Waiting(), STILL.device).st, URL, true).st;
    var taken := M.TakeQueue(again, QUEUE).(waitingForQueue := false);
    BothCached();
    assert taken.cache == Some(BOTH);
    SecondTakenUp(taken, w, body);
    var r := M.UpdateQueueAction(again, UPDATE, w).st;
    ItIsCurrent(taken, w, r);
  }

  lemma UpdateIsQueue()
    ensures R.HasQueue(UPDATE) && R.QueueOf(UPDATE) == QUEUE
  {
  }

  lemma ItIsCurrent(st: M.State, w: M.World, r: M.State)
    requires st.cache.Some? && L.Opens(st, M.TakeSongs(st, w.pulls), w.device, r, false)
    requires L.OpeningOf(M.TakeSongs(st, w.pulls)) == M.Started("j")
    ensures r.currentSong == Some("j")
  {
    hide M.TakeSongs, L.FatesSound, L.Lines;
  }

  lemma SecondTakenUp(st: M.State, w: M.World, body: S.Body)
    requires st.cache == Some(BOTH) && w.pulls == [M.Pull([[S.Completion(1, Some(body))]], true)]
    ensures L.OpeningOf(M.TakeSongs(st, w.pulls)) == M.Started("j")
  {
    hide S.NextSong;
    ReadyWhileAsleep(body);
    var r := S.NextSong(BOTH, [[S.Completion(1, Some(body))]], true);
    assert M.TakeSongs(st, w.pulls).outcome == r.outcome;
  }

  /** The second song becomes ready while NextSong sleeps over the first. */
  lemma ReadyWhileAsleep(body: S.Body)
    ensures var r := S.NextSong(BOTH, [[S.Completion(1, Some(body))]], true);
            r.outcome == S.Returned(1) && |r.st.items| == 2 && r.st.items[1].itemId == "j"
  {
    hide S.TakeHead, S.UpdateCache, S.AddFirst;
    var c := S.Completion(1, Some(body));
    FirstTaken(BOTH);
    var one := S.TakeHead(BOTH);
    var slept := S.CompleteAll(one, [c]);
    assert [c][1..] == [];
    assert S.CompleteAll(S.Complete(one, c), []) == S.Complete(one, c);
    assert slept == S.Complete(one, c);
    assert slept.queue == [QUEUE[1]] && slept.items[1].ready;
    SecondTaken(slept);
    var naps := [[c]];
    assert naps[1..] == [];
    assert S.NextSong(slept, [], true).outcome == S.Returned(1);
    assert S.NextSong(slept, [], true).st.items == slept.items;
  }
}
