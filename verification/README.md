# Juke It, verified

A model of the parts of Juke It that carry real state, and proofs about them. It covers six pieces of
`JukeItApp/`:

- the player session: a JSON-RPC state machine with one writer, a fail counter and a prefetching song
  cache whose downloads end whenever they like. `SongCacheSpec` and `SessionSpec` say what cache and
  session do, `SessionLaws` what follows, and `SongCache` and `Session` are the classes that do it in
  place; `Requests`, `Json` and `MusicPlayer` are what the session reads and plays on;
- the re-chunking of decoder frames into audio callbacks (`Playback`);
- the music library as relations: adding, removing with clean-up, transactions, file availability and
  playlist edits (`Library`, `SqliteAPI`);
- the paged queries over it, and the numbers in their parameters (`Paging`, `Queries`, `Numbers`);
- the lists of paths that tinyfiledialogs packs, compacts and hands over inside one character buffer
  (`FileLists`, `CStrings`);
- the parser of escaped parameters (`Params`).

Code that changes things step by step is a class or a method over an array and is proved against a
function or a predicate; the laws are lemmas about that function, or invariants kept by every step.
Network, decoder, audio device, SQLite engine and file system are inputs: what a ping, a download, a
statement or a call to PortAudio answers is a parameter of the operation, so every result is determined,
and the proofs hold for all answers. `dafny verify dfyconfig.toml` checks the whole project.

## Where the code does not do what one would expect

Each of these is proved with the exact condition under which the expected property holds, and most are
shown at an input (`Witnesses`).

- `NextSong` drops a head that is still being downloaded and goes on to the next one, although its comment
  speaks of waiting (`SongCacheSpec.HeadReported`, `Witnesses.PendingHeadDropped`).
- Resetting the player leaves `waitingForQueue_` as it was, so a session that is reset, initialised again and
  given a queue opens a song nobody asked for exactly when it was waiting before
  (`SessionLaws.ResetRemembers`, `Witnesses.SongNobodyAskedFor`).
- Not every error answer counts as a failure: only a refused action, and a request with a proper header but
  no method. Every other one ends the streak, be it for a missing header or for bad parameters
  (`SessionLaws.AnswersCounted`, `Witnesses.MalformedRequestEndsStreak`). An action whose parameters are
  missing is answered with OK.
- `ensureFilesExist` writes one byte before its destination exactly when no file of the list exists
  (`FileLists.StaysInside`, `Witnesses.TwoMissingFiles`). The last but one name then stays in place, and
  `AddFiles` stores a file that does not exist (`FileLists.AddedAll`, `Witnesses.MissingFileStored`).
- `AddFiles` stores the last file of a list without asking whether its metadata could be read, so all that is
  stored can be read exactly when the last one can (`FileLists.StoredReadable`). A selection is stored as it is
  exactly when every file exists and all but the last can be read (`FileLists.AddedAll`).
- When the artist of a song cannot be looked up, an album is created for the artist -1
  (`Library.AddKeepsConsistent`, `Witnesses.OrphanedAlbum`).
- Adding a file leaves an artist, album or genre without a song unless every row created gets the song, as
  when a known file comes with new metadata or the song itself is not inserted (`Library.AddKeepsTidy`,
  `Witnesses.UntidyAdd`, `Witnesses.UntidyFault`).
- A removed song stays in its playlists (`Library.RemovedMemberships`), and a song added later may get its
  id and with it its place in them (`Library.InheritedMemberships`, `Witnesses.InheritedMembership`).
- An availability check whose reading ends early still commits what it has (`Library.PartialCheck`,
  `Witnesses.UnreadSong`).
- The song view pages wrongly when no playlist is asked for and a song found is in two
  (`Queries.SongViewPage`, `Witnesses.SongInTwoPlaylists`).
- A descending album list turns round the names, not the artists: its artists descend only when all albums
  that meet the condition have the same one (`Queries.WhenDescending`, `Witnesses.AscendingArtists`).
- A removal whose commit fails reports failure, and yet leaves the transaction open with the songs removed
  (`SqliteAPI.SqliteAPI.RemoveFiles`).

## Model

| member | source | states |
|---|---|---|
| SongCacheSpec.UpdateKeepsIdentity | JukeItApp/SongCache.cpp:103-147 | bringing the cache up to date never replaces an item, and whoever stands in the first five positions stays |
| SongCacheSpec.CacheShape | JukeItApp/SongCache.cpp:93-158 | after any run of queue updates, NextSong calls, resets and completions there are at most five entries, each under its own item id, and the first three positions of the queue are cached |
| SongCacheSpec.DownloadsConserved | JukeItApp/SongCache.cpp:139-173 | after any run every item is in exactly one place: cached, taken, evicted or cleared; the evicted are cancelled, the cleared are ready, failed or cancelled, the cached and taken never cancelled |
| SongCacheSpec.NextSongCases | JukeItApp/SongCache.cpp:42-91 | in a reachable state the head is cached and not cancelled, so of the branches only ready, failed and still downloading are ever taken |
| SongCacheSpec.NextSongConsumes | JukeItApp/SongCache.cpp:42-91 | NextSong reports on one position of the queue, leaves exactly what follows it, has let go only items that were still downloading, keeps the invariant, and says empty exactly when the queue is used up |
| SongCacheSpec.HeadReported | JukeItApp/SongCache.cpp:58-79 | NextSong reports on the head of the queue exactly when that is not being downloaded at the call |
| SongCacheSpec.NextSongAfterRun | JukeItApp/SongCache.cpp:81-86 | the same after every run, where the head that is not in the cache never occurs |
| SongCacheSpec.RunKeeps | JukeItApp/SongCache.cpp:93-173 | every run from the empty cache keeps the cache invariant |
| SongCacheSpec.ExecKeeps | JukeItApp/SongCache.cpp:42-173 | every single operation and every completion keeps the cache invariant |
| SongCacheSpec.AgreesWithDownload | JukeItApp/SongCache.cpp:11-60 | when an item id always stands for one song, the song NextSong returns for a position holds exactly what a direct download of that position's song brings, whatever came before |
| SongCacheSpec.PrefetchMeaning | JukeItApp/SongCache.cpp:103-113 | prefetching n positions adds exactly their ids, each with a new download of a song asked for there, and changes nothing that was cached |
| SongCacheSpec.EvictMeaning | JukeItApp/SongCache.cpp:114-146 | up to five entries nothing happens; beyond them exactly the ids outside the first five positions leave, and their items alone are cancelled |
| SongCacheSpec.UpdateMeaning | JukeItApp/SongCache.cpp:103-147 | three positions are prefetched, or as many as there are, and then the cache is emptied as said above |
| SongCacheSpec.ResetMeaning | JukeItApp/SongCache.cpp:160-173 | queue and cache are empty; exactly those cached items are cancelled that are neither ready nor failed, and every cached item is recorded as cleared |
| SongCacheSpec.CompleteMeaning | JukeItApp/SongCache.cpp:23-39 | the first end of a download counts: its bytes make the item ready unless it was cancelled, an exception makes it failed, and no other item changes |
| SongCacheSpec.CompleteAllMeaning | JukeItApp/SongCache.cpp:23-39 | downloads that end take effect one after the other |
| SongCache.SongCacheItem.Finish | JukeItApp/SongCache.cpp:23-39 | the end of a download: ready unless cancelled, or failed |
| SongCache.SongCache.AddToCache | JukeItApp/SongCache.cpp:149-158 | a missing item is created with its download; a cached one is left alone |
| SongCache.SongCache.MissingKeys | JukeItApp/SongCache.cpp:116-137 | exactly the cached ids that are not in the first five positions, each once |
| SongCache.SongCache.Evict | JukeItApp/SongCache.cpp:114-146 | beyond five entries exactly the items outside the first five positions are cancelled and dropped |
| SongCache.SongCache.UpdateCache | JukeItApp/SongCache.cpp:103-147 | the fields in place follow the state machine: prefetch of three, then eviction |
| SongCache.SongCache.UpdateQueue | JukeItApp/SongCache.cpp:93-101 | the queue becomes the new one and the cache is brought up to date |
| SongCache.SongCache.NextSong | JukeItApp/SongCache.cpp:42-91 | the recursive method over objects refines NextSong of the state machine, for all downloads that end while it sleeps and every answer of the server, and terminates |
| SongCache.SongCache.Sleep | JukeItApp/SongCache.cpp:23-39 | the downloads that end take effect one by one, in their order |
| SongCache.SongCache.Reset | JukeItApp/SongCache.cpp:160-173 | running downloads are cancelled, cache and queue emptied |
| MusicPlayer.Starting | JukeItApp/MusicPlayer.cc:336-352 | a stream that is open or paused and can be started plays, with one report if there is a callback; in any other case nothing happens |
| MusicPlayer.Stopping | JukeItApp/MusicPlayer.cc:354-369 | a stream that plays and can be stopped is paused, with one report; in any other case nothing happens |
| MusicPlayer.Closing | JukeItApp/MusicPlayer.cc:371-378 | a stream that plays and cannot be stopped stays; otherwise none is left, open or paused, and what played is reported to have stopped |
| MusicPlayer.Opening | JukeItApp/MusicPlayer.cc:444-541 | what was open is closed first, with the report of a stop if it played; then the new stream is open if it can be |
| MusicPlayer.MusicPlayer.Play | JukeItApp/MusicPlayer.cc:336-352 | the method leaves the status and gives the reports that Starting describes |
| MusicPlayer.MusicPlayer.Pause | JukeItApp/MusicPlayer.cc:354-369 | the method leaves the status and gives the reports that Stopping describes |
| MusicPlayer.MusicPlayer.Close | JukeItApp/MusicPlayer.cc:371-378 | the method leaves the status and gives the reports that Closing describes |
| MusicPlayer.MusicPlayer.Open | JukeItApp/MusicPlayer.cc:444-541 | the method leaves the status and gives the reports that Opening describes |
| Requests.TryParseQueue | JukeItApp/MusicPlayerAPI.cc:397-416 | all items in order if every one is well formed, otherwise none |
| Requests.QueueMeaning | JukeItApp/MusicPlayerAPI.cc:397-416 | the parameters hold a queue exactly when it is an array of objects that each have a songId and an itemId that are texts |
| Requests.StreakMeaning | JukeItApp/MusicPlayerAPI.cc:76-79 | a streak of at least k means that the last k payloads were all counted |
| SessionSpec.Pushed | JukeItApp/MusicPlayerAPI.cc:476-509 | a message is appended to all that was pushed and nothing is taken back; one writer, in order, with nobody idle while something waits |
| SessionSpec.WriteEnded | JukeItApp/MusicPlayerAPI.cc:96-117 | the end of a write keeps that, and takes nothing back |
| SessionLaws.TakeSongsMeaning | JukeItApp/MusicPlayerAPI.cc:371-385 | every position the queue gives up held an item that was still being downloaded, or one that had failed, which is reported, or the last one looked at; SONGFAILED is sent for exactly those that failed, in order |
| SessionLaws.OpenOrWaitKeeps | JukeItApp/MusicPlayerAPI.cc:371-395 | after the failures exactly one SONGSTARTED names the song at the last position given up, now the current one and ready, or the queue is used up and the playlist asked for, or the player is reset and the loss of the server reported |
| SessionLaws.NextTrace | JukeItApp/MusicPlayerAPI.cc:271-298 | all messages, player calls and reports of NextAction, and what remains, for every outcome |
| SessionLaws.PlayTrace | JukeItApp/MusicPlayerAPI.cc:227-258 | the same for PlayAction; with a song only the player is started, unless it plays already |
| SessionLaws.PauseTrace | JukeItApp/MusicPlayerAPI.cc:260-269 | nothing plays any more, also when the stream cannot be stopped; FILESERVER_NOT_SET exactly without a cache |
| SessionLaws.PlayStarts | JukeItApp/MusicPlayerAPI.cc:227-258 | PLAY with a song: an open or paused stream that can be started plays and the status is pushed once if it is wanted; the session plays in any case |
| SessionLaws.PauseStops | JukeItApp/MusicPlayerAPI.cc:260-269 | PAUSE: a stream that plays and can be stopped is paused, and the status is pushed once if it is wanted |
| SessionLaws.PausePlay | JukeItApp/MusicPlayerAPI.cc:227-269 | PAUSE and then PLAY brings a song that plays back to playing |
| SessionLaws.NextPlays | JukeItApp/MusicPlayerAPI.cc:271-298 | NEXT with a song that is ready, when the device does all that is asked: the new song plays if one did, and is open otherwise |
| SessionLaws.ResetTrace | JukeItApp/MusicPlayerAPI.cc:300-303 | no cache and no song, nothing plays, and waitingForQueue is as it was |
| SessionLaws.ResetCloses | JukeItApp/MusicPlayerAPI.cc:418-427 | a reset leaves no stream open or paused, nor playing if it can be stopped, and pushes the stop of one that played |
| SessionLaws.ResetRemembers | JukeItApp/MusicPlayerAPI.cc:346-427 | after a reset and a new start, the first queue update opens a song exactly when the session was waiting before |
| SessionLaws.InitializeTrace | JukeItApp/MusicPlayerAPI.cc:310-329 | with a url there is a new, empty cache, and the playlist is asked for exactly when the server answers; what plays goes on |
| SessionLaws.VolumeTrace | JukeItApp/MusicPlayerAPI.cc:331-344 | the volume is set exactly for a number from 0 to 100, and nothing else changes |
| SessionLaws.UpdateQueueTrace | JukeItApp/MusicPlayerAPI.cc:346-369 | a refused update changes nothing; one that is taken replaces the queue, and opens a song for whoever waited, with all messages, or else asks for the playlist below three songs and touches nothing else |
| SessionLaws.DispatchTrace | JukeItApp/MusicPlayerAPI.cc:136-217 | for every request the response code, and that it is counted exactly if it is a failure by Counted |
| SessionLaws.MethodTexts | JukeItApp/MusicPlayerAPI.cc:148-212 | which method text starts which action; a text that is none of the nine is refused with code 11 and counted |
| SessionLaws.MethodsWithParams | JukeItApp/MusicPlayerAPI.cc:173-212 | which method text with parameters starts which action; CLOSE and SEEK are refused and counted, and without parameters nothing is done and the code is 0 |
| SessionLaws.NoMethod | JukeItApp/MusicPlayerAPI.cc:136-217 | without a proper header or a method the code is 12, and only the second is counted |
| SessionLaws.ActionCodes | JukeItApp/MusicPlayerAPI.cc:227-369 | the code of every action, by number, and when exactly it is which |
| SessionLaws.CountedMeaning | JukeItApp/MusicPlayerAPI.cc:66-217 | which payloads count as failures, by their version, id, method text and parameters |
| SessionLaws.IdleTrace | JukeItApp/MusicPlayerAPI.cc:173-217 | requests without header, method, needed parameters or a supported action touch neither player nor cache and cause no message |
| SessionLaws.AnswersCounted | JukeItApp/MusicPlayerAPI.cc:136-225 | the response carries the request's own id, or null; it adds to the fail counter exactly when its code is 11, or 12 behind a proper header without a method, and any other response sets the counter to zero |
| SessionLaws.OneResponse | JukeItApp/MusicPlayerAPI.cc:136-225 | exactly one response, last, whose id is the request's id if it has one and null otherwise, as section 5 of the JSON-RPC 2.0 specification asks; before it only notifications |
| SessionLaws.ReadJudges | JukeItApp/MusicPlayerAPI.cc:41-84 | every payload is judged, also after a read error and after a close; the connection is closed for a bad payload and reading stops exactly when the streak reaches three |
| SessionLaws.ReadingEnds | JukeItApp/MusicPlayerAPI.cc:45-58 | an aborted read only ends the reading; one that finds the connection closed closes the session too |
| SessionLaws.OtherSteps | JukeItApp/MusicPlayerAPI.cc:119-127 | the end of a song opens the next one, the end of a download concerns the cache alone, and a close leaves nothing |
| SessionLaws.CloseKeeps | JukeItApp/MusicPlayerAPI.cc:119-127 | no cache, nothing playing, nothing waiting to be written |
| SessionLaws.StepKeeps | JukeItApp/MusicPlayerAPI.cc:41-127 | every step keeps all invariants, takes no message back, and sets waitingForQueue at most once and only with a request for the playlist |
| SessionLaws.RunKeeps | JukeItApp/MusicPlayerAPI.cc:41-127 | every run keeps all invariants |
| SessionLaws.PipelineAfterRun | JukeItApp/MusicPlayerAPI.cc:86-117 | after every run what is handed over and what waits is all that was pushed, in order, but for what a close threw away, and nothing waits while nobody writes |
| SessionLaws.WriteGoesOn | JukeItApp/MusicPlayerAPI.cc:86-117 | a write that ends leaves one message less unwritten: it hands over the one that waits longest, or frees the writer; an aborted one changes nothing |
| SessionLaws.AllIsWritten | JukeItApp/MusicPlayerAPI.cc:86-117 | after every run, when as many writes end as messages are unwritten, everything that was not thrown away has been handed over and nobody writes |
| SessionLaws.ResponsesAfterRun | JukeItApp/MusicPlayerAPI.cc:41-225 | after every run there is one response for each request object that was read, in order and with its id or null, and one judgement for each payload |
| SessionLaws.FailCounterAfterRun | JukeItApp/MusicPlayerAPI.cc:66-83 | after every run the fail counter is the streak, at most three; at three the connection was closed once and nothing is read |
| SessionLaws.ControlAfterRun | JukeItApp/MusicPlayerAPI.cc:227-433 | after every run: no cache means nothing playing, playing without a song means waiting, and the playlist was asked for at least as often as waiting was set |
| SessionLaws.ReportsAfterRun | JukeItApp/MusicPlayerAPI.cc:371-395 | after every run the items reported since the last update are, in order, items of positions the queue has given up |
| SessionLaws.SongsAfterRun | JukeItApp/MusicPlayerAPI.cc:227-395 | after every run the next song is opened as said above: failed items are reported and no others, skipped ones were still being downloaded |
| Session.Session.Push | JukeItApp/MusicPlayerAPI.cc:476-509 | the fields follow the pipeline of the state machine |
| Session.Session.OnWrite | JukeItApp/MusicPlayerAPI.cc:96-117 | the fields follow the end of a write |
| Session.Session.TakeSong | JukeItApp/MusicPlayerAPI.cc:371-385 | the loop over the cache refines TakeSongs, for every order of downloads and answers of the server |
| Session.Session.OpenNextSong | JukeItApp/MusicPlayerAPI.cc:371-395 | the method over cache, player and queue refines OpenNextSong of the state machine |
| Session.Session.NextAction | JukeItApp/MusicPlayerAPI.cc:271-298 | refines NextAction, with its response code |
| Session.Session.PlayAction | JukeItApp/MusicPlayerAPI.cc:227-258 | refines PlayAction, with its response code |
| Session.Session.ResetPlayer | JukeItApp/MusicPlayerAPI.cc:418-427 | refines ResetPlayer; no cache is left |
| Session.Session.UpdateQueueAction | JukeItApp/MusicPlayerAPI.cc:346-369 | refines UpdateQueueAction, with its response code |
| Session.Session.HandleRequest | JukeItApp/MusicPlayerAPI.cc:136-225 | refines HandleRequest |
| Session.Session.OnRead | JukeItApp/MusicPlayerAPI.cc:41-84 | refines OnRead for every result, payload and environment |
| Session.Serve | JukeItApp/MusicPlayerAPI.cc:41-127 | for every list of events the session in place ends where the state machine does, so that all that holds of runs holds of its fields |
| Playback.StreamInfo.SetVolume | JukeItApp/MusicPlayer.cc:390-394 | values out of range change nothing |
| Playback.VolumeScales | JukeItApp/MusicPlayer.cc:47-77 | an integer sample x becomes y with 100 y at most x times the volume and less than 100 below it, mirrored for negative x; floats go through their own multiplication, other formats are left alone, and full volume changes no byte of an integer |
| Playback.ByteValues | JukeItApp/MusicPlayer.cc:47-77 | what number the bytes of a sample of one, two or four bytes stand for |
| Playback.StreamInfo.NextFrame | JukeItApp/MusicPlayer.cc:129-160 | the retry loop over packets yields the next frame of the stream or the end of the file, and terminates |
| Playback.StreamInfo.FinishFrame | JukeItApp/MusicPlayer.cc:93-126 | the rest of the current frame comes first |
| Playback.StreamInfo.Decode | JukeItApp/MusicPlayer.cc:79-203 | a call consumes exactly the samples it writes, in order, and writes fewer than asked for only at the end of the file |
| Playback.PaCallback | JukeItApp/MusicPlayer.cc:205-234 | completion is reported exactly when the stream could not fill the buffer |
| Playback.Run | JukeItApp/MusicPlayer.cc:79-234 | any sequence of callbacks, with any volume changes in between, gets the stream cut up by their sizes |
| Playback.Lossless | JukeItApp/MusicPlayer.cc:79-203 | at a fixed volume the callbacks together get exactly the first samples of the stream, as many as they asked for or there are |
| Playback.PlanarIsPacked | JukeItApp/MusicPlayer.cc:95-125 | planar and packed frames with the same samples give the same bytes |
| Playback.FramesInOrder | JukeItApp/MusicPlayer.cc:129-203 | the stream of a packet is the points in time of its frames, frame by frame, each from its first to its last |
| Playback.PacketsInOrder | JukeItApp/MusicPlayer.cc:129-203 | the stream of the container is that of its packets, one after the other |
| Playback.ChannelsInOrder | JukeItApp/MusicPlayer.cc:95-125 | the bytes of a point in time are its channels' samples, each after the volume, in order |
| Playback.StepsInOrder | JukeItApp/MusicPlayer.cc:79-203 | the bytes of several points in time follow each other in order |
| Library.AddSongMeaning | JukeItApp/SqliteAPI.cc:597-675 | whichever statements fail: a new path becomes one song that says what the metadata say, as far as its names could be looked up, unless its own INSERT fails; a known path adds no song; no row changes and no other name appears |
| Library.AddTwice | JukeItApp/SqliteAPI.cc:597-675 | adding the same file again, with the same statements failing or none, changes nothing |
| Library.AddKeepsConsistent | JukeItApp/SqliteAPI.cc:605-642 | references stay sound, a song's album an album of its artist, exactly when no album is created for an artist that could not be looked up |
| Library.AddKeepsTidy | JukeItApp/SqliteAPI.cc:597-675 | whichever statements fail: every artist, genre and album keeps a song exactly when each row that is created is looked up and gets the song, and the song is really inserted |
| Library.AddKeepsTidyWithoutFaults | JukeItApp/SqliteAPI.cc:597-675 | when no statement fails: exactly when the path is new or all names are known |
| Library.RemovedTidy | JukeItApp/SqliteAPI.cc:491-595 | from any database a removal takes exactly the listed songs, and then exactly the artists, genres and albums that no song left names; nothing else changes |
| Library.RemovedConsistent | JukeItApp/SqliteAPI.cc:491-595 | a removal leaves no dangling reference in a library that had none |
| Library.CleanUpKeepsAlbumArtists | JukeItApp/SqliteAPI.cc:550-595 | deleting artists before albums is safe exactly when every album with a song has an artist with a song |
| Library.BuiltTidy | JukeItApp/SqliteAPI.cc:491-675 | after every sequence of additions, whatever fails, and removals that ends with a removal, every artist, genre and album has a song |
| Library.BuiltConsistent | JukeItApp/SqliteAPI.cc:491-675 | after every such sequence from the empty database in which no album is orphaned, references are sound and a song's album belongs to the song's artist |
| Library.RemovedMemberships | JukeItApp/SqliteAPI.cc:424-428 | nothing cascades: playlists stay sound exactly when no removed song is in one |
| Library.InheritedMemberships | JukeItApp/SqliteAPI.cc:416-428 | whichever statements fail: a new song is there unless its own INSERT fails, and starts in the playlists of the removed song whose row id it gets |
| Library.ModifiedMeaning | JukeItApp/SqliteAPI.cc:980-1077 | a playlist becomes what it was or is added, without what is removed; the others stay |
| Library.BatchIsOneByOne | JukeItApp/SqliteAPI.cc:692-826 | the batch check equals refreshing song by song, in any order and however often |
| Library.PartialCheck | JukeItApp/SqliteAPI.cc:701-717 | a check that stops reading early equals a full one exactly when the unread songs were marked right |
| Library.CheckedAgain | JukeItApp/SqliteAPI.cc:692-778 | checking twice is checking once, and nothing else about the library is lost |
| Library.ReconciledMeaning | JukeItApp/SqliteAPI.cc:692-778 | a song that was seen is marked exactly when its file does not exist, and the others are as they were |
| Numbers.TryParseInt | JukeItApp/SqliteAPI.cc:1143-1160 | the loop computes the number of a non-empty string of digits and refuses everything else |
| Numbers.ParsesDigits | JukeItApp/SqliteAPI.cc:1143-1160 | a text is a number exactly when it is a non-empty string of digits |
| Numbers.ParsesDecimal | JukeItApp/SqliteAPI.cc:1143-1160 | one more digit makes the number ten times what it was, and that digit |
| Numbers.ParseToString | JukeItApp/SqliteAPI.cc:984-986 | the id printed for the look-up of a playlist is read back |
| SqliteAPI.SqliteAPI.AddSongToDatabase | JukeItApp/SqliteAPI.cc:597-675 | for every choice of failing statements, the seven statements in a row are the addition of the library model |
| SqliteAPI.SqliteAPI.CleanUpAfterRemoval | JukeItApp/SqliteAPI.cc:550-595 | the clean-up is done exactly when all three statements work |
| SqliteAPI.SqliteAPI.RemoveFiles | JukeItApp/SqliteAPI.cc:491-512 | success exactly when no transaction is open, every id is a number and no statement fails; then exactly the songs with a listed number are gone, cleaned up and committed; otherwise what is committed is unchanged, with the state of the open transaction for every way to fail |
| SqliteAPI.SqliteAPI.RemoveFile | JukeItApp/SqliteAPI.cc:514-526 | the same for one song |
| SqliteAPI.SqliteAPI.ReadSongs | JukeItApp/SqliteAPI.cc:696-718 | of the rows the engine delivers, the two lists hold exactly those that are marked wrong |
| SqliteAPI.SqliteAPI.RunFileAvailiabilityCheck | JukeItApp/SqliteAPI.cc:692-778 | success exactly when no transaction is open and no statement that is needed fails; then every row delivered is marked by whether its file exists and nothing else changes; otherwise what is committed is unchanged |
| SqliteAPI.SqliteAPI.RefreshFileAvailability | JukeItApp/SqliteAPI.cc:780-826 | when exactly it succeeds; then the one song is marked and the answer is whether its file exists; otherwise nothing changes |
| SqliteAPI.SqliteAPI.PlaylistExists | JukeItApp/SqliteAPI.cc:981-987 | the page of one row that is asked for tells whether the caller has the playlist |
| SqliteAPI.SqliteAPI.ModifyPlaylistSongs | JukeItApp/SqliteAPI.cc:980-1010 | success exactly when the playlist exists and is the caller's, no transaction is open and no statement that is needed fails; then its members are those before and the added ones without the removed, and no other playlist changes; a missing or foreign playlist is an argument error and changes nothing |
| Paging.SortSorts | JukeItApp/SqliteAPI.cc:41-42 | sorting keeps the rows and puts them in order |
| Paging.FilterSort | JukeItApp/SqliteAPI.cc:34-42 | filtering what is sorted is sorting what is filtered, ties included |
| Paging.PagingIsSlicing | JukeItApp/SqliteAPI.cc:27-42 | every NOT IN page is the slice of the sorted result exactly when no id comes twice in it |
| Paging.PageRows | JukeItApp/SqliteAPI.cc:27-42 | row k of the page that starts at n, counted from one, is row n - 1 + k of the result, as far as the limit and the result go |
| Paging.PagesCover | JukeItApp/SqliteAPI.cc:27-42 | consecutive pages together are the result, with nothing twice and nothing missing |
| Paging.UniqueResult | JukeItApp/SqliteAPI.cc:217-234 | ids are unique exactly when no two different rows with one id meet the condition |
| Queries.OrderIsOrdered | JukeItApp/SqliteAPI.cc:196-216 | the order of each query, by any terms up or down, is total and transitive |
| Queries.TextOrder | JukeItApp/SqliteAPI.cc:41 | texts are ordered by the first character in which they differ, and a text comes before what it begins |
| Queries.ValueOrder | JukeItApp/SqliteAPI.cc:232 | NULL comes before numbers, and numbers by size and before texts |
| Queries.GenresPage | JukeItApp/SqliteAPI.cc:23-78 | genres page as slices for all parameters |
| Queries.ArtistPage | JukeItApp/SqliteAPI.cc:80-132 | artists page as slices for all parameters |
| Queries.NamesFound | JukeItApp/SqliteAPI.cc:30-60 | a numeric id finds that row or nothing; an id that is no number restricts nothing |
| Queries.NamesCondition | JukeItApp/SqliteAPI.cc:30-60 | a row of genres or artists is found exactly when its id is the numeric parameter, if there is one, and its name is like a filter that is not empty |
| Queries.NamesOrder | JukeItApp/SqliteAPI.cc:25-42 | by name, up or down |
| Queries.PlaylistsPage | JukeItApp/SqliteAPI.cc:134-194 | playlists page as slices, and without a user nothing is found |
| Queries.PlaylistsCondition | JukeItApp/SqliteAPI.cc:134-194 | exactly the playlists of the user, with the id, the name and the filter where they are given |
| Queries.PlaylistsOrder | JukeItApp/SqliteAPI.cc:134-150 | by name, up or down |
| Queries.PlaylistLookup | JukeItApp/SqliteAPI.cc:981-987 | the look-up before an edit finds one row exactly when the user has that playlist |
| Queries.AlbumViewPage | JukeItApp/SqliteAPI.cc:284-351 | albums page as slices for all parameters and both orders |
| Queries.AlbumsCondition | JukeItApp/SqliteAPI.cc:284-330 | which id, artist and filter select which albums |
| Queries.AlbumsOrder | JukeItApp/SqliteAPI.cc:285-305 | by name alone if that is asked for, up or down; otherwise by artist, those without one first, and within an artist by name, up or down |
| Queries.DescendingAlbums | JukeItApp/SqliteAPI.cc:285-305 | descending applies to the name within an artist, while artists stay ascending |
| Queries.WhenDescending | JukeItApp/SqliteAPI.cc:285-305 | unless sorted by name alone, a descending list has descending artists exactly when all albums that meet the condition have the same artist |
| Queries.PlaylistSongsFound | JukeItApp/SqliteAPI.cc:219-258 | asking for a playlist finds exactly its songs that meet the other conditions |
| Queries.SongsCondition | JukeItApp/SqliteAPI.cc:217-270 | which id, artist, album, genre, playlist and filter select which songs |
| Queries.SongColumns | JukeItApp/SqliteAPI.cc:431-435 | a row holds the song, and the names of the artist, album and genre it names, if they are there |
| Queries.SongsOrder | JukeItApp/SqliteAPI.cc:196-232 | by the column that is asked for, or by id, up or down |
| Queries.SongViewPage | JukeItApp/SqliteAPI.cc:196-282 | songs page as slices exactly when a playlist is asked for or no song found is in two |
| FileLists.JoinSplit | JukeItApp/SqliteAPI.cc:468-487 | joining what splitting gave is the text |
| FileLists.SplitJoin | JukeItApp/SqliteAPI.cc:468-487 | splitting a list of bar-free names gives the names back |
| FileLists.EnsureFilesExist | JukeItApp/tinyfiledialogs.c:795-838 | in place, with any destination at or before the source, the destination gets exactly the existing names in order; the exact result also when none exists |
| FileLists.StaysInside | JukeItApp/tinyfiledialogs.c:795-838 | what lies before the destination survives exactly when some file exists or the byte before it was NUL |
| FileLists.PackSelection | JukeItApp/tinyfiledialogs.c:2181-2213 | backward packing with overlapping moves yields the full paths in order and touches nothing outside the buffer |
| FileLists.CheckSelection | JukeItApp/tinyfiledialogs.c:3052-3065 | what the dialog returns for an empty, a single and a multiple selection |
| FileLists.StoredMeaning | JukeItApp/SqliteAPI.cc:468-487 | stored are the readable ones of all names but the last, in order, and the last unless it is empty |
| FileLists.StoredReadable | JukeItApp/SqliteAPI.cc:468-487 | all that is stored can be read exactly when the last name is empty or can be read |
| FileLists.StoredAll | JukeItApp/SqliteAPI.cc:468-487 | all names are stored exactly when all but the last can be read and the last is not empty |
| FileLists.ExistingAll | JukeItApp/tinyfiledialogs.c:795-838 | all names are kept exactly when all files exist, and every name kept is one of an existing file |
| FileLists.TakeApart | JukeItApp/SqliteAPI.cc:468-487 | the loop over the buffer stores the readable names and, unasked, the last one; it gives back exactly the list under the condition of StoredAll, and only readable names under that of StoredReadable |
| FileLists.AddedAll | JukeItApp/SqliteAPI.cc:455-489 | a selection is stored as it is exactly when every file exists and all but the last can be read; only existing files are stored exactly when there is one |
| FileLists.AddedMeaning | JukeItApp/SqliteAPI.cc:455-489 | stored are the readable ones of all existing files but the last, and the last in any case; the last path but one when no file exists |
| FileLists.KeptInOrder | JukeItApp/tinyfiledialogs.c:795-838 | names are kept one by one, in their order: a name that is not empty and whose file exists |
| FileLists.ListText | JukeItApp/tinyfiledialogs.c:2181-2213 | the list of a selection: each name behind the directory and a backslash, with bars between them |
| FileLists.AddSelection | JukeItApp/SqliteAPI.cc:455-489 | packing, compaction and the splitter together: from the selection in the buffer the full paths are stored as they are exactly when every file exists and all but the last can be read, and only existing files exactly when there is one |
| CStrings.MemStrChr | JukeItApp/tinyfiledialogs.c:795-838 | the search ends at the first such character or at the end of the string |
| CStrings.MemMove | JukeItApp/tinyfiledialogs.c:795-838 | the bytes arrive as they were, also when source and destination overlap |
| Params.GetParams | JukeItApp/abstract_message_handler.cc:45-102 | the one-pass loop computes what reading tokens, keys and values in two stages gives |
| Params.FirstWinsMeaning | JukeItApp/abstract_message_handler.cc:83-98 | each key has the value of its first pair, and there are no other keys |
| Params.LexWritten | JukeItApp/abstract_message_handler.cc:58-69 | what is written with a backslash is read back as that character, whatever it is, and a mark that is not escaped as a mark |
| Params.ParsesText | JukeItApp/abstract_message_handler.cc:45-102 | whatever is escaped, and however many marks stand where they mean nothing, the pairs are those of the entries; a key without '=' and a backslash at the end give nothing, nor does a command without '?' |
| Params.EveryText | JukeItApp/abstract_message_handler.cc:45-102 | every text is of that kind, so that this says what any command gives |
| Params.RoundTrip | JukeItApp/abstract_message_handler.cc:45-102 | printing any pairs after a prefix without a question mark and parsing them gives back the first value of every key |
| Witnesses.PendingHeadDropped | JukeItApp/SongCache.cpp:75-79 | a run in which the first song is dropped for a second one that is ready |
| Witnesses.MalformedRequestEndsStreak | JukeItApp/MusicPlayerAPI.cc:214-224 | a run in which a malformed request ends a streak of two |
| Witnesses.SongNobodyAskedFor | JukeItApp/MusicPlayerAPI.cc:346-427 | a session that waits, is reset and started again, and opens a song with the next queue |
| Witnesses.TwoMissingFiles | JukeItApp/tinyfiledialogs.c:795-838 | a list of two missing files, before which a byte is lost |
| Witnesses.MissingFileStored | JukeItApp/SqliteAPI.cc:468-487 | a selection of missing files of which one is stored, and one of unreadable files of which the last is |
| Witnesses.OrphanedAlbum | JukeItApp/SqliteAPI.cc:605-641 | an addition to the empty library that leaves an album without an artist |
| Witnesses.UntidyAdd | JukeItApp/SqliteAPI.cc:597-675 | a known file under a new artist, who has no song |
| Witnesses.UntidyFault | JukeItApp/SqliteAPI.cc:597-675 | a new file whose INSERT fails and whose artist has no song |
| Witnesses.InheritedMembership | JukeItApp/SqliteAPI.cc:416-428 | a new song in the playlist of the removed one |
| Witnesses.UnreadSong | JukeItApp/SqliteAPI.cc:701-717 | a check that ends early and leaves a song marked wrong |
| Witnesses.SongInTwoPlaylists | JukeItApp/SqliteAPI.cc:219-232 | a song in two playlists whose second row is on no second page |
| Witnesses.AscendingArtists | JukeItApp/SqliteAPI.cc:285-305 | a descending list of two albums with ascending artists |

## Left out

- Thread races: every handler, completion and callback is one atomic step; PortAudio's callback into the session is a step of its own, and so is its status callback, at any time.
- Sockets and the web socket handshake, the listener and the API object; closing by the listener is the same step as a close by the client.
- The end of downloads that a session's earlier cache had started: they hold on to items nobody looks at any more.
- Session.Session.OnRead: the JSON parser and the serialised form of messages are not modelled, nor numbers other than integers; a payload is any parsed value or none.
- SessionLaws.VolumeTrace: a volume that is no integer, which the code cuts to 32 bits, is not modelled.
- Playback.StreamInfo.NextFrame: decoder errors other than EAGAIN and end of file are not modelled.
- Playback.StreamInfo.Decode: decoder errors other than EAGAIN and end of file, when the status callback is called, and an uninitialised nextDataIndex are not modelled; a frame is current only while its packet is not empty.
- Playback.VolumeScales: float samples are scaled by an arbitrary function, because rounding is not the point; the volume is a whole percentage of which the exact product is taken, while a product of doubles just below a whole number is cut to one less.
- MusicPlayer: opening a stream is one step that may fail; what it leaves allocated then is not modelled.
- FileLists.EnsureFilesExist: a destination behind the source, which its comment allows, is not covered; both callers pass one at or before the source.
- FileLists.PackSelection: at most 31 names whose packed form fits the buffer, as the code itself does not check.
- Numbers.TryParseInt: numbers are unbounded; what the code does beyond 31 bits is not modelled.
- SqliteAPI.SqliteAPI.AddSongToDatabase: metadata are given, and a text ends where it ends; NUL characters inside are not modelled.
- Queries: LIKE is a parameter, texts compare character by character, and a NULL column is not turned into an empty text or zero in the result.
- GetSongPath, GetNotFoundFiles, AddPlaylist, ModifyPlaylist and RemovePlaylist: single statements that would add only easy members.
- REST routing, message handlers, configuration, the embedded browser, and the dialogs of tinyfiledialogs other than the list code: thin dispatch, glue or shell commands.
