/** The operations of SqliteAPI.cc that change the library, statement by statement. How the engine
    answers each statement is an input; a statement that fails changes nothing. BEGIN fails while a
    transaction is open, COMMIT and ROLLBACK fail while none is. Library says what the operations do
    when they succeed. */
module SqliteAPI {
  import opened Wrappers
  import opened Sequences
  import opened Library
  import opened Numbers
  import opened Paging
  import Q = Queries

  datatype ErrorCode = OK | MALFORMED_SQL | DATABASE_ERROR | ARGUMENT_ERROR | DUPLICATE_ENTRY | NOT_FOUND

  function ParsedIds(songIds: seq<string>): set<int> {
    set i | 0 <= i < |songIds| && ParseInt(songIds[i]).Some? :: ParseInt(songIds[i]).value
  }

  // ---------------------------------------------------------------------------------------------
  // The engine

  /** The statements of the operations; DeleteSong is numbered. */
  datatype Statement =
    | Begin | Commit | Rollback
    | DeleteSong(index: nat) | DeleteArtists | DeleteGenres | DeleteAlbums
    | SelectSongs | MarkFound | MarkNotFound | SelectSong | MarkSong
    | SelectPlaylist | InsertSongs | DeleteSongs

  datatype Answer = Done | NotPrepared | Failed

  /** How the engine answers the statements of one operation. */
  type Engine = Statement -> Answer

  function Code(a: Answer): ErrorCode {
    match a
    case Done => OK
    case NotPrepared => MALFORMED_SQL
    case Failed => DATABASE_ERROR
  }

  predicate CleansUp(engine: Engine) {
    engine(DeleteArtists) == Done && engine(DeleteGenres) == Done && engine(DeleteAlbums) == Done
  }

  /** Everything before the commit of a removal works. */
  predicate Removes(remove: seq<string>, engine: Engine) {
    && engine(Begin) == Done
    && (forall i :: 0 <= i < |remove| ==> ParseInt(remove[i]).Some? && engine(DeleteSong(i)) == Done)
    && CleansUp(engine)
  }

  /** Some song that was read is marked `notFound` wrongly. */
  predicate HasWrong(db: Db, rows: seq<int>, onDisk: string -> bool, notFound: bool) {
    exists i :: i in rows && i in db.song && db.song[i].notFound == notFound && onDisk(db.song[i].path) == notFound
  }

  /** What ModifyPlaylistSongs answers. */
  function EditCode(db: Db, open: bool, playlistId: nat, userId: string, add: seq<int>, remove: seq<int>,
                    engine: Engine): ErrorCode {
    if !(engine(SelectPlaylist) == Done && playlistId in db.playlist && db.playlist[playlistId].userId == userId) then
      ARGUMENT_ERROR
    else if open || engine(Begin) != Done then DATABASE_ERROR
    else if add != [] && engine(InsertSongs) != Done then Code(engine(InsertSongs))
    else if remove != [] && engine(DeleteSongs) != Done then Code(engine(DeleteSongs))
    else Code(engine(Commit))
  }

  // ---------------------------------------------------------------------------------------------
  // The connection

  class SqliteAPI {
    /** What this connection sees, and, while a transaction is open, what it saw when that began. */
    var db: Db
    var saved: Option<Db>

    predicate Valid()
      reads this
    {
      WellFormed(db) && (saved.Some? ==> WellFormed(saved.value))
    }

    /** What every other connection sees, and this one after a rollback. */
    function Committed(): Db
      reads this
    {
      if saved.Some? then saved.value else db
    }

    constructor ()
      ensures Valid() && db == EMPTY && saved == None
    {
      db, saved := EMPTY, None;
    }

    method BeginTransaction(engine: Engine) returns (rtc: ErrorCode)
      modifies this`saved
      ensures rtc == if engine(Begin) == Done && old(saved).Some? then DATABASE_ERROR else Code(engine(Begin))
      ensures saved == if rtc == OK then Some(db) else old(saved)
    {
      rtc := Code(engine(Begin));
      if saved.Some? && rtc == OK {
        rtc := DATABASE_ERROR;
      }
      if rtc == OK {
        saved := Some(db);
      }
    }

    method CommitTransaction(engine: Engine) returns (rtc: ErrorCode)
      modifies this`saved
      ensures rtc == if engine(Commit) == Done && old(saved) == None then DATABASE_ERROR else Code(engine(Commit))
      ensures saved == if rtc == OK then None else old(saved)
    {
      rtc := Code(engine(Commit));
      if saved == None && rtc == OK {
        rtc := DATABASE_ERROR;
      }
      if rtc == OK {
        saved := None;
      }
    }

    method RollbackTransaction(engine: Engine) returns (rtc: ErrorCode)
      modifies this
      ensures rtc == if engine(Rollback) == Done && old(saved) == None then DATABASE_ERROR else Code(engine(Rollback))
      ensures if rtc == OK then db == old(saved).value && saved == None else db == old(db) && saved == old(saved)
      ensures Committed() == old(Committed())
    {
      rtc := Code(engine(Rollback));
      if saved == None && rtc == OK {
        rtc := DATABASE_ERROR;
      }
      if rtc == OK {
        db := saved.value;
        saved := None;
      }
    }

    /** Commit or roll back. */
    method EndTransaction(isOk: bool, engine: Engine) returns (ok: bool)
      requires Valid()
      modifies this
      ensures Valid()
      ensures ok <==> isOk && old(saved).Some? && engine(Commit) == Done
      ensures isOk ==> db == old(db) && saved == if ok then None else old(saved)
      ensures !isOk && engine(Rollback) == Done ==> saved == None && db == old(Committed())
      ensures !ok ==> Committed() == old(Committed())
    {
      ok := isOk;
      if isOk {
        var rtc := CommitTransaction(engine);
        ok := rtc == OK;
      } else {
        var rtc := RollbackTransaction(engine);
      }
    }

    // -------------------------------------------------------------------------------------------
    // Adding

    method InsertArtist(name: string, fault: bool)
      requires Valid()
      modifies this`db
      ensures Valid() && db == if fault then old(db) else old(db).(artist := Insert(old(db).artist, name))
    {
      if !fault {
        db := db.(artist := Insert(db.artist, name));
      }
    }

    method SelectArtist(name: string, fault: bool) returns (id: int)
      requires Valid()
      ensures id == Fetched(Lookup(db.artist, name), fault)
    {
      id := Fetched(Lookup(db.artist, name), fault);
    }

    method InsertAlbum(artistId: int, name: string, fault: bool)
      requires Valid()
      modifies this`db
      ensures Valid() && db == if fault then old(db) else old(db).(album := Insert(old(db).album, Album(name, artistId)))
    {
      if !fault {
        db := db.(album := Insert(db.album, Album(name, artistId)));
      }
    }

    method SelectAlbum(name: string, artistId: int, fault: bool) returns (id: int)
      requires Valid()
      ensures id == Fetched(Lookup(db.album, Album(name, artistId)), fault)
    {
      id := Fetched(Lookup(db.album, Album(name, artistId)), fault);
    }

    method InsertGenre(name: string, fault: bool)
      requires Valid()
      modifies this`db
      ensures Valid() && db == if fault then old(db) else old(db).(genre := Insert(old(db).genre, name))
    {
      if !fault {
        db := db.(genre := Insert(db.genre, name));
      }
    }

    method SelectGenre(name: string, fault: bool) returns (id: int)
      requires Valid()
      ensures id == Fetched(Lookup(db.genre, name), fault)
    {
      id := Fetched(Lookup(db.genre, name), fault);
    }

    method InsertSongRow(s: Song, fault: bool)
      requires Valid()
      modifies this`db
      ensures Valid() && db == if fault then old(db) else old(db).(song := InsertSong(old(db).song, s))
    {
      if !fault {
        db := db.(song := InsertSong(db.song, s));
      }
    }

    /** The artist and the album. */
    method AddArtistAndAlbum(metadata: Metadata, f: Faults) returns (artistId: int, albumId: int)
      requires Valid()
      modifies this`db
      ensures Valid() && (db, artistId, albumId) == Library.AddArtistAndAlbum(old(db), metadata, f)
    {
      hide WellFormed, Insert, Lookup;
      artistId, albumId := -1, -1;
      if |metadata.artist| > 0 {
        InsertArtist(metadata.artist, f.artist);
        artistId := SelectArtist(metadata.artist, f.artistId);
        if |metadata.album| > 0 {
          InsertAlbum(artistId, metadata.album, f.album);
          albumId := SelectAlbum(metadata.album, artistId, f.albumId);
        }
      }
    }

    method AddGenre(metadata: Metadata, f: Faults) returns (genreId: int)
      requires Valid()
      modifies this`db
      ensures Valid()
      ensures (db, genreId) == if metadata.genre != "" then Library.AddGenre(old(db), metadata.genre, f) else (old(db), -1)
    {
      hide WellFormed, Insert, Lookup;
      genreId := -1;
      if |metadata.genre| > 0 {
        InsertGenre(metadata.genre, f.genre);
        genreId := SelectGenre(metadata.genre, f.genreId);
      }
    }

    /** Nothing is checked but the ids that the statements leave behind. `f` says which of them fail. */
    method AddSongToDatabase(filename: Option<string>, metadata: Metadata, f: Faults)
      requires Valid()
      modifies this`db
      ensures Valid()
      ensures db == if filename == None then old(db) else AddSong(old(db), filename.value, metadata, f)
    {
      hide WellFormed, Insert, Lookup, InsertSong, Library.AddArtistAndAlbum, Library.AddGenre, Bound;
      if filename.Some? {
        var artistId, albumId := AddArtistAndAlbum(metadata, f);
        var genreId := AddGenre(metadata, f);
        InsertSongRow(Song(metadata.title, Bound(artistId), Bound(albumId), Bound(genreId),
                           metadata.duration, filename.value, false), f.song);
      }
    }

    // -------------------------------------------------------------------------------------------
    // Removing

    method RemoveSong(songId: string, answer: Answer) returns (result: bool)
      requires Valid()
      modifies this`db
      ensures Valid()
      ensures result <==> ParseInt(songId).Some? && answer == Done
      ensures db == if result then WithoutSongs(old(db), {ParseInt(songId).value}) else old(db)
    {
      var id := TryParseInt(songId);
      if id.Some? {
        if answer == Done {
          db := db.(song := db.song - {id.value});
          return true;
        }
        return false;
      }
      return false;
    }

    /** Statement by statement; a statement that fails leaves what the ones before it did. */
    method CleanUpAfterRemoval(engine: Engine) returns (isOk: bool)
      requires Valid()
      modifies this`db
      ensures Valid() && (isOk <==> CleansUp(engine)) && (isOk ==> db == CleanUp(old(db)))
    {
      hide HasArtist, HasGenre, HasAlbum;
      isOk := false;
      if engine(DeleteArtists) == Done {
        db := CleanArtists(db);
        isOk := true;
      }
      if isOk {
        isOk := false;
        if engine(DeleteGenres) == Done {
          db := CleanGenres(db);
          isOk := true;
        }
      }
      if isOk {
        isOk := false;
        if engine(DeleteAlbums) == Done {
          db := CleanAlbums(db);
          isOk := true;
        }
      }
    }

    /** The loop of RemoveFiles. */
    method RemoveSongs(remove: seq<string>, engine: Engine) returns (isOk: bool)
      requires Valid()
      modifies this`db
      ensures Valid()
      ensures isOk <==> forall i :: 0 <= i < |remove| ==> ParseInt(remove[i]).Some? && engine(DeleteSong(i)) == Done
      ensures isOk ==> db == WithoutSongs(old(db), ParsedIds(remove))
    {
      hide WellFormed, ParseInt;
      isOk := true;
      var i := 0;
      ghost var ids: set<int> := {};
      assert db.song - {} == db.song;
      while i < |remove|
        invariant 0 <= i <= |remove| && Valid() && isOk
        invariant db == WithoutSongs(old(db), ids) && ids == ParsedIds(remove[..i])
        invariant forall j :: 0 <= j < i ==> ParseInt(remove[j]).Some? && engine(DeleteSong(j)) == Done
      {
        isOk := RemoveSong(remove[i], engine(DeleteSong(i)));
        if !isOk {
          return;
        }
        OneMoreId(remove, i);
        assert old(db).song - ids - {ParseInt(remove[i]).value} == old(db).song - (ids + {ParseInt(remove[i]).value});
        ids := ids + {ParseInt(remove[i]).value};
        i := i + 1;
      }
      assert remove[..i] == remove;
    }

    /** A removal succeeds exactly when no transaction is open, every id is a number and no statement
        fails; then exactly the songs listed are gone, cleaned up and committed. Otherwise what is
        committed is unchanged; if the commit itself fails, the transaction stays open with the songs
        removed, and in any other case a rollback that works leaves nothing open. */
    method RemoveFiles(remove: seq<string>, engine: Engine) returns (isOk: bool)
      requires Valid()
      modifies this
      ensures Valid()
      ensures isOk <==>
                && old(saved) == None && engine(Begin) == Done && engine(Commit) == Done
                && (forall i :: 0 <= i < |remove| ==> ParseInt(remove[i]).Some? && engine(DeleteSong(i)) == Done)
                && engine(DeleteArtists) == Done && engine(DeleteGenres) == Done && engine(DeleteAlbums) == Done
      ensures isOk ==>
                && saved == None && db == Removed(old(db), ParsedIds(remove))
                && forall k :: k in db.song <==>
                     k in old(db).song && forall j :: 0 <= j < |remove| ==> ParseInt(remove[j]) != Some(k)
      ensures !isOk ==> Committed() == old(Committed())
      ensures !isOk && old(saved) == None && Removes(remove, engine) ==>
                saved == Some(old(db)) && db == Removed(old(db), ParsedIds(remove))
      ensures !(old(saved) == None && Removes(remove, engine)) && engine(Rollback) == Done ==>
                saved == None && db == old(Committed())
    {
      hide WellFormed, CleanUp, ParseInt, ParsedIds;
      var rtc := BeginTransaction(engine);
      isOk := rtc == OK;
      if isOk {
        isOk := RemoveSongs(remove, engine);
      }
      if isOk {
        isOk := CleanUpAfterRemoval(engine);
      }
      isOk := EndTransaction(isOk, engine);
      RemovedSongs(old(db), remove);
    }

    method RemoveFile(songId: string, engine: Engine) returns (isOk: bool)
      requires Valid()
      modifies this
      ensures Valid()
      ensures isOk <==>
                && old(saved) == None && engine(Begin) == Done && engine(Commit) == Done
                && ParseInt(songId).Some? && engine(DeleteSong(0)) == Done
                && engine(DeleteArtists) == Done && engine(DeleteGenres) == Done && engine(DeleteAlbums) == Done
      ensures isOk ==> ParseInt(songId).Some? && saved == None && db == Removed(old(db), {ParseInt(songId).value})
      ensures !isOk ==> Committed() == old(Committed())
      ensures !isOk && old(saved) == None && Removes([songId], engine) ==>
                ParseInt(songId).Some? && saved == Some(old(db)) && db == Removed(old(db), {ParseInt(songId).value})
      ensures !(old(saved) == None && Removes([songId], engine)) && engine(Rollback) == Done ==>
                saved == None && db == old(Committed())
    {
      hide WellFormed, CleanUp, ParseInt;
      assert [songId][0] == songId;
      var rtc := BeginTransaction(engine);
      isOk := rtc == OK;
      if isOk {
        isOk := RemoveSong(songId, engine(DeleteSong(0)));
      }
      if isOk {
        isOk := CleanUpAfterRemoval(engine);
      }
      isOk := EndTransaction(isOk, engine);
    }

    // -------------------------------------------------------------------------------------------
    // Availability

    /** `rows` are the songs that the engine delivers before reading ends. */
    method ReadSongs(rows: seq<int>, onDisk: string -> bool) returns (foundSongs: seq<int>, notFoundSongs: seq<int>)
      requires forall j :: 0 <= j < |rows| ==> rows[j] in db.song
      ensures MarkedWrong(db, Elements(rows), foundSongs, notFoundSongs, onDisk)
      ensures foundSongs != [] <==> HasWrong(db, rows, onDisk, true)
      ensures notFoundSongs != [] <==> HasWrong(db, rows, onDisk, false)
    {
      foundSongs, notFoundSongs := [], [];
      var k := 0;
      while k < |rows|
        invariant 0 <= k <= |rows|
        invariant MarkedWrong(db, Elements(rows[..k]), foundSongs, notFoundSongs, onDisk)
      {
        var id := rows[k];
        var path, notFound := db.song[id].path, db.song[id].notFound;
        var there := onDisk(path);
        if !there && !notFound {
          notFoundSongs := notFoundSongs + [id];
        } else if there && notFound {
          foundSongs := foundSongs + [id];
        }
        OneMoreElement(rows, k);
        k := k + 1;
      }
      assert rows[..k] == rows;
      ListsEmpty(db, rows, foundSongs, notFoundSongs, onDisk);
    }

    /** A check succeeds exactly when its first statement can be prepared, no transaction is open and no
        statement that is needed fails. Then every song that was delivered is marked by whether its file
        exists; when reading ends early, the others are left as they are. Otherwise what is committed is
        unchanged. */
    method RunFileAvailiabilityCheck(rows: seq<int>, onDisk: string -> bool, engine: Engine) returns (isOk: bool)
      requires Valid() && forall j :: 0 <= j < |rows| ==> rows[j] in db.song
      modifies this
      ensures Valid()
      ensures isOk <==>
                && engine(SelectSongs) != NotPrepared && old(saved) == None && engine(Begin) == Done && engine(Commit) == Done
                && ((exists i :: i in rows && old(db).song[i].notFound && onDisk(old(db).song[i].path)) ==>
                      engine(MarkFound) == Done)
                && ((exists i :: i in rows && !old(db).song[i].notFound && !onDisk(old(db).song[i].path)) ==>
                      engine(MarkNotFound) == Done)
      ensures isOk ==>
                && saved == None && db == Reconciled(old(db), Elements(rows), onDisk)
                && db == old(db).(song := db.song) && db.song.Keys == old(db).song.Keys
                && forall i :: i in old(db).song ==>
                     db.song[i] == if i in rows then old(db).song[i].(notFound := !onDisk(old(db).song[i].path))
                                   else old(db).song[i]
      ensures !isOk ==> Committed() == old(Committed())
    {
      hide WellFormed, Marked, Reconciled, MarkedWrong, Elements;
      ReconciledRows(db, rows, onDisk);
      if engine(SelectSongs) == NotPrepared {
        return false;
      }
      var foundSongs, notFoundSongs := ReadSongs(rows, onDisk);
      MarkedIsReconciled(db, Elements(rows), foundSongs, notFoundSongs, onDisk);
      var rtc := BeginTransaction(engine);
      isOk := rtc == OK;
      if isOk && |foundSongs| > 0 {
        isOk := UpdateNotFound(foundSongs, false, engine(MarkFound));
      }
      if isOk && |notFoundSongs| > 0 {
        isOk := UpdateNotFound(notFoundSongs, true, engine(MarkNotFound));
      }
      isOk := EndTransaction(isOk, engine);
    }

    method UpdateNotFound(songs: seq<int>, notFound: bool, answer: Answer) returns (ok: bool)
      requires Valid()
      modifies this`db
      ensures Valid() && (ok <==> answer == Done)
      ensures db == if ok then Marked(old(db), Elements(songs), notFound) else old(db)
    {
      ok := answer == Done;
      if ok {
        db := Marked(db, Elements(songs), notFound);
      }
    }

    /** `known` is what `available` holds before the call. */
    method RefreshFileAvailability(songId: string, known: bool, onDisk: string -> bool, engine: Engine)
      returns (isOk: bool, available: bool)
      requires Valid()
      modifies this`db
      ensures Valid()
      ensures var id := ParseInt(songId);
              isOk <==> id.Some? && engine(SelectSong) == Done && id.value in old(db).song &&
                        (engine(MarkSong) == Done ||
                         old(db).song[id.value].notFound == !onDisk(old(db).song[id.value].path))
      ensures isOk ==>
                && db == Refreshed(old(db), ParseInt(songId).value, onDisk)
                && db == old(db).(song := old(db).song[ParseInt(songId).value := db.song[ParseInt(songId).value]])
                && db.song[ParseInt(songId).value] ==
                   old(db).song[ParseInt(songId).value].(notFound := !onDisk(old(db).song[ParseInt(songId).value].path))
                && available == onDisk(old(db).song[ParseInt(songId).value].path)
      ensures !isOk ==> db == old(db)
    {
      hide ParseInt, WellFormed;
      available := known;
      var id := TryParseInt(songId);
      if id == None {
        return false, available;
      }
      if engine(SelectSong) == Done && id.value in db.song {
        var path := db.song[id.value].path;
        available := !db.song[id.value].notFound;
        var there := onDisk(path);
        if (!there && available) || (there && !available) {
          if engine(MarkSong) == Done {
            db := db.(song := db.song[id.value := db.song[id.value].(notFound := !there)]);
            RefreshedWellFormed(old(db), id.value, onDisk);
            return true, there;
          }
          return false, available;
        } else {
          assert db.song[id.value := db.song[id.value].(notFound := !there)] == db.song;
          return true, available;
        }
      }
      return false, available;
    }

    // -------------------------------------------------------------------------------------------
    // Playlists

    /** The playlists in some order, each once. */
    method ScanPlaylists() returns (scan: seq<int>)
      ensures Q.Scans(scan, db.playlist)
    {
      scan := [];
      var rest := db.playlist.Keys;
      while rest != {}
        invariant rest <= db.playlist.Keys && NoDuplicates(scan)
        invariant forall j :: 0 <= j < |scan| ==> scan[j] in db.playlist && scan[j] !in rest
        invariant forall i :: i in db.playlist && i !in rest ==> i in scan
      {
        ghost var one := Member(rest);
        var id :| id in rest;
        scan := scan + [id];
        rest := rest - {id};
      }
    }

    /** One page of one row of the user's playlists with this id. */
    method PlaylistExists(playlistId: nat, userId: string, engine: Engine) returns (found: bool)
      ensures found <==> engine(SelectPlaylist) == Done && playlistId in db.playlist && db.playlist[playlistId].userId == userId
    {
      var params := map["userId" := userId, "id" := ToString(playlistId)];
      var scan := ScanPlaylists();
      Q.PlaylistLookup(db, scan, playlistId, userId, (text, filter) => true);
      var playlist := Page(Q.PlaylistsQuery(db, scan, params, false, (text, filter) => true), 1, 1);
      return engine(SelectPlaylist) == Done && |playlist| == 1;
    }

    /** The user's own playlist is changed as a whole, or what is committed is not changed at all. */
    method ModifyPlaylistSongs(playlistId: nat, userId: string, add: seq<int>, remove: seq<int>, engine: Engine)
      returns (rtc: ErrorCode)
      requires Valid()
      modifies this
      ensures Valid()
      ensures rtc == EditCode(old(db), old(saved).Some?, playlistId, userId, add, remove, engine)
      ensures rtc == OK <==>
                && playlistId in old(db).playlist && old(db).playlist[playlistId].userId == userId && old(saved) == None
                && engine(SelectPlaylist) == Done && engine(Begin) == Done
                && (add != [] ==> engine(InsertSongs) == Done) && (remove != [] ==> engine(DeleteSongs) == Done)
                && engine(Commit) == Done
      ensures rtc == OK ==>
                && saved == None && db == old(db).(playlistSong := db.playlistSong)
                && forall i, q :: (i, q) in db.playlistSong <==>
                     if q == playlistId then ((i, q) in old(db).playlistSong || i in add) && i !in remove
                     else (i, q) in old(db).playlistSong
      ensures rtc != OK ==> Committed() == old(Committed())
      ensures !(playlistId in old(db).playlist && old(db).playlist[playlistId].userId == userId) ==>
                rtc == ARGUMENT_ERROR && db == old(db) && saved == old(saved)
      ensures old(saved).Some? ==> rtc != OK && db == old(db) && saved == old(saved)
    {
      hide WellFormed, Modified;
      var found := PlaylistExists(playlistId, userId, engine);
      if found {
        rtc := BeginTransaction(engine);
        if rtc == OK {
          rtc := ChangeSongs(playlistId, add, remove, engine);
          if rtc == OK {
            MembersAre(old(db).playlistSong, playlistId, add, remove);
            rtc := CommitTransaction(engine);
            return rtc;
          } else {
            var ignored := RollbackTransaction(engine);
            return rtc;
          }
        } else {
          return DATABASE_ERROR;
        }
      }
      return ARGUMENT_ERROR;
    }

    /** Additions first, then removals. */
    method ChangeSongs(playlistId: int, add: seq<int>, remove: seq<int>, engine: Engine) returns (rtc: ErrorCode)
      requires Valid()
      modifies this`db
      ensures Valid()
      ensures rtc == if add != [] && engine(InsertSongs) != Done then Code(engine(InsertSongs))
                     else if remove != [] then Code(engine(DeleteSongs))
                     else OK
      ensures rtc == OK ==>
                db == old(db).(playlistSong := Modified(old(db).playlistSong, playlistId, Elements(add), Elements(remove)))
    {
      hide WellFormed, Modified, Elements;
      NothingModified(db.playlistSong, playlistId);
      rtc := OK;
      if |add| > 0 {
        rtc := AddSongsToPlaylist(playlistId, add, engine(InsertSongs));
      }
      if rtc == OK && |remove| > 0 {
        rtc := RemoveSongsFromPlaylist(playlistId, remove, engine(DeleteSongs));
      }
      if rtc == OK {
        AddedAndRemoved(old(db).playlistSong, playlistId, add, remove);
      }
    }

    method AddSongsToPlaylist(playlistId: int, add: seq<int>, answer: Answer) returns (rtc: ErrorCode)
      requires Valid()
      modifies this`db
      ensures Valid() && rtc == Code(answer)
      ensures db == if rtc == OK then old(db).(playlistSong := Modified(old(db).playlistSong, playlistId, Elements(add), {}))
                    else old(db)
    {
      var values: set<(int, int)> := {};
      var i := 0;
      while i < |add|
        invariant 0 <= i <= |add| && values == set j | 0 <= j < i :: (add[j], playlistId)
      {
        values := values + {(add[i], playlistId)};
        i := i + 1;
      }
      rtc := Code(answer);
      if rtc == OK {
        db := db.(playlistSong := db.playlistSong + values);
        Values(old(db).playlistSong, playlistId, add);
      }
    }

    method RemoveSongsFromPlaylist(playlistId: int, remove: seq<int>, answer: Answer) returns (rtc: ErrorCode)
      requires Valid()
      modifies this`db
      ensures Valid() && rtc == Code(answer)
      ensures db == if rtc == OK then old(db).(playlistSong := Modified(old(db).playlistSong, playlistId, {}, Elements(remove)))
                    else old(db)
    {
      var songIds: set<int> := {};
      var i := 0;
      while i < |remove|
        invariant 0 <= i <= |remove| && songIds == set j | 0 <= j < i :: remove[j]
      {
        songIds := songIds + {remove[i]};
        i := i + 1;
      }
      rtc := Code(answer);
      if rtc == OK {
        db := db.(playlistSong := set x | x in db.playlistSong && !(x.1 == playlistId && x.0 in songIds));
        Withdrawn(old(db).playlistSong, playlistId, remove);
        assert songIds == Elements(remove);
      }
    }
  }

  lemma MembersAre(playlistSong: set<(int, int)>, p: int, add: seq<int>, remove: seq<int>)
    ensures forall i, q :: (i, q) in Modified(playlistSong, p, Elements(add), Elements(remove)) <==>
              if q == p then ((i, q) in playlistSong || i in add) && i !in remove else (i, q) in playlistSong
  {
    forall i, q
      ensures (i, q) in Modified(playlistSong, p, Elements(add), Elements(remove)) <==>
              if q == p then ((i, q) in playlistSong || i in add) && i !in remove else (i, q) in playlistSong
    {
      ModifiedMeaning(playlistSong, p, Elements(add), Elements(remove), i, q);
    }
  }

  /** Which songs a removal takes. */
  lemma RemovedSongs(db: Db, remove: seq<string>)
    ensures var r := Removed(db, ParsedIds(remove));
            forall k :: k in r.song <==> k in db.song && forall j :: 0 <= j < |remove| ==> ParseInt(remove[j]) != Some(k)
  {
    hide ParseInt;
    RemovedTidy(db, ParsedIds(remove));
  }

  lemma OneMoreElement(rows: seq<int>, k: nat)
    requires k < |rows|
    ensures Elements(rows[..k + 1]) == Elements(rows[..k]) + {rows[k]}
  {
    assert rows[..k + 1] == rows[..k] + [rows[k]];
  }

  lemma ListsEmpty(db: Db, rows: seq<int>, found: seq<int>, notFound: seq<int>, onDisk: string -> bool)
    requires MarkedWrong(db, Elements(rows), found, notFound, onDisk)
    ensures found != [] <==> HasWrong(db, rows, onDisk, true)
    ensures notFound != [] <==> HasWrong(db, rows, onDisk, false)
  {
    hide Elements;
    if found != [] {
      var i := found[0];
      assert i in found;
    }
    if notFound != [] {
      var i := notFound[0];
      assert i in notFound;
    }
    if HasWrong(db, rows, onDisk, true) {
      var i :| i in rows && i in db.song && db.song[i].notFound && onDisk(db.song[i].path);
      assert i in found;
    }
    if HasWrong(db, rows, onDisk, false) {
      var i :| i in rows && i in db.song && !db.song[i].notFound && !onDisk(db.song[i].path);
      assert i in notFound;
    }
  }

  lemma ReconciledRows(db: Db, rows: seq<int>, onDisk: string -> bool)
    ensures var r := Reconciled(db, Elements(rows), onDisk);
            && r == db.(song := r.song) && r.song.Keys == db.song.Keys
            && forall i :: i in db.song ==>
                 r.song[i] == if i in rows then db.song[i].(notFound := !onDisk(db.song[i].path)) else db.song[i]
  {
  }

  lemma RefreshedWellFormed(db: Db, id: int, onDisk: string -> bool)
    requires WellFormed(db)
    ensures WellFormed(Refreshed(db, id, onDisk))
  {
  }

  /** The two lists hold those of the songs seen that are marked wrong. */
  ghost predicate MarkedWrong(db: Db, seen: set<int>, found: seq<int>, notFound: seq<int>, onDisk: string -> bool) {
    && (forall i :: i in found <==> i in seen && i in db.song && onDisk(db.song[i].path) && db.song[i].notFound)
    && (forall i :: i in notFound <==> i in seen && i in db.song && !onDisk(db.song[i].path) && !db.song[i].notFound)
  }

  lemma MarkedIsReconciled(db: Db, seen: set<int>, found: seq<int>, notFound: seq<int>, onDisk: string -> bool)
    requires MarkedWrong(db, seen, found, notFound, onDisk)
    ensures var mid := if found == [] then db else Marked(db, Elements(found), false);
            (if notFound == [] then mid else Marked(mid, Elements(notFound), true)) == Reconciled(db, seen, onDisk)
  {
    NothingMarked(db, found, false);
    var mid := Marked(db, Elements(found), false);
    NothingMarked(mid, notFound, true);
    MarkedTwice(db, seen, Elements(found), Elements(notFound), onDisk);
  }

  lemma NothingMarked(db: Db, ids: seq<int>, notFound: bool)
    ensures ids == [] ==> Marked(db, Elements(ids), notFound) == db
  {
  }

  lemma MarkedTwice(db: Db, seen: set<int>, found: set<int>, notFound: set<int>, onDisk: string -> bool)
    requires forall i :: i in found <==> i in seen && i in db.song && onDisk(db.song[i].path) && db.song[i].notFound
    requires forall i :: i in notFound <==> i in seen && i in db.song && !onDisk(db.song[i].path) && !db.song[i].notFound
    ensures Marked(Marked(db, found, false), notFound, true) == Reconciled(db, seen, onDisk)
  {
    var one, all := Marked(Marked(db, found, false), notFound, true), Reconciled(db, seen, onDisk);
    assert one.song.Keys == db.song.Keys == all.song.Keys;
    forall i | i in db.song
      ensures one.song[i] == all.song[i]
    {
      assert one.song[i].notFound == all.song[i].notFound;
    }
    assert one.song == all.song;
  }

  /** The values of the INSERT are what is added. */
  lemma Values(playlistSong: set<(int, int)>, p: int, add: seq<int>)
    ensures playlistSong + (set j | 0 <= j < |add| :: (add[j], p)) == Modified(playlistSong, p, Elements(add), {})
  {
    var r := Modified(playlistSong, p, Elements(add), {});
    forall i, q
      ensures (i, q) in r <==> (i, q) in playlistSong || (q == p && i in Elements(add))
    {
      ModifiedMeaning(playlistSong, p, Elements(add), {}, i, q);
    }
  }

  lemma Withdrawn(playlistSong: set<(int, int)>, p: int, remove: seq<int>)
    ensures (set x | x in playlistSong && !(x.1 == p && x.0 in Elements(remove)))
            == Modified(playlistSong, p, {}, Elements(remove))
  {
    var r := Modified(playlistSong, p, {}, Elements(remove));
    forall i, q
      ensures (i, q) in r <==> (i, q) in playlistSong && !(q == p && i in Elements(remove))
    {
      ModifiedMeaning(playlistSong, p, {}, Elements(remove), i, q);
    }
  }

  lemma NothingModified(playlistSong: set<(int, int)>, p: int)
    ensures Modified(playlistSong, p, Elements([]), Elements([])) == playlistSong
  {
  }

  lemma AddedAndRemoved(playlistSong: set<(int, int)>, p: int, add: seq<int>, remove: seq<int>)
    ensures var mid := if add == [] then playlistSong else Modified(playlistSong, p, Elements(add), {});
            (if remove == [] then mid else Modified(mid, p, {}, Elements(remove)))
            == Modified(playlistSong, p, Elements(add), Elements(remove))
  {
  }

  lemma OneMoreId(remove: seq<string>, i: nat)
    requires i < |remove| && ParseInt(remove[i]).Some?
    ensures ParsedIds(remove[..i + 1]) == ParsedIds(remove[..i]) + {ParseInt(remove[i]).value}
  {
  }
}
