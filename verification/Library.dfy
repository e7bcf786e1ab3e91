/** The music library (SqliteAPI.cc): its tables as maps from row ids, what the statements do to them,
    and what the library promises about them. Foreign keys are not enforced, so nothing cascades. */
module Library {
  import opened Wrappers

  datatype Album = Album(name: string, artistId: int)

  datatype Song = Song(title: string, artistId: Option<int>, albumId: Option<int>, genreId: Option<int>,
                       length: int, path: string, notFound: bool)

  datatype Playlist = Playlist(name: string, description: string, userId: string)

  /** `playlistSong` holds pairs of a song id and a playlist id. */
  datatype Db = Db(artist: map<int, string>, genre: map<int, string>, album: map<int, Album>,
                   song: map<int, Song>, playlist: map<int, Playlist>, playlistSong: set<(int, int)>)

  const EMPTY := Db(map[], map[], map[], map[], map[], {})

  datatype Metadata = Metadata(title: string, artist: string, album: string, genre: string, duration: int)

  // ---------------------------------------------------------------------------------------------
  // What the database itself guarantees

  predicate Distinct<T(!new, ==)>(table: map<int, T>) {
    forall i, j :: i in table && j in table && table[i] == table[j] ==> i == j
  }

  predicate DistinctPaths(song: map<int, Song>) {
    forall i, j :: i in song && j in song && song[i].path == song[j].path ==> i == j
  }

  /** The UNIQUE constraints hold, and row ids are positive. */
  predicate WellFormed(db: Db) {
    && Distinct(db.artist) && Distinct(db.genre) && Distinct(db.album) && DistinctPaths(db.song)
    && (forall i :: i in db.artist ==> i > 0) && (forall i :: i in db.genre ==> i > 0)
    && (forall i :: i in db.album ==> i > 0) && (forall i :: i in db.song ==> i > 0)
  }

  lemma Member<T>(s: set<T>) returns (x: T)
    requires s != {}
    ensures x in s
  {
    x :| x in s;
  }

  lemma {:induction false} HasMaximum(ids: set<int>)
    requires |ids| > 0
    ensures exists m :: m in ids && forall i :: i in ids ==> i <= m
  {
    var x := Member(ids);
    var rest := ids - {x};
    if rest == {} {
      assert ids == {x};
    } else {
      HasMaximum(rest);
      var m :| m in rest && forall i :: i in rest ==> i <= m;
      var most := if m < x then x else m;
      assert most in ids;
      forall i | i in ids
        ensures i <= most
      {
        assert i == x || i in rest;
      }
    }
  }

  /** The id of a new row: one more than the largest. */
  function NewId(ids: set<int>): (n: int)
    requires forall i :: i in ids ==> i > 0
    ensures n > 0 && n !in ids && (forall i :: i in ids ==> i < n) && (n == 1 || n - 1 in ids)
  {
    if ids == {} then 1
    else
      HasMaximum(ids);
      var m :| m in ids && forall i :: i in ids ==> i <= m;
      m + 1
  }

  /** SELECT id ... WHERE the row is x. */
  function Lookup<T(!new, ==)>(table: map<int, T>, x: T): (id: Option<int>)
    requires Distinct(table)
    ensures id.Some? ==> id.value in table && table[id.value] == x
    ensures id == None ==> forall i :: i in table ==> table[i] != x
  {
    if i :| i in table && table[i] == x then Some(i) else None
  }

  /** INSERT OR IGNORE of a row into a table without equal rows. */
  function Insert<T(!new, ==)>(table: map<int, T>, x: T): (r: map<int, T>)
    requires Distinct(table) && forall i :: i in table ==> i > 0
    ensures Distinct(r) && (forall i :: i in r ==> i > 0)
    ensures forall i :: i in table ==> i in r && r[i] == table[i]
    ensures exists i :: i in r && r[i] == x
    ensures forall i :: i in r && i !in table ==> r[i] == x
    ensures (exists i :: i in table && table[i] == x) ==> r == table
  {
    if exists i :: i in table && table[i] == x then table
    else
      var r := table[NewId(table.Keys) := x];
      assert r[NewId(table.Keys)] == x;
      r
  }

  function InsertSong(song: map<int, Song>, x: Song): (r: map<int, Song>)
    requires DistinctPaths(song) && forall i :: i in song ==> i > 0
    ensures DistinctPaths(r) && forall i :: i in r ==> i > 0
    ensures forall i :: i in song ==> i in r && r[i] == song[i]
    ensures forall i :: i in r && i !in song ==> r[i] == x
    ensures if exists i :: i in song && song[i].path == x.path then r == song else NewId(song.Keys) in r
  {
    if exists i :: i in song && song[i].path == x.path then song else song[NewId(song.Keys) := x]
  }

  // ---------------------------------------------------------------------------------------------
  // Adding a song

  /** Which of the statements of AddSongToDatabase fail. */
  datatype Faults = Faults(artist: bool, artistId: bool, album: bool, albumId: bool, genre: bool, genreId: bool, song: bool)

  const NO_FAULTS := Faults(false, false, false, false, false, false, false)

  /** The id that a SELECT leaves in its variable. */
  function Fetched(found: Option<int>, fault: bool): int {
    if fault || found == None then -1 else found.value
  }

  /** Only positive ids are bound; the others leave NULL. */
  function Bound(id: int): Option<int> {
    if id > 0 then Some(id) else None
  }

  function AddArtist(db: Db, name: string, f: Faults): (r: (Db, int))
    requires WellFormed(db)
    ensures WellFormed(r.0)
  {
    var db' := if f.artist then db else db.(artist := Insert(db.artist, name));
    (db', Fetched(Lookup(db'.artist, name), f.artistId))
  }

  function AddAlbum(db: Db, name: string, artistId: int, f: Faults): (r: (Db, int))
    requires WellFormed(db)
    ensures WellFormed(r.0)
  {
    var db' := if f.album then db else db.(album := Insert(db.album, Album(name, artistId)));
    (db', Fetched(Lookup(db'.album, Album(name, artistId)), f.albumId))
  }

  function AddGenre(db: Db, name: string, f: Faults): (r: (Db, int))
    requires WellFormed(db)
    ensures WellFormed(r.0)
  {
    var db' := if f.genre then db else db.(genre := Insert(db.genre, name));
    (db', Fetched(Lookup(db'.genre, name), f.genreId))
  }

  function AddArtistAndAlbum(db: Db, m: Metadata, f: Faults): (r: (Db, int, int))
    requires WellFormed(db)
    ensures WellFormed(r.0)
  {
    var (db1, artistId) := if m.artist != "" then AddArtist(db, m.artist, f) else (db, -1);
    var (db2, albumId) := if m.artist != "" && m.album != "" then AddAlbum(db1, m.album, artistId, f) else (db1, -1);
    (db2, artistId, albumId)
  }

  /** AddSongToDatabase: artist, album and genre are looked up or created, then the song is inserted
      unless its path is known. */
  function AddSong(db: Db, filename: string, m: Metadata, f: Faults): (r: Db)
    requires WellFormed(db)
    ensures WellFormed(r)
  {
    var (db2, artistId, albumId) := AddArtistAndAlbum(db, m, f);
    var (db3, genreId) := if m.genre != "" then AddGenre(db2, m.genre, f) else (db2, -1);
    if f.song then db3
    else db3.(song := InsertSong(db3.song, Song(m.title, Bound(artistId), Bound(albumId), Bound(genreId),
                                                m.duration, filename, false)))
  }

  /** Albums name an artist that exists; songs name artists, genres and albums that exist, and a
      song's album is an album of the song's artist. */
  ghost predicate Consistent(db: Db) {
    && (forall i :: i in db.album ==> db.album[i].artistId in db.artist)
    && (forall i :: i in db.song ==> SongConsistent(db, db.song[i]))
  }

  predicate SongConsistent(db: Db, s: Song) {
    && (s.artistId.Some? ==> s.artistId.value in db.artist)
    && (s.genreId.Some? ==> s.genreId.value in db.genre)
    && (s.albumId.Some? ==> s.albumId.value in db.album && s.artistId == Some(db.album[s.albumId.value].artistId))
  }

  /** The artist of the song cannot be looked up, and yet an album is created for it. */
  predicate Orphans(db: Db, m: Metadata, f: Faults)
    requires WellFormed(db)
  {
    m.artist != "" && AddArtist(db, m.artist, f).1 == -1 && m.album != "" && !f.album
  }

  lemma AlbumOrphaned(db: Db, filename: string, m: Metadata, f: Faults)
    requires WellFormed(db) && Orphans(db, m, f)
    ensures !Consistent(AddSong(db, filename, m, f))
  {
  }

  lemma ArtistConsistent(db: Db, name: string, f: Faults)
    requires WellFormed(db) && Consistent(db)
    ensures var (r, id) := AddArtist(db, name, f);
            Consistent(r) && (id == -1 || id in r.artist)
  {
  }

  lemma AlbumConsistent(db: Db, name: string, artistId: int, f: Faults)
    requires WellFormed(db) && Consistent(db) && (artistId in db.artist || f.album)
    ensures var (r, id) := AddAlbum(db, name, artistId, f);
            Consistent(r) && (id == -1 || (id in r.album && r.album[id].artistId == artistId)) && r.artist == db.artist
  {
  }

  lemma GenreConsistent(db: Db, name: string, f: Faults)
    requires WellFormed(db) && Consistent(db)
    ensures var (r, id) := AddGenre(db, name, f);
            Consistent(r) && (id == -1 || id in r.genre) && r.artist == db.artist && r.album == db.album
  {
  }

  lemma SongIsConsistent(db: Db, s: Song)
    requires WellFormed(db) && Consistent(db) && SongConsistent(db, s)
    ensures Consistent(db.(song := InsertSong(db.song, s)))
  {
  }

  lemma AddedConsistent(db: Db, filename: string, m: Metadata, f: Faults)
    requires WellFormed(db) && Consistent(db) && !Orphans(db, m, f)
    ensures Consistent(AddSong(db, filename, m, f))
  {
    hide AddArtist, AddAlbum, AddGenre, Consistent, InsertSong, Distinct, DistinctPaths;
    var (db1, artistId) := if m.artist != "" then AddArtist(db, m.artist, f) else (db, -1);
    ArtistConsistent(db, m.artist, f);
    var (db2, albumId) := if m.artist != "" && m.album != "" then AddAlbum(db1, m.album, artistId, f) else (db1, -1);
    if m.artist != "" && m.album != "" {
      AlbumConsistent(db1, m.album, artistId, f);
    }
    var (db3, genreId) := if m.genre != "" then AddGenre(db2, m.genre, f) else (db2, -1);
    GenreConsistent(db2, m.genre, f);
    var s := Song(m.title, Bound(artistId), Bound(albumId), Bound(genreId), m.duration, filename, false);
    SongIsConsistent(db3, s);
  }

  /** Adding a song keeps the library consistent exactly when no album is created for an artist that
      could not be looked up. */
  lemma AddKeepsConsistent(db: Db, filename: string, m: Metadata, f: Faults)
    requires WellFormed(db) && Consistent(db)
    ensures Consistent(AddSong(db, filename, m, f)) <==> !Orphans(db, m, f)
  {
    if Orphans(db, m, f) {
      AlbumOrphaned(db, filename, m, f);
    } else {
      AddedConsistent(db, filename, m, f);
    }
  }

  // ---------------------------------------------------------------------------------------------
  // Removing songs

  predicate HasArtist(song: map<int, Song>, id: int) {
    exists i :: i in song && song[i].artistId == Some(id)
  }

  predicate HasGenre(song: map<int, Song>, id: int) {
    exists i :: i in song && song[i].genreId == Some(id)
  }

  predicate HasAlbum(song: map<int, Song>, id: int) {
    exists i :: i in song && song[i].albumId == Some(id)
  }

  function WithoutSongs(db: Db, ids: set<int>): Db {
    db.(song := db.song - ids)
  }

  function CleanArtists(db: Db): Db {
    db.(artist := map i | i in db.artist && HasArtist(db.song, i) :: db.artist[i])
  }

  function CleanGenres(db: Db): Db {
    db.(genre := map i | i in db.genre && HasGenre(db.song, i) :: db.genre[i])
  }

  function CleanAlbums(db: Db): Db {
    db.(album := map i | i in db.album && HasAlbum(db.song, i) :: db.album[i])
  }

  /** CleanUpAfterRemoval: artists first, then genres, then albums. */
  function CleanUp(db: Db): Db {
    CleanAlbums(CleanGenres(CleanArtists(db)))
  }

  /** RemoveFiles and RemoveFile, once committed. */
  function Removed(db: Db, ids: set<int>): Db {
    CleanUp(WithoutSongs(db, ids))
  }

  /** Every artist, genre and album has a song. */
  ghost predicate Tidy(db: Db) {
    && (forall i :: i in db.artist ==> HasArtist(db.song, i))
    && (forall i :: i in db.genre ==> HasGenre(db.song, i))
    && (forall i :: i in db.album ==> HasAlbum(db.song, i))
  }

  lemma RemovedWellFormed(db: Db, ids: set<int>)
    requires WellFormed(db)
    ensures WellFormed(Removed(db, ids))
  {
  }

  /** A removal takes exactly the songs listed, and then exactly the artists, genres and albums without
      a song, whatever the library looked like. Nothing else changes. */
  lemma RemovedTidy(db: Db, ids: set<int>)
    ensures var r := Removed(db, ids);
            && Tidy(r) && r.song == db.song - ids
            && (forall i :: i in r.artist <==> i in db.artist && exists k :: k in r.song && r.song[k].artistId == Some(i))
            && (forall i :: i in r.genre <==> i in db.genre && exists k :: k in r.song && r.song[k].genreId == Some(i))
            && (forall i :: i in r.album <==> i in db.album && exists k :: k in r.song && r.song[k].albumId == Some(i))
            && Extends(r.artist, db.artist) && Extends(r.genre, db.genre) && Extends(r.album, db.album)
            && r.playlist == db.playlist && r.playlistSong == db.playlistSong
  {
  }

  /** It keeps the library consistent, although the artists go before their albums. */
  lemma RemovedConsistent(db: Db, ids: set<int>)
    requires Consistent(db)
    ensures Consistent(Removed(db, ids)) && Tidy(Removed(db, ids))
    ensures Removed(db, ids).song == db.song - ids
  {
  }

  /** Where a song's album need not belong to the song's artist, the order of the clean-up matters:
      every album keeps its artist exactly when each album with a song left has an artist with a song
      left. */
  lemma CleanUpKeepsAlbumArtists(db: Db)
    requires forall i :: i in db.album ==> db.album[i].artistId in db.artist
    ensures (forall i :: i in CleanUp(db).album ==> CleanUp(db).album[i].artistId in CleanUp(db).artist)
            <==> (forall i :: i in db.album && HasAlbum(db.song, i) ==> HasArtist(db.song, db.album[i].artistId))
  {
    var r := CleanUp(db);
    assert forall i :: i in r.album <==> i in db.album && HasAlbum(db.song, i);
  }

  datatype Edit = Add(filename: string, m: Metadata, f: Faults) | Remove(ids: set<int>)

  /** The library after these edits, the last of them at the end. */
  function Built(edits: seq<Edit>): (db: Db)
    ensures WellFormed(db)
  {
    if edits == [] then EMPTY
    else
      var db := Built(edits[..|edits| - 1]);
      match edits[|edits| - 1]
      case Add(filename, m, f) => AddSong(db, filename, m, f)
      case Remove(ids) =>
        RemovedWellFormed(db, ids);
        Removed(db, ids)
  }

  ghost predicate NoOrphans(edits: seq<Edit>) {
    forall i :: 0 <= i < |edits| && edits[i].Add? ==> !Orphans(Built(edits[..i]), edits[i].m, edits[i].f)
  }

  /** After every run that ends with a removal the library is tidy. */
  lemma BuiltTidy(edits: seq<Edit>)
    requires edits != [] && edits[|edits| - 1].Remove?
    ensures Tidy(Built(edits))
  {
    RemovedTidy(Built(edits[..|edits| - 1]), edits[|edits| - 1].ids);
  }

  /** Whatever songs are added and removed, the library stays consistent while no album is orphaned. */
  lemma {:induction false} BuiltConsistent(edits: seq<Edit>)
    requires NoOrphans(edits)
    ensures Consistent(Built(edits))
  {
    if edits != [] {
      var n := |edits| - 1;
      var before := edits[..n];
      assert forall i :: 0 <= i < n ==> before[..i] == edits[..i];
      BuiltConsistent(before);
      match edits[n]
      case Add(filename, m, f) => AddKeepsConsistent(Built(before), filename, m, f);
      case Remove(ids) => RemovedConsistent(Built(before), ids);
    }
  }

  // ---------------------------------------------------------------------------------------------
  // What an added song is

  predicate KnownPath(db: Db, filename: string) {
    exists i :: i in db.song && db.song[i].path == filename
  }

  predicate Has<T(!new, ==)>(table: map<int, T>, x: T) {
    exists i :: i in table && table[i] == x
  }

  /** The id is that of the row x if x was looked up and is there, and nothing otherwise. */
  predicate Refers<T(!new, ==)>(table: map<int, T>, id: Option<int>, x: T, lookedUp: bool) {
    if lookedUp && Has(table, x) then id.Some? && id.value in table && table[id.value] == x else id == None
  }

  /** The artist id that AddSongToDatabase goes on with. */
  function ArtistId(db: Db, m: Metadata, f: Faults): int
    requires WellFormed(db)
  {
    AddArtistAndAlbum(db, m, f).1
  }

  /** The song says what the metadata say, as far as its names could be looked up. */
  predicate Describes(db: Db, s: Song, artistId: int, filename: string, m: Metadata, f: Faults) {
    && s.title == m.title && s.length == m.duration && s.path == filename && !s.notFound
    && s.artistId == Bound(artistId)
    && Refers(db.artist, s.artistId, m.artist, m.artist != "" && !f.artistId)
    && Refers(db.genre, s.genreId, m.genre, m.genre != "" && !f.genreId)
    && Refers(db.album, s.albumId, Album(m.album, artistId), m.artist != "" && m.album != "" && !f.albumId)
  }

  ghost predicate Extends<T>(before: map<int, T>, after: map<int, T>) {
    forall i :: i in before ==> i in after && after[i] == before[i]
  }

  /** The table with x, if it is wanted. */
  function With<T(!new, ==)>(table: map<int, T>, x: T, wanted: bool): (r: map<int, T>)
    requires Distinct(table) && forall i :: i in table ==> i > 0
    ensures Distinct(r) && forall i :: i in r ==> i > 0
    ensures Extends(table, r) && (wanted ==> Has(r, x)) && forall y :: y != x && Has(r, y) ==> Has(table, y)
  {
    if wanted then Insert(table, x) else table
  }

  /** The three tables of names and the song that AddSongToDatabase is about to insert. */
  lemma AddSongSteps(db: Db, filename: string, m: Metadata, f: Faults) returns (r: Db, s: Song)
    requires WellFormed(db)
    ensures r == AddSong(db, filename, m, f) && Describes(r, s, ArtistId(db, m, f), filename, m, f)
    ensures r.song == if f.song then db.song else InsertSong(db.song, s)
    ensures r.artist == With(db.artist, m.artist, m.artist != "" && !f.artist)
    ensures r.genre == With(db.genre, m.genre, m.genre != "" && !f.genre)
    ensures r.album == With(db.album, Album(m.album, ArtistId(db, m, f)), m.artist != "" && m.album != "" && !f.album)
    ensures ArtistId(db, m, f) == if m.artist != "" then Fetched(Lookup(r.artist, m.artist), f.artistId) else -1
    ensures r.playlist == db.playlist && r.playlistSong == db.playlistSong
  {
    hide WellFormed, InsertSong, Insert, Lookup, Describes, With, AddArtistAndAlbum, AddGenre, Fetched, Bound;
    r := AddSong(db, filename, m, f);
    var (db2, artistId, albumId) := AddArtistAndAlbum(db, m, f);
    AddedNames(db, m, f);
    var (db3, genreId) := if m.genre != "" then AddGenre(db2, m.genre, f) else (db2, -1);
    AddedGenre(db2, m.genre, f);
    s := Song(m.title, Bound(artistId), Bound(albumId), Bound(genreId), m.duration, filename, false);
    SongIsDescribed(r, s, artistId, filename, m, f);
  }

  lemma SongIsDescribed(db: Db, s: Song, artistId: int, filename: string, m: Metadata, f: Faults)
    requires WellFormed(db)
    requires artistId == if m.artist != "" then Fetched(Lookup(db.artist, m.artist), f.artistId) else -1
    requires var album := if m.artist != "" && m.album != "" then Fetched(Lookup(db.album, Album(m.album, artistId)), f.albumId)
                          else -1;
             var genre := if m.genre != "" then Fetched(Lookup(db.genre, m.genre), f.genreId) else -1;
             s == Song(m.title, Bound(artistId), Bound(album), Bound(genre), m.duration, filename, false)
    ensures Describes(db, s, artistId, filename, m, f)
  {
    hide Distinct, Lookup, Fetched, Bound, Refers;
    Fetches(db.artist, m.artist, m.artist != "", f.artistId);
    Fetches(db.album, Album(m.album, artistId), m.artist != "" && m.album != "", f.albumId);
    Fetches(db.genre, m.genre, m.genre != "", f.genreId);
  }

  lemma AddedNames(db: Db, m: Metadata, f: Faults)
    requires WellFormed(db)
    ensures var (r, a, b) := AddArtistAndAlbum(db, m, f);
            var artist := With(db.artist, m.artist, m.artist != "" && !f.artist);
            var album := With(db.album, Album(m.album, a), m.artist != "" && m.album != "" && !f.album);
            && r == db.(artist := artist, album := album)
            && a == (if m.artist != "" then Fetched(Lookup(artist, m.artist), f.artistId) else -1)
            && b == (if m.artist != "" && m.album != "" then Fetched(Lookup(album, Album(m.album, a)), f.albumId) else -1)
  {
    hide Insert, Lookup, Distinct, DistinctPaths;
  }

  lemma AddedGenre(db: Db, name: string, f: Faults)
    requires WellFormed(db)
    ensures var (r, id) := if name != "" then AddGenre(db, name, f) else (db, -1);
            var genre := With(db.genre, name, name != "" && !f.genre);
            && r == db.(genre := genre)
            && id == if name != "" then Fetched(Lookup(genre, name), f.genreId) else -1
  {
    hide Insert, Lookup, Distinct, DistinctPaths;
  }

  lemma Fetches<T(!new)>(table: map<int, T>, x: T, asked: bool, fault: bool)
    requires Distinct(table) && forall i :: i in table ==> i > 0
    ensures Refers(table, Bound(if asked then Fetched(Lookup(table, x), fault) else -1), x, asked && !fault)
  {
  }

  /** One new song that says what the metadata say as far as its names could be looked up; or none, if
      the path is known or the song itself is not inserted. */
  ghost predicate SongAdded(db: Db, r: Db, filename: string, m: Metadata, f: Faults)
    requires WellFormed(db)
  {
    if f.song || KnownPath(db, filename) then r.song == db.song
    else
      var id := NewId(db.song.Keys);
      id in r.song && r.song == db.song[id := r.song[id]] && Describes(r, r.song[id], ArtistId(db, m, f), filename, m, f)
  }

  /** The names that are inserted are there, the rows that were there stay, and no other name appears. */
  ghost predicate NamesAdded(db: Db, r: Db, m: Metadata, f: Faults)
    requires WellFormed(db)
  {
    && Extends(db.artist, r.artist) && Extends(db.genre, r.genre) && Extends(db.album, r.album)
    && (m.artist != "" && !f.artist ==> Has(r.artist, m.artist))
    && (m.genre != "" && !f.genre ==> Has(r.genre, m.genre))
    && (m.artist != "" && m.album != "" && !f.album ==> Has(r.album, Album(m.album, ArtistId(db, m, f))))
    && (forall y :: y != m.artist && Has(r.artist, y) ==> Has(db.artist, y))
    && (forall y :: y != m.genre && Has(r.genre, y) ==> Has(db.genre, y))
    && (forall y: Album :: y.name != m.album && Has(r.album, y) ==> Has(db.album, y))
  }

  /** What an addition does, whatever fails. */
  lemma AddSongMeaning(db: Db, filename: string, m: Metadata, f: Faults)
    requires WellFormed(db)
    ensures var r := AddSong(db, filename, m, f);
            && SongAdded(db, r, filename, m, f) && NamesAdded(db, r, m, f)
            && r.playlist == db.playlist && r.playlistSong == db.playlistSong
  {
    hide AddSong, Describes, Insert, Lookup, With, Has, ArtistId;
    var r, s := AddSongSteps(db, filename, m, f);
    assert s.path == filename by { DescribesPath(r, s, ArtistId(db, m, f), filename, m, f); }
  }

  lemma DescribesPath(db: Db, s: Song, artistId: int, filename: string, m: Metadata, f: Faults)
    requires Describes(db, s, artistId, filename, m, f)
    ensures s.path == filename
  {
  }

  lemma WithTwice<T(!new)>(table: map<int, T>, x: T, wanted: bool)
    requires Distinct(table) && forall i :: i in table ==> i > 0
    ensures With(With(table, x, wanted), x, wanted) == With(table, x, wanted)
  {
  }

  /** Adding the same file again, with the same statements failing, changes nothing. */
  lemma AddTwice(db: Db, filename: string, m: Metadata, f: Faults)
    requires WellFormed(db)
    ensures AddSong(AddSong(db, filename, m, f), filename, m, f) == AddSong(db, filename, m, f)
  {
    hide AddSong, Describes, Insert, Lookup, Extends, With, Has;
    var r, s := AddSongSteps(db, filename, m, f);
    var r2, s2 := AddSongSteps(r, filename, m, f);
    WithTwice(db.artist, m.artist, m.artist != "" && !f.artist);
    WithTwice(db.genre, m.genre, m.genre != "" && !f.genre);
    WithTwice(db.album, Album(m.album, ArtistId(db, m, f)), m.artist != "" && m.album != "" && !f.album);
    if !f.song {
      PathAdded(db, r, s, ArtistId(db, m, f), filename, m, f);
      DescribesPath(r2, s2, ArtistId(r, m, f), filename, m, f);
    }
  }

  lemma PathAdded(db: Db, r: Db, s: Song, artistId: int, filename: string, m: Metadata, f: Faults)
    requires WellFormed(db) && Describes(r, s, artistId, filename, m, f) && r.song == InsertSong(db.song, s)
    ensures KnownPath(r, filename)
  {
  }

  // ---------------------------------------------------------------------------------------------
  // When a library stays tidy

  /** The row x is new. */
  predicate Creates<T(!new, ==)>(table: map<int, T>, x: T, wanted: bool) {
    wanted && !Has(table, x)
  }

  /** Every row that the statements create is looked up and gets the song, which is really inserted. */
  predicate RowsFilled(db: Db, filename: string, m: Metadata, f: Faults)
    requires WellFormed(db)
  {
    var inserted := !f.song && !KnownPath(db, filename);
    && (Creates(db.artist, m.artist, m.artist != "" && !f.artist) ==> inserted && !f.artistId)
    && (Creates(db.genre, m.genre, m.genre != "" && !f.genre) ==> inserted && !f.genreId)
    && (Creates(db.album, Album(m.album, ArtistId(db, m, f)), m.artist != "" && m.album != "" && !f.album) ==>
          inserted && !f.albumId)
  }

  /** A table that grows by x, of which the songs refer to all rows, and a song that is added. */
  ghost predicate Growing<T(!new)>(table: map<int, T>, after: map<int, T>, x: T, wanted: bool, before: set<int>, now: set<int>,
                                   id: Option<int>, lookedUp: bool, inserted: bool) {
    && Distinct(table) && (forall i :: i in table ==> i > 0) && after == With(table, x, wanted)
    && table.Keys == before && Refers(after, id, x, lookedUp)
    && now == before + if inserted && id.Some? then {id.value} else {}
  }

  /** Then the songs still refer to all rows exactly when a row that is new gets the song. */
  lemma RowsReferred<T(!new)>(table: map<int, T>, after: map<int, T>, x: T, wanted: bool, before: set<int>, now: set<int>,
                              id: Option<int>, lookedUp: bool, inserted: bool)
    requires Growing(table, after, x, wanted, before, now, id, lookedUp, inserted)
    ensures (forall i :: i in after ==> i in now) <==> (Creates(table, x, wanted) ==> inserted && lookedUp)
  {
  }

  function ArtistIds(song: map<int, Song>): (ids: set<int>)
    ensures forall i :: i in ids <==> HasArtist(song, i)
  {
    set k | k in song && song[k].artistId.Some? :: song[k].artistId.value
  }

  function GenreIds(song: map<int, Song>): (ids: set<int>)
    ensures forall i :: i in ids <==> HasGenre(song, i)
  {
    set k | k in song && song[k].genreId.Some? :: song[k].genreId.value
  }

  function AlbumIds(song: map<int, Song>): (ids: set<int>)
    ensures forall i :: i in ids <==> HasAlbum(song, i)
  {
    set k | k in song && song[k].albumId.Some? :: song[k].albumId.value
  }

  /** In a consistent and tidy library the songs refer to exactly the rows that are there. */
  lemma ReferredRows(db: Db)
    requires Consistent(db) && Tidy(db)
    ensures db.artist.Keys == ArtistIds(db.song) && db.genre.Keys == GenreIds(db.song) && db.album.Keys == AlbumIds(db.song)
  {
    assert forall i :: i in db.song ==> SongConsistent(db, db.song[i]);
    assert forall i :: i in db.artist <==> i in ArtistIds(db.song);
    assert forall i :: i in db.genre <==> i in GenreIds(db.song);
    assert forall i :: i in db.album <==> i in AlbumIds(db.song);
  }

  lemma TidyRows(db: Db)
    ensures Tidy(db) <==>
            && (forall i :: i in db.artist ==> i in ArtistIds(db.song))
            && (forall i :: i in db.genre ==> i in GenreIds(db.song))
            && (forall i :: i in db.album ==> i in AlbumIds(db.song))
  {
    hide HasArtist, HasGenre, HasAlbum, ArtistIds, GenreIds, AlbumIds;
  }

  lemma OneMoreSong(song: map<int, Song>, after: map<int, Song>, s: Song, inserted: bool)
    requires forall i :: i in song ==> i > 0
    requires after == if inserted then song[NewId(song.Keys) := s] else song
    ensures ArtistIds(after) == ArtistIds(song) + if inserted && s.artistId.Some? then {s.artistId.value} else {}
    ensures GenreIds(after) == GenreIds(song) + if inserted && s.genreId.Some? then {s.genreId.value} else {}
    ensures AlbumIds(after) == AlbumIds(song) + if inserted && s.albumId.Some? then {s.albumId.value} else {}
  {
    if inserted {
      var id := NewId(song.Keys);
      assert forall k :: k in song ==> k in after && after[k] == song[k];
      assert id in after && after[id] == s;
    }
  }

  /** The three tables of an addition, and the song. */
  ghost predicate TablesGrow(db: Db, r: Db, s: Song, filename: string, m: Metadata, f: Faults)
    requires WellFormed(db)
  {
    var inserted := !f.song && !KnownPath(db, filename);
    && Growing(db.artist, r.artist, m.artist, m.artist != "" && !f.artist, ArtistIds(db.song), ArtistIds(r.song),
               s.artistId, m.artist != "" && !f.artistId, inserted)
    && Growing(db.genre, r.genre, m.genre, m.genre != "" && !f.genre, GenreIds(db.song), GenreIds(r.song),
               s.genreId, m.genre != "" && !f.genreId, inserted)
    && Growing(db.album, r.album, Album(m.album, ArtistId(db, m, f)), m.artist != "" && m.album != "" && !f.album,
               AlbumIds(db.song), AlbumIds(r.song), s.albumId, m.artist != "" && m.album != "" && !f.albumId, inserted)
  }

  lemma AddingGrows(db: Db, filename: string, m: Metadata, f: Faults) returns (r: Db, s: Song)
    requires WellFormed(db) && Consistent(db) && Tidy(db)
    ensures r == AddSong(db, filename, m, f) && TablesGrow(db, r, s, filename, m, f)
  {
    hide AddSong, Describes, Insert, Lookup, With, Has, ArtistId, Consistent, Tidy, Refers, TablesGrow;
    r, s := AddSongSteps(db, filename, m, f);
    Referring(r, s, ArtistId(db, m, f), filename, m, f);
    ReferredRows(db);
    TheyGrow(db, r, s, filename, m, f);
  }

  lemma TheyGrow(db: Db, r: Db, s: Song, filename: string, m: Metadata, f: Faults)
    requires WellFormed(db)
    requires r.song == if f.song then db.song else InsertSong(db.song, s)
    requires r.artist == With(db.artist, m.artist, m.artist != "" && !f.artist)
    requires r.genre == With(db.genre, m.genre, m.genre != "" && !f.genre)
    requires r.album == With(db.album, Album(m.album, ArtistId(db, m, f)), m.artist != "" && m.album != "" && !f.album)
    requires s.path == filename
    requires Refers(r.artist, s.artistId, m.artist, m.artist != "" && !f.artistId)
    requires Refers(r.genre, s.genreId, m.genre, m.genre != "" && !f.genreId)
    requires Refers(r.album, s.albumId, Album(m.album, ArtistId(db, m, f)), m.artist != "" && m.album != "" && !f.albumId)
    requires db.artist.Keys == ArtistIds(db.song) && db.genre.Keys == GenreIds(db.song) && db.album.Keys == AlbumIds(db.song)
    ensures TablesGrow(db, r, s, filename, m, f)
  {
    hide With, ArtistId, Refers, Distinct, DistinctPaths, ArtistIds, GenreIds, AlbumIds;
    OneMoreSong(db.song, r.song, s, !f.song && !KnownPath(db, filename));
  }

  /** Whatever fails, adding a file keeps the library tidy exactly when every row created for it gets
      the song. */
  lemma AddKeepsTidy(db: Db, filename: string, m: Metadata, f: Faults)
    requires WellFormed(db) && Consistent(db) && Tidy(db)
    ensures Tidy(AddSong(db, filename, m, f)) <==> RowsFilled(db, filename, m, f)
  {
    hide AddSong, TablesGrow, Consistent, Tidy, WellFormed, RowsFilled;
    var r, s := AddingGrows(db, filename, m, f);
    RowsAre(db, r, s, filename, m, f);
  }

  lemma RowsAre(db: Db, r: Db, s: Song, filename: string, m: Metadata, f: Faults)
    requires WellFormed(db) && TablesGrow(db, r, s, filename, m, f)
    ensures Tidy(r) <==> RowsFilled(db, filename, m, f)
  {
    hide WellFormed, KnownPath, Has, ArtistId, Tidy, Growing, ArtistIds, GenreIds, AlbumIds;
    var inserted := !f.song && !KnownPath(db, filename);
    TidyRows(r);
    RowsReferred(db.artist, r.artist, m.artist, m.artist != "" && !f.artist, ArtistIds(db.song), ArtistIds(r.song),
                 s.artistId, m.artist != "" && !f.artistId, inserted);
    RowsReferred(db.genre, r.genre, m.genre, m.genre != "" && !f.genre, GenreIds(db.song), GenreIds(r.song),
                 s.genreId, m.genre != "" && !f.genreId, inserted);
    RowsReferred(db.album, r.album, Album(m.album, ArtistId(db, m, f)), m.artist != "" && m.album != "" && !f.album,
                 AlbumIds(db.song), AlbumIds(r.song), s.albumId, m.artist != "" && m.album != "" && !f.albumId, inserted);
  }

  lemma Referring(db: Db, s: Song, artistId: int, filename: string, m: Metadata, f: Faults)
    requires Describes(db, s, artistId, filename, m, f)
    ensures s.path == filename
    ensures Refers(db.artist, s.artistId, m.artist, m.artist != "" && !f.artistId)
    ensures Refers(db.genre, s.genreId, m.genre, m.genre != "" && !f.genreId)
    ensures Refers(db.album, s.albumId, Album(m.album, artistId), m.artist != "" && m.album != "" && !f.albumId)
  {
  }

  /** The artist, genre and album of the metadata are in the library already. */
  predicate KnownNames(db: Db, m: Metadata)
    requires WellFormed(db)
  {
    && (m.genre != "" ==> Has(db.genre, m.genre))
    && (m.artist != "" ==>
          && Has(db.artist, m.artist)
          && (m.album != "" ==> Has(db.album, Album(m.album, Lookup(db.artist, m.artist).value))))
  }

  /** When no statement fails: exactly when the path is new or all names are known. A known file with
      new metadata leaves rows without a song. */
  lemma AddKeepsTidyWithoutFaults(db: Db, filename: string, m: Metadata)
    requires WellFormed(db) && Consistent(db) && Tidy(db)
    ensures Tidy(AddSong(db, filename, m, NO_FAULTS)) <==> !KnownPath(db, filename) || KnownNames(db, m)
  {
    hide AddSong, Tidy, Consistent;
    AddKeepsTidy(db, filename, m, NO_FAULTS);
  }

  // ---------------------------------------------------------------------------------------------
  // Playlists

  /** Playlists hold songs that exist, and only playlists that exist hold any. */
  ghost predicate MembershipsSound(db: Db) {
    forall x :: x in db.playlistSong ==> x.0 in db.song && x.1 in db.playlist
  }

  /** A removal keeps the playlists sound exactly when none of the songs is in a playlist. */
  lemma RemovedMemberships(db: Db, ids: set<int>)
    requires MembershipsSound(db)
    ensures Removed(db, ids).playlistSong == db.playlistSong
    ensures MembershipsSound(Removed(db, ids)) <==> forall x :: x in db.playlistSong ==> x.0 !in ids
  {
  }

  /** A song added after a removal starts in the playlists of the removed song whose id it gets, if
      that song was in any. It is there unless its own INSERT fails. */
  lemma InheritedMemberships(db: Db, ids: set<int>, filename: string, m: Metadata, f: Faults)
    requires WellFormed(db) && MembershipsSound(db) && !KnownPath(Removed(db, ids), filename)
    ensures WellFormed(Removed(db, ids))
    ensures var id, r := NewId((db.song - ids).Keys), AddSong(Removed(db, ids), filename, m, f);
            && (id in r.song <==> !f.song) && (!f.song ==> r.song[id].path == filename)
            && (forall p :: (id, p) in r.playlistSong <==> (id, p) in db.playlistSong)
            && (forall p :: (id, p) in r.playlistSong ==> id in ids && id in db.song)
  {
    hide AddSong, Distinct, Has, With, Extends, Refers;
    RemovedWellFormed(db, ids);
    AddSongMeaning(Removed(db, ids), filename, m, f);
    assert Removed(db, ids).song == db.song - ids;
  }

  /** What ModifyPlaylistSongs makes of the memberships. */
  function Modified(playlistSong: set<(int, int)>, p: int, add: set<int>, remove: set<int>): set<(int, int)> {
    (playlistSong + set i | i in add :: (i, p)) - set i | i in remove :: (i, p)
  }

  /** The songs of the playlist become what was there, or is added, and is not removed; the other
      playlists stay. */
  lemma ModifiedMeaning(playlistSong: set<(int, int)>, p: int, add: set<int>, remove: set<int>, i: int, q: int)
    ensures (i, q) in Modified(playlistSong, p, add, remove) <==>
            if q == p then ((i, q) in playlistSong || i in add) && i !in remove else (i, q) in playlistSong
  {
  }

  // ---------------------------------------------------------------------------------------------
  // Availability

  /** UPDATE song SET notFound ... WHERE id IN ids. */
  function Marked(db: Db, ids: set<int>, notFound: bool): Db {
    db.(song := map i | i in db.song :: if i in ids then db.song[i].(notFound := notFound) else db.song[i])
  }

  /** Every song of those seen is marked by whether its file exists. */
  function Reconciled(db: Db, seen: set<int>, onDisk: string -> bool): Db {
    db.(song := map i | i in db.song ::
                  if i in seen then db.song[i].(notFound := !onDisk(db.song[i].path)) else db.song[i])
  }

  /** RefreshFileAvailability of one song. */
  function Refreshed(db: Db, id: int, onDisk: string -> bool): Db {
    if id in db.song then db.(song := db.song[id := db.song[id].(notFound := !onDisk(db.song[id].path))]) else db
  }

  function Elements(ids: seq<int>): (r: set<int>)
    ensures forall i :: i in r <==> i in ids
  {
    set i | i in ids
  }

  function RefreshedAll(db: Db, ids: seq<int>, onDisk: string -> bool): Db {
    if ids == [] then db else Refreshed(RefreshedAll(db, ids[..|ids| - 1], onDisk), ids[|ids| - 1], onDisk)
  }

  /** A song is marked not found exactly when its file does not exist, if it was seen, and is not touched
      otherwise. */
  lemma ReconciledMeaning(db: Db, seen: set<int>, onDisk: string -> bool)
    ensures var r := Reconciled(db, seen, onDisk);
            && r == db.(song := r.song) && r.song.Keys == db.song.Keys
            && (forall i :: i in db.song && i in seen ==>
                  r.song[i] == db.song[i].(notFound := r.song[i].notFound) && (r.song[i].notFound <==> !onDisk(db.song[i].path)))
            && (forall i :: i in db.song && i !in seen ==> r.song[i] == db.song[i])
  {
  }

  lemma OneMoreSeen(db: Db, seen: set<int>, id: int, onDisk: string -> bool)
    ensures Refreshed(Reconciled(db, seen, onDisk), id, onDisk) == Reconciled(db, seen + {id}, onDisk)
  {
  }

  /** The batch does what refreshing one song after the other does, in any order and however often. */
  lemma {:induction false} BatchIsOneByOne(db: Db, ids: seq<int>, onDisk: string -> bool)
    ensures RefreshedAll(db, ids, onDisk) == Reconciled(db, Elements(ids), onDisk)
  {
    if ids != [] {
      hide Reconciled, Refreshed;
      var before, id := ids[..|ids| - 1], ids[|ids| - 1];
      BatchIsOneByOne(db, before, onDisk);
      assert Elements(ids) == Elements(before) + {id} by {
        assert ids == before + [id];
      }
      OneMoreSeen(db, Elements(before), id, onDisk);
    } else {
      assert Reconciled(db, Elements(ids), onDisk).song == db.song;
    }
  }

  /** A check that did not see every song is as good as one that did exactly when the songs it did not
      see were marked right. */
  lemma PartialCheck(db: Db, seen: set<int>, onDisk: string -> bool)
    ensures Reconciled(db, seen, onDisk) == Reconciled(db, db.song.Keys, onDisk) <==>
            forall i :: i in db.song && i !in seen ==> db.song[i].notFound == !onDisk(db.song[i].path)
  {
    var some, all := Reconciled(db, seen, onDisk), Reconciled(db, db.song.Keys, onDisk);
    if forall i :: i in db.song && i !in seen ==> db.song[i].notFound == !onDisk(db.song[i].path) {
      assert some.song == all.song;
    }
    if some == all {
      forall i | i in db.song && i !in seen
        ensures db.song[i].notFound == !onDisk(db.song[i].path)
      {
        assert some.song[i] == all.song[i];
      }
    }
  }

  /** Checking twice is checking once, and a check keeps the library consistent, tidy and well formed. */
  lemma CheckedAgain(db: Db, seen: set<int>, onDisk: string -> bool)
    ensures Reconciled(Reconciled(db, seen, onDisk), seen, onDisk) == Reconciled(db, seen, onDisk)
    ensures WellFormed(db) ==> WellFormed(Reconciled(db, seen, onDisk))
    ensures Consistent(db) ==> Consistent(Reconciled(db, seen, onDisk))
    ensures Tidy(db) ==> Tidy(Reconciled(db, seen, onDisk))
  {
    var r := Reconciled(db, seen, onDisk);
    assert Reconciled(r, seen, onDisk).song == r.song;
    assert forall i :: i in db.song ==> SongConsistent(db, db.song[i]) ==> SongConsistent(r, r.song[i]);
    if Tidy(db) {
      forall i | i in r.artist ensures HasArtist(r.song, i) {
        var s :| s in db.song && db.song[s].artistId == Some(i);
        assert r.song[s].artistId == Some(i);
      }
      forall i | i in r.genre ensures HasGenre(r.song, i) {
        var s :| s in db.song && db.song[s].genreId == Some(i);
        assert r.song[s].genreId == Some(i);
      }
      forall i | i in r.album ensures HasAlbum(r.song, i) {
        var s :| s in db.song && db.song[s].albumId == Some(i);
        assert r.song[s].albumId == Some(i);
      }
    }
  }
}
