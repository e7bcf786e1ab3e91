/** The five paged queries of SqliteAPI.cc over the tables of the library. A scan is the order in which
    a table is read; LIKE is a parameter. */
module Queries {
  import opened Wrappers
  import opened Sequences
  import opened Library
  import opened Paging
  import N = Numbers

  // ---------------------------------------------------------------------------------------------
  // The order of values

  datatype Value = Null | Int(n: int) | Text(s: string)

  predicate TextLe(a: string, b: string) {
    a == "" || (b != "" && (a[0] < b[0] || (a[0] == b[0] && TextLe(a[1..], b[1..]))))
  }

  /** NULL comes before numbers, and numbers before texts. */
  predicate ValueLe(a: Value, b: Value) {
    match (a, b)
    case (Null, _) => true
    case (Int(m), Int(n)) => m <= n
    case (Int(_), Text(_)) => true
    case (Text(s), Text(t)) => TextLe(s, t)
    case _ => false
  }

  predicate TermLe(a: Value, b: Value, desc: bool) {
    if desc then ValueLe(b, a) else ValueLe(a, b)
  }

  function At(key: seq<Value>, i: nat): Value {
    if i < |key| then key[i] else Null
  }

  /** By the i-th term, and among equals by the terms after it. */
  predicate KeyLe(a: seq<Value>, b: seq<Value>, desc: seq<bool>, i: nat := 0)
    decreases |desc| - i
  {
    i >= |desc| ||
    (TermLe(At(a, i), At(b, i), desc[i]) && (TermLe(At(b, i), At(a, i), desc[i]) ==> KeyLe(a, b, desc, i + 1)))
  }

  lemma {:induction false} TextTotal(a: string, b: string)
    ensures TextLe(a, b) || TextLe(b, a)
  {
    if a != "" && b != "" {
      TextTotal(a[1..], b[1..]);
    }
  }

  lemma {:induction false} TextTransitive(a: string, b: string, c: string)
    requires TextLe(a, b) && TextLe(b, c)
    ensures TextLe(a, c)
  {
    if a != "" && a[0] == b[0] && b[0] == c[0] {
      TextTransitive(a[1..], b[1..], c[1..]);
    }
  }

  lemma {:induction false} TextAntisymmetric(a: string, b: string)
    requires TextLe(a, b) && TextLe(b, a)
    ensures a == b
  {
    if a != "" {
      TextAntisymmetric(a[1..], b[1..]);
      assert a == [a[0]] + a[1..] && b == [b[0]] + b[1..];
    }
  }

  /** The order of texts is decided by the first character in which they differ, and a text comes before
      what it begins. */
  lemma {:induction false} TextOrder(prefix: string, c: char, d: char, a: string, b: string)
    requires c < d
    ensures TextLe(prefix + [c] + a, prefix + [d] + b) && !TextLe(prefix + [d] + b, prefix + [c] + a)
    ensures TextLe(prefix, prefix + a) && (a != "" ==> !TextLe(prefix + a, prefix))
  {
    var x, y := prefix + [c] + a, prefix + [d] + b;
    if prefix != "" {
      TextOrder(prefix[1..], c, d, a, b);
      assert x[1..] == prefix[1..] + [c] + a && y[1..] == prefix[1..] + [d] + b;
      assert (prefix + a)[1..] == prefix[1..] + a;
    } else {
      assert prefix + a == a;
    }
  }

  /** NULL comes before numbers, numbers come by size and before texts, and not the other way. */
  lemma ValueOrder(m: int, n: int, s: string, v: Value)
    ensures ValueLe(Null, v) && (v != Null ==> !ValueLe(v, Null))
    ensures (ValueLe(Int(m), Int(n)) <==> m <= n) && ValueLe(Int(m), Text(s)) && !ValueLe(Text(s), Int(m))
  {
  }

  lemma ValueTotal(a: Value, b: Value)
    ensures ValueLe(a, b) || ValueLe(b, a)
  {
    if a.Text? && b.Text? {
      TextTotal(a.s, b.s);
    }
  }

  lemma ValueTransitive(a: Value, b: Value, c: Value)
    requires ValueLe(a, b) && ValueLe(b, c)
    ensures ValueLe(a, c)
  {
    if a.Text? && b.Text? && c.Text? {
      TextTransitive(a.s, b.s, c.s);
    }
  }

  lemma TermTransitive(a: Value, b: Value, c: Value, desc: bool)
    requires TermLe(a, b, desc) && TermLe(b, c, desc)
    ensures TermLe(a, c, desc)
  {
    if desc {
      ValueTransitive(c, b, a);
    } else {
      ValueTransitive(a, b, c);
    }
  }

  lemma {:induction false} KeyTotal(a: seq<Value>, b: seq<Value>, desc: seq<bool>, i: nat)
    ensures KeyLe(a, b, desc, i) || KeyLe(b, a, desc, i)
    decreases |desc| - i
  {
    if i < |desc| {
      ValueTotal(At(a, i), At(b, i));
      KeyTotal(a, b, desc, i + 1);
    }
  }

  lemma {:induction false} KeyTransitive(a: seq<Value>, b: seq<Value>, c: seq<Value>, desc: seq<bool>, i: nat)
    requires KeyLe(a, b, desc, i) && KeyLe(b, c, desc, i)
    ensures KeyLe(a, c, desc, i)
    decreases |desc| - i
  {
    if i < |desc| {
      hide TermLe;
      var x, y, z, d := At(a, i), At(b, i), At(c, i), desc[i];
      TermTransitive(x, y, z, d);
      if TermLe(z, x, d) {
        TermTransitive(y, z, x, d);
        TermTransitive(z, x, y, d);
        KeyTransitive(a, b, c, desc, i + 1);
      }
    }
  }

  function OrderBy<T>(key: T -> seq<Value>, desc: seq<bool>): (T, T) -> bool {
    (a, b) => KeyLe(key(a), key(b), desc)
  }

  lemma OrderIsOrdered<T(!new)>(key: T -> seq<Value>, desc: seq<bool>)
    ensures Ordered(OrderBy(key, desc))
  {
    var le := OrderBy(key, desc);
    forall a, b
      ensures le(a, b) || le(b, a)
    {
      KeyTotal(key(a), key(b), desc, 0);
    }
    forall a, b, c | le(a, b) && le(b, c)
      ensures le(a, c)
    {
      KeyTransitive(key(a), key(b), key(c), desc, 0);
    }
  }

  // ---------------------------------------------------------------------------------------------
  // Parameters

  /** Ids are bound only when they are numbers. */
  function IntParam(params: map<string, string>, key: string): Option<int> {
    if key in params then N.ParseInt(params[key]) else None
  }

  function TextParam(params: map<string, string>, key: string): Option<string> {
    if key in params then Some(params[key]) else None
  }

  /** An empty filter is no filter. */
  function FilterParam(params: map<string, string>): Option<string> {
    if "filter" in params && params["filter"] != "" then Some(params["filter"]) else None
  }

  /** The column equals what is bound, if anything is. */
  predicate Is<T(==)>(bound: Option<T>, column: Option<T>) {
    bound == None || bound == column
  }

  predicate Contains(filter: Option<string>, text: string, like: (string, string) -> bool) {
    filter == None || like(text, filter.value)
  }

  predicate Within<T>(scan: seq<int>, table: map<int, T>) {
    forall j :: 0 <= j < |scan| ==> scan[j] in table
  }

  /** If the parameter is a number, the column is that number; otherwise it may be anything. */
  predicate Selects(params: map<string, string>, key: string, column: Option<int>) {
    key in params && N.ParseInt(params[key]).Some? ==> column == Some(N.ParseInt(params[key]).value)
  }

  /** If the filter is not empty, the text is like it. */
  predicate Passes(params: map<string, string>, text: string, like: (string, string) -> bool) {
    "filter" in params && params["filter"] != "" ==> like(text, params["filter"])
  }

  /** The scan reads every row of the table once. */
  ghost predicate Scans<T>(scan: seq<int>, table: map<int, T>) {
    NoDuplicates(scan) && Within(scan, table) && forall i :: i in table ==> i in scan
  }

  function Read<T, R>(scan: seq<int>, table: map<int, T>, row: (int, T) -> R): (rows: seq<R>)
    requires Within(scan, table)
    ensures |rows| == |scan| && forall j :: 0 <= j < |scan| ==> rows[j] == row(scan[j], table[scan[j]])
  {
    seq(|scan|, j requires 0 <= j < |scan| => row(scan[j], table[scan[j]]))
  }

  /** What a paged query promises: every page is a slice of its result, pages put together are the
      result, and the result holds, in order, each row that meets the condition once. */
  ghost predicate PagesWell<T(!new)>(q: Query<T>) {
    && (forall limit, start :: Page(q, limit, start) == Slice(Result(q), Offset(start), limit))
    && (forall n: nat, k: nat :: k * n >= |Result(q)| ==> Pages(q, n, k) == Result(q))
    && Sorted(Result(q), q.le) && NoDuplicates(Result(q))
    && (forall x :: x in Result(q) <==> x in q.rows && q.where_(x))
  }

  lemma UniquePagesWell<T(!new)>(q: Query<T>)
    requires Ordered(q.le) && NoDuplicates(q.rows)
    requires forall x, y :: x in q.rows && y in q.rows && q.where_(x) && q.where_(y) && q.id(x) == q.id(y) ==> x == y
    ensures PagesWell(q)
  {
    hide Ordered, Page, Slice, Result, Pages, Offset, Sorted;
    UniqueResult(q);
    ResultMeaning(q);
    PagingIsSlicing(q);
    forall n: nat, k: nat | k * n >= |Result(q)|
      ensures Pages(q, n, k) == Result(q)
    {
      PagesCover(q, n, k);
    }
  }

  /** A table read row by row under its ids pages well under any condition and order. */
  lemma TablePagesWell<T, R(!new)>(scan: seq<int>, table: map<int, T>, row: (int, T) -> R, q: Query<R>)
    requires Scans(scan, table) && Ordered(q.le) && q.rows == Read(scan, table, row)
    requires forall i, x :: q.id(row(i, x)) == i
    ensures PagesWell(q)
  {
    hide Ordered, PagesWell;
    forall x, y | x in q.rows && y in q.rows && q.id(x) == q.id(y)
      ensures x == y
    {
      var i, j :| 0 <= i < |q.rows| && 0 <= j < |q.rows| && q.rows[i] == x && q.rows[j] == y;
      assert scan[i] == scan[j];
    }
    forall i, j | 0 <= i < j < |q.rows|
      ensures q.rows[i] != q.rows[j]
    {
      assert scan[i] != scan[j];
    }
    UniquePagesWell(q);
  }

  // ---------------------------------------------------------------------------------------------
  // Genres, artists, playlists and albums

  datatype NameResult = NameResult(id: int, name: string)

  /** Genres and Artist are the same query on two tables. */
  function NamesQuery(table: map<int, string>, scan: seq<int>, params: map<string, string>, desc: bool,
                      like: (string, string) -> bool): Query<NameResult>
    requires Within(scan, table)
  {
    Query(Read(scan, table, (i, name) => NameResult(i, name)),
          (r: NameResult) => Is(IntParam(params, "id"), Some(r.id)) && Contains(FilterParam(params), r.name, like),
          OrderBy((r: NameResult) => [Text(r.name)], [desc]),
          (r: NameResult) => r.id)
  }

  /** With a numeric id the query finds that row, if there is one and the filter lets it through; an id
      that is no number restricts nothing. */
  lemma NamesFound(table: map<int, string>, scan: seq<int>, params: map<string, string>, desc: bool,
                   like: (string, string) -> bool)
    requires Scans(scan, table)
    ensures var r, k := Result(NamesQuery(table, scan, params, desc, like)), IntParam(params, "id");
            && (k.Some? ==> r == if k.value in table && Contains(FilterParam(params), table[k.value], like)
                                 then [NameResult(k.value, table[k.value])] else [])
            && (k == None ==> forall x :: x in r <==> x.id in table && table[x.id] == x.name &&
                                                       Contains(FilterParam(params), x.name, like))
  {
    hide Result;
    var q := NamesQuery(table, scan, params, desc, like);
    var r, k := Result(q), IntParam(params, "id");
    OrderIsOrdered((r: NameResult) => [Text(r.name)], [desc]);
    TablePagesWell(scan, table, (i, name) => NameResult(i, name), q);
    WellPaged(q);
    forall x
      ensures x in q.rows <==> x.id in table && table[x.id] == x.name
    {
      if x.id in table && table[x.id] == x.name {
        var j :| 0 <= j < |scan| && scan[j] == x.id;
        assert q.rows[j] == x;
      }
    }
    if k.Some? {
      OnlyOne(r, NameResult(k.value, if k.value in table then table[k.value] else ""));
    }
  }

  lemma OnlyOne<T>(s: seq<T>, x: T)
    requires NoDuplicates(s) && forall y :: y in s ==> y == x
    ensures s == if x in s then [x] else []
  {
    if |s| > 1 {
      FirstTwo(s);
      assert false;
    }
    assert s != [] ==> s[0] in s;
  }

  lemma FirstTwo<T>(s: seq<T>)
    requires |s| > 1
    ensures s[0] in s && s[1] in s
  {
  }

  lemma NamesCondition(table: map<int, string>, scan: seq<int>, params: map<string, string>, desc: bool,
                       like: (string, string) -> bool, r: NameResult)
    requires Within(scan, table)
    ensures NamesQuery(table, scan, params, desc, like).where_(r) <==>
            Selects(params, "id", Some(r.id)) && Passes(params, r.name, like)
  {
  }

  /** By name, up or down. */
  lemma NamesOrder(table: map<int, string>, scan: seq<int>, params: map<string, string>, desc: bool,
                   like: (string, string) -> bool, i: nat, j: nat)
    requires Scans(scan, table) && i < j < |Result(NamesQuery(table, scan, params, desc, like))|
    ensures var r := Result(NamesQuery(table, scan, params, desc, like));
            if desc then TextLe(r[j].name, r[i].name) else TextLe(r[i].name, r[j].name)
  {
    hide Result;
    OrderIsOrdered((r: NameResult) => [Text(r.name)], [desc]);
    var q := NamesQuery(table, scan, params, desc, like);
    ResultMeaning(q);
    var a, b := Result(q)[i], Result(q)[j];
    assert KeyLe([Text(a.name)], [Text(b.name)], [desc], 0) by {
      assert q.le(a, b);
    }
  }

  lemma GenresPage(db: Db, scan: seq<int>, params: map<string, string>, desc: bool, like: (string, string) -> bool)
    requires Scans(scan, db.genre)
    ensures PagesWell(NamesQuery(db.genre, scan, params, desc, like))
  {
    OrderIsOrdered((r: NameResult) => [Text(r.name)], [desc]);
    TablePagesWell(scan, db.genre, (i, name) => NameResult(i, name), NamesQuery(db.genre, scan, params, desc, like));
  }

  lemma ArtistPage(db: Db, scan: seq<int>, params: map<string, string>, desc: bool, like: (string, string) -> bool)
    requires Scans(scan, db.artist)
    ensures PagesWell(NamesQuery(db.artist, scan, params, desc, like))
  {
    OrderIsOrdered((r: NameResult) => [Text(r.name)], [desc]);
    TablePagesWell(scan, db.artist, (i, name) => NameResult(i, name), NamesQuery(db.artist, scan, params, desc, like));
  }

  datatype PlaylistResult = PlaylistResult(id: int, name: string, description: string, userId: string)

  /** A user that is not bound equals nothing, so nothing is found. */
  function PlaylistsQuery(db: Db, scan: seq<int>, params: map<string, string>, desc: bool,
                          like: (string, string) -> bool): Query<PlaylistResult>
    requires Within(scan, db.playlist)
  {
    Query(Read(scan, db.playlist, (i, p: Playlist) => PlaylistResult(i, p.name, p.description, p.userId)),
          (r: PlaylistResult) =>
            && Is(IntParam(params, "id"), Some(r.id)) && Contains(FilterParam(params), r.name, like)
            && Is(TextParam(params, "name"), Some(r.name)) && TextParam(params, "userId") == Some(r.userId),
          OrderBy((r: PlaylistResult) => [Text(r.name)], [desc]),
          (r: PlaylistResult) => r.id)
  }

  lemma PlaylistsPage(db: Db, scan: seq<int>, params: map<string, string>, desc: bool, like: (string, string) -> bool)
    requires Scans(scan, db.playlist)
    ensures PagesWell(PlaylistsQuery(db, scan, params, desc, like))
    ensures "userId" !in params ==> Result(PlaylistsQuery(db, scan, params, desc, like)) == []
  {
    OrderIsOrdered((r: PlaylistResult) => [Text(r.name)], [desc]);
    var q := PlaylistsQuery(db, scan, params, desc, like);
    TablePagesWell(scan, db.playlist, (i, p: Playlist) => PlaylistResult(i, p.name, p.description, p.userId), q);
    if "userId" !in params {
      FilterSize(q.rows, q.where_);
    }
  }

  lemma PlaylistsCondition(db: Db, scan: seq<int>, params: map<string, string>, desc: bool, like: (string, string) -> bool,
                           r: PlaylistResult)
    requires Within(scan, db.playlist)
    ensures PlaylistsQuery(db, scan, params, desc, like).where_(r) <==>
            && Selects(params, "id", Some(r.id)) && Passes(params, r.name, like)
            && ("name" in params ==> r.name == params["name"])
            && "userId" in params && r.userId == params["userId"]
  {
  }

  lemma PlaylistsOrder(db: Db, scan: seq<int>, params: map<string, string>, desc: bool, like: (string, string) -> bool,
                       i: nat, j: nat)
    requires Scans(scan, db.playlist) && i < j < |Result(PlaylistsQuery(db, scan, params, desc, like))|
    ensures var r := Result(PlaylistsQuery(db, scan, params, desc, like));
            && (if desc then TextLe(r[j].name, r[i].name) else TextLe(r[i].name, r[j].name))
            && r[i].id in db.playlist
            && db.playlist[r[i].id] == Playlist(r[i].name, r[i].description, r[i].userId)
  {
    hide Result;
    OrderIsOrdered((r: PlaylistResult) => [Text(r.name)], [desc]);
    var q := PlaylistsQuery(db, scan, params, desc, like);
    ResultMeaning(q);
    var a, b := Result(q)[i], Result(q)[j];
    assert KeyLe([Text(a.name)], [Text(b.name)], [desc], 0) by {
      assert q.le(a, b);
    }
    assert a in Result(q);
    var k :| 0 <= k < |q.rows| && q.rows[k] == a;
  }

  /** The look-up before a playlist is changed finds one row exactly when the user has that playlist. */
  lemma PlaylistLookup(db: Db, scan: seq<int>, playlistId: nat, userId: string, like: (string, string) -> bool)
    requires Scans(scan, db.playlist)
    ensures var params := map["userId" := userId, "id" := N.ToString(playlistId)];
            |Page(PlaylistsQuery(db, scan, params, false, like), 1, 1)| == 1 <==>
            playlistId in db.playlist && db.playlist[playlistId].userId == userId
  {
    hide PagesWell, Result;
    var params := map["userId" := userId, "id" := N.ToString(playlistId)];
    var q := PlaylistsQuery(db, scan, params, false, like);
    N.ParseToString(playlistId);
    PlaylistsPage(db, scan, params, false, like);
    var r := Result(q);
    WellPaged(q);
    if playlistId in db.playlist && db.playlist[playlistId].userId == userId {
      var p := db.playlist[playlistId];
      var j :| 0 <= j < |scan| && scan[j] == playlistId;
      assert q.rows[j] == PlaylistResult(playlistId, p.name, p.description, p.userId);
      assert q.rows[j] in r;
    }
    if r != [] {
      var x := r[0];
      assert x in r;
      var j :| 0 <= j < |q.rows| && q.rows[j] == x;
      assert x.id == scan[j] == playlistId;
    }
  }

  lemma WellPaged<T(!new)>(q: Query<T>)
    requires PagesWell(q)
    ensures forall x :: x in Result(q) <==> x in q.rows && q.where_(x)
    ensures NoDuplicates(Result(q)) && |Page(q, 1, 1)| == if Result(q) == [] then 0 else 1
  {
  }

  datatype AlbumResult = AlbumResult(id: int, name: string, artist: Option<string>, artistId: int)

  function TextValue(text: Option<string>): Value {
    if text == None then Null else Text(text.value)
  }

  /** By artist and name, where only the name is turned round, or by name alone. */
  function AlbumKey(byName: bool): AlbumResult -> seq<Value> {
    if byName then (r: AlbumResult) => [Text(r.name)]
    else (r: AlbumResult) => [TextValue(r.artist), Text(r.name)]
  }

  function AlbumViewRow(db: Db): (int, Album) -> AlbumResult {
    (i: int, a: Album) =>
      AlbumResult(i, a.name, if a.artistId in db.artist then Some(db.artist[a.artistId]) else None, a.artistId)
  }

  function AlbumQuery(db: Db, scan: seq<int>, params: map<string, string>, desc: bool,
                      like: (string, string) -> bool): Query<AlbumResult>
    requires Within(scan, db.album)
  {
    var byName := TextParam(params, "orderby") == Some("name");
    Query(Read(scan, db.album, AlbumViewRow(db)),
          (r: AlbumResult) =>
            && Is(IntParam(params, "id"), Some(r.id)) && Is(IntParam(params, "artistId"), Some(r.artistId))
            && Contains(FilterParam(params), r.name, like),
          OrderBy(AlbumKey(byName), if byName then [desc] else [false, desc]),
          (r: AlbumResult) => r.id)
  }

  lemma AlbumViewPage(db: Db, scan: seq<int>, params: map<string, string>, desc: bool, like: (string, string) -> bool)
    requires Scans(scan, db.album)
    ensures PagesWell(AlbumQuery(db, scan, params, desc, like))
  {
    var byName := TextParam(params, "orderby") == Some("name");
    OrderIsOrdered(AlbumKey(byName), if byName then [desc] else [false, desc]);
    TablePagesWell(scan, db.album, AlbumViewRow(db), AlbumQuery(db, scan, params, desc, like));
  }

  lemma AlbumsCondition(db: Db, scan: seq<int>, params: map<string, string>, desc: bool, like: (string, string) -> bool,
                        r: AlbumResult)
    requires Within(scan, db.album)
    ensures AlbumQuery(db, scan, params, desc, like).where_(r) <==>
            && Selects(params, "id", Some(r.id)) && Selects(params, "artistId", Some(r.artistId))
            && Passes(params, r.name, like)
  {
  }

  /** The columns of an album, and its order: by name alone if that is asked for, up or down; otherwise
      by artist, and within an artist by name, up or down. */
  lemma AlbumsOrder(db: Db, scan: seq<int>, params: map<string, string>, desc: bool, like: (string, string) -> bool,
                    i: nat, j: nat)
    requires Scans(scan, db.album) && i < j < |Result(AlbumQuery(db, scan, params, desc, like))|
    ensures var r := Result(AlbumQuery(db, scan, params, desc, like));
            var a, b := r[i], r[j];
            var byName := "orderby" in params && params["orderby"] == "name";
            && a.id in db.album && db.album[a.id] == Album(a.name, a.artistId)
            && a.artist == (if a.artistId in db.artist then Some(db.artist[a.artistId]) else None)
            && (byName ==> if desc then TextLe(b.name, a.name) else TextLe(a.name, b.name))
            && (!byName ==>
                  && (a.artist == None || (b.artist.Some? && TextLe(a.artist.value, b.artist.value)))
                  && (a.artist == b.artist ==> if desc then TextLe(b.name, a.name) else TextLe(a.name, b.name)))
  {
    hide Result;
    var byName := TextParam(params, "orderby") == Some("name");
    OrderIsOrdered(AlbumKey(byName), if byName then [desc] else [false, desc]);
    var q := AlbumQuery(db, scan, params, desc, like);
    ResultMeaning(q);
    var a, b := Result(q)[i], Result(q)[j];
    var x, y := AlbumKey(byName)(a), AlbumKey(byName)(b);
    assert KeyLe(x, y, if byName then [desc] else [false, desc], 0) by {
      assert q.le(a, b);
    }
    ValueTotal(x[0], x[0]);
    assert !byName && a.artist == b.artist ==> KeyLe(x, y, [false, desc], 1);
    assert a in Result(q);
    var k :| 0 <= k < |q.rows| && q.rows[k] == a;
  }

  /** Asking for descending albums turns round the names of each artist, not the artists. */
  lemma DescendingAlbums(db: Db, scan: seq<int>, params: map<string, string>, like: (string, string) -> bool, i: nat, j: nat)
    requires Scans(scan, db.album) && TextParam(params, "orderby") != Some("name")
    requires i < j < |Result(AlbumQuery(db, scan, params, true, like))|
    ensures var r := Result(AlbumQuery(db, scan, params, true, like));
            var a, b := r[i], r[j];
            && ValueLe(TextValue(a.artist), TextValue(b.artist))
            && (a.artist == b.artist ==> TextLe(b.name, a.name))
  {
    hide Result;
    var q := AlbumQuery(db, scan, params, true, like);
    AlbumViewPage(db, scan, params, true, like);
    var a, b := Result(q)[i], Result(q)[j];
    var x, y := AlbumKey(false)(a), AlbumKey(false)(b);
    assert KeyLe(x, y, [false, true], 0) by {
      assert q.le(a, b);
    }
    ValueTotal(x[0], x[0]);
    assert a.artist == b.artist ==> KeyLe(x, y, [false, true], 1);
  }

  /** So unless it is sorted by name alone, a descending list of albums has descending artists exactly
      when all the albums that meet the condition have the same artist. */
  lemma WhenDescending(db: Db, scan: seq<int>, params: map<string, string>, like: (string, string) -> bool)
    requires Scans(scan, db.album) && TextParam(params, "orderby") != Some("name")
    ensures var r := Result(AlbumQuery(db, scan, params, true, like));
            (forall i, j :: 0 <= i < j < |r| ==> ValueLe(TextValue(r[j].artist), TextValue(r[i].artist))) <==>
            (forall x, y :: AlbumFound(db, params, like, x) && AlbumFound(db, params, like, y) ==>
                              AlbumViewRow(db)(x, db.album[x]).artist == AlbumViewRow(db)(y, db.album[y]).artist)
  {
    hide Result, ValueLe, TextValue;
    InResultOrder(db, scan, params, like);
    var r := Result(AlbumQuery(db, scan, params, true, like));
    AlbumsFound(db, scan, params, like);
    if forall i, j :: 0 <= i < j < |r| ==> r[i].artist == r[j].artist {
      forall x, y | AlbumFound(db, params, like, x) && AlbumFound(db, params, like, y)
        ensures AlbumViewRow(db)(x, db.album[x]).artist == AlbumViewRow(db)(y, db.album[y]).artist
      {
        var i :| 0 <= i < |r| && r[i] == AlbumViewRow(db)(x, db.album[x]);
        var j :| 0 <= j < |r| && r[j] == AlbumViewRow(db)(y, db.album[y]);
      }
    }
    if forall x, y :: AlbumFound(db, params, like, x) && AlbumFound(db, params, like, y) ==>
                        AlbumViewRow(db)(x, db.album[x]).artist == AlbumViewRow(db)(y, db.album[y]).artist {
      forall i, j | 0 <= i < j < |r|
        ensures r[i].artist == r[j].artist
      {
        assert r[i] in r && r[j] in r;
      }
    }
  }

  /** The album meets the condition of the query. */
  predicate AlbumFound(db: Db, params: map<string, string>, like: (string, string) -> bool, id: int) {
    && id in db.album && Is(IntParam(params, "id"), Some(id))
    && Is(IntParam(params, "artistId"), Some(db.album[id].artistId))
    && Contains(FilterParam(params), db.album[id].name, like)
  }

  lemma AlbumsFound(db: Db, scan: seq<int>, params: map<string, string>, like: (string, string) -> bool)
    requires Scans(scan, db.album)
    ensures var r := Result(AlbumQuery(db, scan, params, true, like));
            && (forall x :: AlbumFound(db, params, like, x) ==> AlbumViewRow(db)(x, db.album[x]) in r)
            && (forall a :: a in r ==> AlbumFound(db, params, like, a.id) && a == AlbumViewRow(db)(a.id, db.album[a.id]))
  {
    hide Result;
    var q := AlbumQuery(db, scan, params, true, like);
    AlbumViewPage(db, scan, params, true, like);
    forall x | AlbumFound(db, params, like, x)
      ensures AlbumViewRow(db)(x, db.album[x]) in Result(q)
    {
      var j :| 0 <= j < |scan| && scan[j] == x;
      assert q.rows[j] == AlbumViewRow(db)(x, db.album[x]);
    }
    forall a | a in Result(q)
      ensures AlbumFound(db, params, like, a.id) && a == AlbumViewRow(db)(a.id, db.album[a.id])
    {
      var j :| 0 <= j < |q.rows| && q.rows[j] == a;
      assert a == AlbumViewRow(db)(scan[j], db.album[scan[j]]);
    }
  }

  /** In terms of the result: its artists descend exactly when they are all the same. */
  lemma InResultOrder(db: Db, scan: seq<int>, params: map<string, string>, like: (string, string) -> bool)
    requires Scans(scan, db.album) && TextParam(params, "orderby") != Some("name")
    ensures var r := Result(AlbumQuery(db, scan, params, true, like));
            (forall i, j :: 0 <= i < j < |r| ==> ValueLe(TextValue(r[j].artist), TextValue(r[i].artist))) <==>
            (forall i, j :: 0 <= i < j < |r| ==> r[i].artist == r[j].artist)
  {
    hide Result, AlbumQuery;
    var r := Result(AlbumQuery(db, scan, params, true, like));
    forall i, j | 0 <= i < j < |r|
      ensures ValueLe(TextValue(r[j].artist), TextValue(r[i].artist)) <==> r[i].artist == r[j].artist
    {
      DescendingAlbums(db, scan, params, like, i, j);
      SameArtist(r[i].artist, r[j].artist);
    }
  }

  lemma SameArtist(a: Option<string>, b: Option<string>)
    requires ValueLe(TextValue(a), TextValue(b))
    ensures ValueLe(TextValue(b), TextValue(a)) <==> a == b
  {
    ValueTotal(TextValue(a), TextValue(a));
    if a.Some? && b.Some? && TextLe(b.value, a.value) {
      TextAntisymmetric(a.value, b.value);
    }
  }

  // ---------------------------------------------------------------------------------------------
  // Songs

  /** A song joined with one of its playlists, or with none. */
  datatype SongRow = SongRow(id: int, song: Song, artist: Option<string>, album: Option<string>, genre: Option<string>,
                             playlistId: Option<int>)

  function NameOf(table: map<int, string>, id: Option<int>): Option<string> {
    if id.Some? && id.value in table then Some(table[id.value]) else None
  }

  /** A row of songView. */
  function SongViewRow(db: Db, id: int, playlistId: Option<int>): (r: SongRow)
    requires id in db.song
    ensures r.id == id && r.playlistId == playlistId
  {
    var s := db.song[id];
    SongRow(id, s, NameOf(db.artist, s.artistId),
            if s.albumId.Some? && s.albumId.value in db.album then Some(db.album[s.albumId.value].name) else None,
            NameOf(db.genre, s.genreId), playlistId)
  }

  /** The rows of one song: one for each of its playlists. */
  function Memberships(db: Db, id: int, members: seq<(int, int)>): seq<SongRow>
    requires id in db.song
  {
    if members == [] then []
    else (if members[0].0 == id then [SongViewRow(db, id, Some(members[0].1))] else []) + Memberships(db, id, members[1..])
  }

  /** The rows of the join for one song: those of its playlists, or one without a playlist. */
  function RowsOfSong(db: Db, id: int, members: seq<(int, int)>): seq<SongRow>
    requires id in db.song
  {
    var rows := Memberships(db, id, members);
    if rows == [] then [SongViewRow(db, id, None)] else rows
  }

  /** songView LEFT JOIN playlistSong. */
  function Join(db: Db, scan: seq<int>, members: seq<(int, int)>): seq<SongRow>
    requires Within(scan, db.song)
  {
    if scan == [] then []
    else RowsOfSong(db, scan[0], members) + Join(db, scan[1..], members)
  }

  lemma {:induction false} MembershipsRows(db: Db, id: int, members: seq<(int, int)>)
    requires id in db.song && NoDuplicates(members)
    ensures NoDuplicates(Memberships(db, id, members))
    ensures forall r :: r in Memberships(db, id, members) <==>
              r.playlistId.Some? && (id, r.playlistId.value) in members && r == SongViewRow(db, id, r.playlistId)
  {
    if members != [] {
      MembershipsRows(db, id, members[1..]);
      assert members == [members[0]] + members[1..];
      var rest := Memberships(db, id, members[1..]);
      if members[0].0 == id {
        assert members[0] == (id, members[0].1) && members[0] !in members[1..];
        assert SongViewRow(db, id, Some(members[0].1)) !in rest;
      }
    }
  }

  /** What a row of the join is. */
  predicate Joined(db: Db, members: seq<(int, int)>, r: SongRow)
    requires r.id in db.song
  {
    && r == SongViewRow(db, r.id, r.playlistId)
    && (if r.playlistId.Some? then (r.id, r.playlistId.value) in members
        else forall j :: 0 <= j < |members| ==> members[j].0 != r.id)
  }

  lemma RowsOfSongJoined(db: Db, id: int, members: seq<(int, int)>)
    requires id in db.song && NoDuplicates(members)
    ensures NoDuplicates(RowsOfSong(db, id, members))
    ensures forall r :: r in RowsOfSong(db, id, members) ==> r.id == id && Joined(db, members, r)
    ensures forall r: SongRow :: r.id == id && Joined(db, members, r) ==> r in RowsOfSong(db, id, members)
  {
    hide SongViewRow, Memberships, NameOf;
    MembershipsRows(db, id, members);
    var rows := Memberships(db, id, members);
    if rows == [] {
      forall j | 0 <= j < |members|
        ensures members[j].0 != id
      {
        assert members[j] == (members[j].0, members[j].1);
        assert members[j].0 == id ==> SongViewRow(db, id, Some(members[j].1)) in rows;
      }
    } else {
      var m := rows[0];
      assert m in rows && (id, m.playlistId.value) in members;
    }
  }

  lemma Disjoint<T>(a: seq<T>, b: seq<T>)
    requires NoDuplicates(a) && NoDuplicates(b) && forall x :: x in a ==> x !in b
    ensures NoDuplicates(a + b) && forall x :: x in a + b <==> x in a || x in b
  {
    forall i, j | 0 <= i < j < |a + b|
      ensures (a + b)[i] != (a + b)[j]
    {
      if i < |a| <= j {
        assert a[i] in a && b[j - |a|] in b;
      }
    }
  }

  lemma {:induction false} JoinRows(db: Db, scan: seq<int>, members: seq<(int, int)>)
    requires Within(scan, db.song) && NoDuplicates(scan) && NoDuplicates(members)
    ensures NoDuplicates(Join(db, scan, members))
    ensures forall r :: r in Join(db, scan, members) <==> r.id in scan && Joined(db, members, r)
  {
    hide Joined, RowsOfSong;
    if scan != [] {
      var rows, rest := RowsOfSong(db, scan[0], members), Join(db, scan[1..], members);
      JoinRows(db, scan[1..], members);
      RowsOfSongJoined(db, scan[0], members);
      assert scan == [scan[0]] + scan[1..] && scan[0] !in scan[1..];
      assert forall r :: r in rows ==> r !in rest;
      Disjoint(rows, rest);
      assert Join(db, scan, members) == rows + rest;
    }
  }

  /** The column that orderby names; the id otherwise. */
  function SongKey(orderBy: Option<string>): SongRow -> seq<Value> {
    if orderBy == Some("title") then (r: SongRow) => [Text(r.song.title)]
    else if orderBy == Some("artist") then (r: SongRow) => [TextValue(r.artist)]
    else if orderBy == Some("album") then (r: SongRow) => [TextValue(r.album)]
    else if orderBy == Some("genre") then (r: SongRow) => [TextValue(r.genre)]
    else if orderBy == Some("duration") then (r: SongRow) => [Int(r.song.length)]
    else (r: SongRow) => [Int(r.id)]
  }

  /** The condition, but for the playlist. */
  predicate SongMeets(r: SongRow, params: map<string, string>, like: (string, string) -> bool) {
    && Is(IntParam(params, "id"), Some(r.id)) && Contains(FilterParam(params), r.song.title, like)
    && Is(IntParam(params, "artistId"), r.song.artistId) && Is(IntParam(params, "albumId"), r.song.albumId)
    && Is(IntParam(params, "genreId"), r.song.genreId)
  }

  function SongQuery(db: Db, scan: seq<int>, members: seq<(int, int)>, params: map<string, string>, desc: bool,
                     like: (string, string) -> bool): Query<SongRow>
    requires Within(scan, db.song)
  {
    Query(Join(db, scan, members),
          (r: SongRow) => SongMeets(r, params, like) && Is(IntParam(params, "playlistId"), r.playlistId),
          OrderBy(SongKey(TextParam(params, "orderby")), [desc]),
          (r: SongRow) => r.id)
  }

  lemma SongsCondition(db: Db, scan: seq<int>, members: seq<(int, int)>, params: map<string, string>, desc: bool,
                       like: (string, string) -> bool, r: SongRow)
    requires Within(scan, db.song)
    ensures SongQuery(db, scan, members, params, desc, like).where_(r) <==>
            && Selects(params, "id", Some(r.id)) && Passes(params, r.song.title, like)
            && Selects(params, "artistId", r.song.artistId) && Selects(params, "albumId", r.song.albumId)
            && Selects(params, "genreId", r.song.genreId) && Selects(params, "playlistId", r.playlistId)
  {
  }

  /** What a row of the song view says: the song, and the names of what it refers to, if they are there. */
  lemma SongColumns(db: Db, scan: seq<int>, members: seq<(int, int)>, r: SongRow)
    requires Scans(scan, db.song) && NoDuplicates(members) && r in Join(db, scan, members)
    ensures r.id in db.song && r.song == db.song[r.id]
    ensures r.artist == if r.song.artistId.Some? && r.song.artistId.value in db.artist
                        then Some(db.artist[r.song.artistId.value]) else None
    ensures r.album == if r.song.albumId.Some? && r.song.albumId.value in db.album
                       then Some(db.album[r.song.albumId.value].name) else None
    ensures r.genre == if r.song.genreId.Some? && r.song.genreId.value in db.genre
                       then Some(db.genre[r.song.genreId.value]) else None
    ensures if r.playlistId.Some? then (r.id, r.playlistId.value) in members
            else forall j :: 0 <= j < |members| ==> members[j].0 != r.id
  {
    JoinRows(db, scan, members);
  }

  /** A missing text comes first. */
  predicate TextOrMissing(a: Option<string>, b: Option<string>) {
    a == None || (b.Some? && TextLe(a.value, b.value))
  }

  /** The column that a and b are compared by. */
  predicate SongBefore(column: string, a: SongRow, b: SongRow) {
    if column == "title" then TextLe(a.song.title, b.song.title)
    else if column == "artist" then TextOrMissing(a.artist, b.artist)
    else if column == "album" then TextOrMissing(a.album, b.album)
    else if column == "genre" then TextOrMissing(a.genre, b.genre)
    else if column == "duration" then a.song.length <= b.song.length
    else a.id <= b.id
  }

  /** The order of songs: by the column that is asked for, or by id, up or down. */
  lemma SongsOrder(db: Db, scan: seq<int>, members: seq<(int, int)>, params: map<string, string>, desc: bool,
                   like: (string, string) -> bool, i: nat, j: nat)
    requires Scans(scan, db.song) && NoDuplicates(members)
    requires i < j < |Result(SongQuery(db, scan, members, params, desc, like))|
    ensures var r := Result(SongQuery(db, scan, members, params, desc, like));
            var column := if "orderby" in params then params["orderby"] else "";
            if desc then SongBefore(column, r[j], r[i]) else SongBefore(column, r[i], r[j])
  {
    hide Result, Join;
    var key := SongKey(TextParam(params, "orderby"));
    OrderIsOrdered(key, [desc]);
    var q := SongQuery(db, scan, members, params, desc, like);
    ResultMeaning(q);
    var a, b := Result(q)[i], Result(q)[j];
    assert KeyLe(key(a), key(b), [desc], 0) by {
      assert q.le(a, b);
    }
  }

  /** No song that meets the condition is in two playlists. */
  ghost predicate InOnePlaylist(db: Db, params: map<string, string>, like: (string, string) -> bool) {
    forall i, p, p' ::
      (i in db.song && SongMeets(SongViewRow(db, i, None), params, like) &&
       (i, p) in db.playlistSong && (i, p') in db.playlistSong) ==> p == p'
  }

  /** Asking for a playlist finds exactly its songs that meet the rest of the condition. */
  lemma PlaylistSongsFound(db: Db, scan: seq<int>, members: seq<(int, int)>, params: map<string, string>, desc: bool,
                           like: (string, string) -> bool, i: int)
    requires Scans(scan, db.song) && NoDuplicates(members) && forall x :: x in members <==> x in db.playlistSong
    requires IntParam(params, "playlistId").Some?
    ensures (exists r :: r in Result(SongQuery(db, scan, members, params, desc, like)) && r.id == i) <==>
            (i in db.song && (i, IntParam(params, "playlistId").value) in db.playlistSong &&
             SongMeets(SongViewRow(db, i, None), params, like))
  {
    hide Ordered, Result, OrderBy, SongKey;
    var q := SongQuery(db, scan, members, params, desc, like);
    SongRows(db, scan, members, params, desc, like);
    ResultMeaning(q);
    var p := IntParam(params, "playlistId");
    if i in db.song && (i, p.value) in db.playlistSong && SongMeets(SongViewRow(db, i, None), params, like) {
      var r := SongViewRow(db, i, p);
      assert Joined(db, members, r) && r in q.rows && q.where_(r);
    }
  }

  /** The song view pages well exactly when a playlist is asked for or no song found is in two. */
  lemma SongViewPage(db: Db, scan: seq<int>, members: seq<(int, int)>, params: map<string, string>, desc: bool,
                     like: (string, string) -> bool)
    requires Scans(scan, db.song) && NoDuplicates(members) && forall x :: x in members <==> x in db.playlistSong
    ensures PagesWell(SongQuery(db, scan, members, params, desc, like)) <==>
            IntParam(params, "playlistId").Some? || InOnePlaylist(db, params, like)
  {
    hide PagesWell, InOnePlaylist;
    if IntParam(params, "playlistId").Some? || InOnePlaylist(db, params, like) {
      SongsPageWell(db, scan, members, params, desc, like);
    } else {
      SongsRepeat(db, scan, members, params, desc, like);
    }
  }

  lemma SongRows(db: Db, scan: seq<int>, members: seq<(int, int)>, params: map<string, string>, desc: bool,
                 like: (string, string) -> bool)
    requires Scans(scan, db.song) && NoDuplicates(members)
    ensures var q := SongQuery(db, scan, members, params, desc, like);
            && Ordered(q.le) && NoDuplicates(q.rows)
            && forall r :: r in q.rows <==> r.id in db.song && Joined(db, members, r)
  {
    OrderIsOrdered(SongKey(TextParam(params, "orderby")), [desc]);
    JoinRows(db, scan, members);
  }

  lemma SongsPageWell(db: Db, scan: seq<int>, members: seq<(int, int)>, params: map<string, string>, desc: bool,
                      like: (string, string) -> bool)
    requires Scans(scan, db.song) && NoDuplicates(members) && forall x :: x in members <==> x in db.playlistSong
    requires IntParam(params, "playlistId").Some? || InOnePlaylist(db, params, like)
    ensures PagesWell(SongQuery(db, scan, members, params, desc, like))
  {
    hide Ordered, PagesWell, InOnePlaylist, Joined, SongMeets;
    var q := SongQuery(db, scan, members, params, desc, like);
    SongRows(db, scan, members, params, desc, like);
    forall x, y | x in q.rows && y in q.rows && q.where_(x) && q.where_(y) && q.id(x) == q.id(y)
      ensures x == y
    {
      SameSong(db, members, params, like, x, y);
    }
    UniquePagesWell(q);
  }

  lemma SongsRepeat(db: Db, scan: seq<int>, members: seq<(int, int)>, params: map<string, string>, desc: bool,
                    like: (string, string) -> bool)
    requires Scans(scan, db.song) && NoDuplicates(members) && forall x :: x in members <==> x in db.playlistSong
    requires IntParam(params, "playlistId") == None && !InOnePlaylist(db, params, like)
    ensures !PagesWell(SongQuery(db, scan, members, params, desc, like))
  {
    hide Ordered, Page, Slice, Result, Pages, Offset, Sorted, OrderBy, SongKey, NoDuplicates, Join;
    var q := SongQuery(db, scan, members, params, desc, like);
    SongRows(db, scan, members, params, desc, like);
    var i, p, p' :| i in db.song && SongMeets(SongViewRow(db, i, None), params, like) &&
                    (i, p) in db.playlistSong && (i, p') in db.playlistSong && p != p';
    var x, y := SongViewRow(db, i, Some(p)), SongViewRow(db, i, Some(p'));
    assert x in q.rows && y in q.rows && q.where_(x) && q.where_(y);
    UniqueResult(q);
    PagingIsSlicing(q);
  }

  lemma SameSong(db: Db, members: seq<(int, int)>, params: map<string, string>, like: (string, string) -> bool,
                 x: SongRow, y: SongRow)
    requires x.id == y.id && x.id in db.song && Joined(db, members, x) && Joined(db, members, y)
    requires forall m :: m in members <==> m in db.playlistSong
    requires SongMeets(x, params, like)
    requires Is(IntParam(params, "playlistId"), x.playlistId) && Is(IntParam(params, "playlistId"), y.playlistId)
    requires IntParam(params, "playlistId").Some? || InOnePlaylist(db, params, like)
    ensures x == y
  {
    assert SongMeets(SongViewRow(db, x.id, None), params, like);
    if x.playlistId.Some? && y.playlistId.Some? && IntParam(params, "playlistId") == None {
      assert x.playlistId.value == y.playlistId.value;
    }
    assert x.playlistId == y.playlistId;
  }
}
