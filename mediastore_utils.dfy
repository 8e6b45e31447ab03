/** `MediastoreUtils`: the row logic of the media-index queries. A query's
    cursor is the sequence of rows it delivers; `raisesAt` is the row at
    which reading the cursor raises (at or past the end: it does not), after
    which the method returns what it had gathered. Thumbnail loading is a
    set of track ids whose thumbnail loads; the Clock's rescheduling of the
    rest of a batch is a loop over the pending work. */
module Mediastore {
  import Py

  /** The media table's content URI. It is a Java constant outside this
      model; any base string behaves alike here. */
  const MediaTable := "content://media/external/audio/media"

  /** `id_to_uri(id)`, as the text `toString()` gives: the table URI with
      "/" and the id appended. */
  function IdToUri(id: int): (uri: string)
    ensures MediaTable + "/" <= uri
    ensures uri[|MediaTable| + 1..] == Py.IntToString(id)
  {
    MediaTable + "/" + Py.IntToString(id)
  }

  /** Distinct ids have distinct URIs. */
  lemma IdToUriInjective(a: int, b: int)
    requires IdToUri(a) == IdToUri(b)
    ensures a == b
  {
    Py.IntToStringInjective(a, b);
  }

  /** An image shown for a track or album. */
  datatype Art = NoAlbumArt | Thumbnail(trackId: int, size: int)

  // ---------------------------------------------------------------------
  // list_genres

  /** A row of the genre table; a column read as Java null is None. */
  datatype GenreRow = GenreRow(name: Py.Option<string>, id: int)

  datatype Genre = Genre(genreName: string, genreId: int)

  /** `str()` of a string column: null prints as 'None'. */
  function ColumnText(column: Py.Option<string>): string
  {
    match column
    case None => "None"
    case Some(s) => s
  }

  predicate KeepsGenre(row: GenreRow) { ColumnText(row.name) != "None" }

  /** What one row contributes: its genre, unless the name prints as 'None'. */
  function RowGenres(row: GenreRow): seq<Genre>
  {
    if KeepsGenre(row) then [Genre(ColumnText(row.name), row.id)] else []
  }

  /** The genres `list_genres` returns for a cursor read to the end. */
  function GenresOf(rows: seq<GenreRow>): (r: seq<Genre>)
    ensures |r| <= |rows|
  {
    if rows == [] then [] else RowGenres(rows[0]) + GenresOf(rows[1..])
  }

  /** No genre is named 'None', and every row with a name yields its genre. */
  lemma {:induction false} GenresOfNamed(rows: seq<GenreRow>)
    ensures forall k :: 0 <= k < |GenresOf(rows)| ==> GenresOf(rows)[k].genreName != "None"
    ensures forall i :: 0 <= i < |rows| && KeepsGenre(rows[i]) ==>
              Genre(ColumnText(rows[i].name), rows[i].id) in GenresOf(rows)
  {
    if rows != [] {
      var rest, r := rows[1..], GenresOf(rows);
      GenresOfNamed(rest);
      var h, g := RowGenres(rows[0]), GenresOf(rest);
      assert r == h + g;
      forall k | 0 <= k < |r| ensures r[k].genreName != "None" {
        if k < |h| {
          assert KeepsGenre(rows[0]) && r[k] == Genre(ColumnText(rows[0].name), rows[0].id);
        } else {
          assert r[k] == g[k - |h|];
        }
      }
      forall i | 0 <= i < |rows| && KeepsGenre(rows[i])
        ensures Genre(ColumnText(rows[i].name), rows[i].id) in r
      {
        if i > 0 {
          assert rest[i - 1] == rows[i];
        }
      }
    }
  }

  /** A single row gives its genre exactly when the name is not 'None'. */
  lemma GenresOfOne(row: GenreRow)
    ensures GenresOf([row]) == if KeepsGenre(row) then [Genre(ColumnText(row.name), row.id)] else []
  {
    assert [row][1..] == [];
  }

  /** Rows read in two parts give the genres of the first part followed by
      those of the second. With `GenresOfOne` this fixes the result: one
      genre per kept row, in cursor order, nothing else. */
  lemma {:induction false} GenresOfAppend(a: seq<GenreRow>, b: seq<GenreRow>)
    ensures GenresOf(a + b) == GenresOf(a) + GenresOf(b)
  {
    if a == [] {
      assert a + b == b;
    } else {
      assert (a + b)[0] == a[0] && (a + b)[1..] == a[1..] + b;
      GenresOfAppend(a[1..], b);
    }
  }

  /** Reading fewer rows gives a prefix of the genres: an exception part
      way through keeps what was gathered, in order. */
  lemma GenresPrefix(rows: seq<GenreRow>, k: nat)
    requires k <= |rows|
    ensures GenresOf(rows[..k]) <= GenresOf(rows)
  {
    assert rows[..k] + rows[k..] == rows;
    GenresOfAppend(rows[..k], rows[k..]);
  }

  /** `list_genres`. */
  method ListGenres(rows: seq<GenreRow>, raisesAt: nat) returns (results: seq<Genre>)
    ensures results == GenresOf(rows[..Py.Min(raisesAt, |rows|)])
  {
    results := [];
    var i := 0;
    while i < |rows| && i < raisesAt
      invariant i <= |rows| && i <= raisesAt
      invariant results == GenresOf(rows[..i])
    {
      var genreName := ColumnText(rows[i].name);
      if genreName != "None" {
        results := results + [Genre(genreName, rows[i].id)];
      }
      assert rows[..i + 1] == rows[..i] + [rows[i]];
      GenresOfAppend(rows[..i], [rows[i]]);
      GenresOfOne(rows[i]);
      i := i + 1;
    }
  }

  // ---------------------------------------------------------------------
  // list_albums_in_genre

  /** A row of the media table, sorted by album name. */
  datatype AlbumRow = AlbumRow(id: int, album: Py.Option<string>, albumId: int)

  datatype Album = Album(albumName: Py.Option<string>, albumArt: Art, albumId: int)

  /** The name row `i` is compared with: the row before it, '' for the first. */
  function PreviousAlbum(rows: seq<AlbumRow>, i: nat): Py.Option<string>
    requires i <= |rows|
  {
    if i == 0 then Py.Some("") else rows[i - 1].album
  }

  /** Row `i` is kept: its album name differs from the one before it. */
  predicate StartsRun(rows: seq<AlbumRow>, i: nat)
    requires i < |rows|
  {
    rows[i].album != PreviousAlbum(rows, i)
  }

  function AlbumOf(row: AlbumRow): Album
  {
    Album(row.album, NoAlbumArt, row.albumId)
  }

  /** The positions of the rows `list_albums_in_genre` keeps, in order. */
  function KeptAlbumRows(rows: seq<AlbumRow>): (r: seq<nat>)
    ensures forall k :: 0 <= k < |r| ==> r[k] < |rows|
  {
    if rows == [] then []
    else
      var n := |rows| - 1;
      KeptAlbumRows(rows[..n]) + (if StartsRun(rows, n) then [n] else [])
  }

  /** The kept positions increase, and a row is kept exactly when its
      album name differs from the one before it. */
  lemma {:induction false} KeptAlbumRowsExactly(rows: seq<AlbumRow>)
    ensures var r := KeptAlbumRows(rows);
            forall k, l :: 0 <= k < l < |r| ==> r[k] < r[l]
    ensures var r := KeptAlbumRows(rows);
            forall i :: 0 <= i < |rows| ==> (i in r <==> StartsRun(rows, i))
  {
    if rows != [] {
      var n := |rows| - 1;
      var front := rows[..n];
      KeptAlbumRowsExactly(front);
      assert forall i :: 0 <= i < n ==> StartsRun(front, i) == StartsRun(rows, i);
    }
  }

  /** `list_albums_in_genre`: one album per run of equal names, each with
      its position and its first row's media id for the thumbnails. */
  method ListAlbumsInGenre(rows: seq<AlbumRow>, raisesAt: nat)
    returns (results: seq<Album>, artIds: seq<(int, int)>)
    ensures var scanned := rows[..Py.Min(raisesAt, |rows|)];
            var kept := KeptAlbumRows(scanned);
            && |results| == |kept| && |artIds| == |kept|
            && forall k :: 0 <= k < |kept| ==>
                 results[k] == AlbumOf(rows[kept[k]]) && artIds[k] == (k, rows[kept[k]].id)
  {
    results, artIds := [], [];
    var previousAlbumName: Py.Option<string> := Py.Some("");
    var index := 0;
    var i := 0;
    ghost var kept: seq<nat> := [];
    while i < |rows| && i < raisesAt
      invariant i <= |rows| && i <= raisesAt
      invariant previousAlbumName == PreviousAlbum(rows, i)
      invariant kept == KeptAlbumRows(rows[..i])
      invariant index == |results| == |artIds| == |kept|
      invariant forall k :: 0 <= k < index ==>
                  kept[k] < i && results[k] == AlbumOf(rows[kept[k]]) && artIds[k] == (k, rows[kept[k]].id)
    {
      var albumName := rows[i].album;
      KeptAlbumRowsStep(rows, i);
      assert (albumName != previousAlbumName) == StartsRun(rows, i);
      if albumName != previousAlbumName {
        artIds := artIds + [(index, rows[i].id)];
        index := index + 1;
        results := results + [AlbumOf(rows[i])];
        kept := kept + [i];
        assert kept[index - 1] == i && results[index - 1] == AlbumOf(rows[i]);
      }
      previousAlbumName := albumName;
      i := i + 1;
    }
    assert i == Py.Min(raisesAt, |rows|);
  }

  /** Reading one more row keeps it exactly when it starts a run. */
  lemma KeptAlbumRowsStep(rows: seq<AlbumRow>, i: nat)
    requires i < |rows|
    ensures KeptAlbumRows(rows[..i + 1])
            == KeptAlbumRows(rows[..i]) + (if StartsRun(rows, i) then [i] else [])
  {
    var front := rows[..i + 1];
    assert front[..i] == rows[..i];
    assert StartsRun(front, i) == StartsRun(rows, i);
  }

  lemma {:induction false} SameAlbumThroughRun(rows: seq<AlbumRow>, a: nat, j: nat)
    requires a <= j < |rows|
    requires forall m :: a < m <= j ==> !StartsRun(rows, m)
    ensures rows[j].album == rows[a].album
    decreases j - a
  {
    if j > a {
      assert !StartsRun(rows, j);
      SameAlbumThroughRun(rows, a, j - 1);
    }
  }

  /** No two neighbouring albums in the result share a name. */
  lemma AdjacentAlbumsDiffer(rows: seq<AlbumRow>, k: nat)
    requires k + 1 < |KeptAlbumRows(rows)|
    ensures var kept := KeptAlbumRows(rows);
            rows[kept[k]].album != rows[kept[k + 1]].album
  {
    KeptAlbumRowsExactly(rows);
    var kept := KeptAlbumRows(rows);
    var a, b := kept[k], kept[k + 1];
    forall m | a < m <= b - 1 ensures !StartsRun(rows, m) {
      if StartsRun(rows, m) {
        assert false;
      }
    }
    SameAlbumThroughRun(rows, a, b - 1);
    assert StartsRun(rows, b);
  }

  /** The comparison starts from '': a first row with an empty album name
      is dropped. */
  lemma FirstEmptyAlbumDropped(rows: seq<AlbumRow>)
    requires |rows| > 0 && rows[0].album == Py.Some("")
    ensures 0 !in KeptAlbumRows(rows)
  {
    KeptAlbumRowsExactly(rows);
  }

  // ---------------------------------------------------------------------
  // list_tracks_in_album

  datatype TrackRow = TrackRow(id: int, title: Py.Option<string>)

  datatype Track = Track(trackName: Py.Option<string>, trackId: int)

  /** `list_tracks_in_album`: one entry per row read, in order. */
  method ListTracksInAlbum(rows: seq<TrackRow>, raisesAt: nat) returns (results: seq<Track>)
    ensures |results| == Py.Min(raisesAt, |rows|)
    ensures forall i :: 0 <= i < |results| ==> results[i] == Track(rows[i].title, rows[i].id)
  {
    results := [];
    var i := 0;
    while i < |rows| && i < raisesAt
      invariant i <= |rows| && i <= raisesAt
      invariant |results| == i
      invariant forall j :: 0 <= j < i ==> results[j] == Track(rows[j].title, rows[j].id)
    {
      results := results + [Track(rows[i].title, rows[i].id)];
      i := i + 1;
    }
  }

  // ---------------------------------------------------------------------
  // list_album_info, list_track_info, add_thumbnail

  /** The first row of an info query: a media id and two text columns. */
  datatype InfoRow = InfoRow(id: int, name: Py.Option<string>, artist: Py.Option<string>)

  /** A thumbnail load scheduled on the Clock. */
  datatype ThumbnailRequest = ThumbnailRequest(trackId: int, size: int)

  datatype Info = Info(name: Py.Option<string>, artist: Py.Option<string>,
                       thumbnail: Py.Option<ThumbnailRequest>)

  const AlbumThumbnailSize := 300
  const TrackThumbnailSize := 800

  /** The shared shape of the two info queries: read the first row only,
      schedule a thumbnail of the given size when the id read is non-zero. */
  function FirstRowInfo(rows: seq<InfoRow>, size: int): (r: Info)
    ensures rows == [] ==> r == Info(Py.Some(""), Py.Some(""), Py.None)
    ensures rows != [] ==> r.name == rows[0].name && r.artist == rows[0].artist
    ensures r.thumbnail.Some? <==> rows != [] && rows[0].id != 0
    ensures r.thumbnail.Some? ==> r.thumbnail.value == ThumbnailRequest(rows[0].id, size)
  {
    if rows == [] then Info(Py.Some(""), Py.Some(""), Py.None)
    else
      var row := rows[0];
      Info(row.name, row.artist, if row.id != 0 then Py.Some(ThumbnailRequest(row.id, size)) else Py.None)
  }

  /** `list_album_info`: album and artist of the album's first track. */
  function ListAlbumInfo(rows: seq<InfoRow>): (r: Info)
    ensures r.thumbnail.Some? ==> r.thumbnail.value.size == AlbumThumbnailSize
  {
    FirstRowInfo(rows, AlbumThumbnailSize)
  }

  /** `list_track_info`: title and artist of the track. */
  function ListTrackInfo(rows: seq<InfoRow>): (r: Info)
    ensures r.thumbnail.Some? ==> r.thumbnail.value.size == TrackThumbnailSize
  {
    FirstRowInfo(rows, TrackThumbnailSize)
  }

  /** Rows after the first are never read. */
  lemma InfoReadsFirstRowOnly(first: InfoRow, more: seq<InfoRow>, size: int)
    ensures FirstRowInfo([first] + more, size) == FirstRowInfo([first], size)
  {
  }

  /** `add_thumbnail`: the art handed to the callback; the default image
      when no thumbnail loads. */
  function AddThumbnail(request: ThumbnailRequest, loadable: set<int>): (art: Art)
    ensures art == NoAlbumArt <==> request.trackId !in loadable
    ensures art != NoAlbumArt ==> art == Thumbnail(request.trackId, request.size)
  {
    if request.trackId in loadable then Thumbnail(request.trackId, request.size) else NoAlbumArt
  }

  // ---------------------------------------------------------------------
  // add_many_thumbnails

  /** Pairs handled per scheduled round. */
  const ChunkSize := 14

  /** The `art_callback(index, texture)` calls for a list of (index, id)
      pairs: one per pair whose thumbnail loads, with the pair's own index. */
  function ThumbnailsFound(pairs: seq<(int, int)>, resolution: int, loadable: set<int>): (r: seq<(int, Art)>)
    ensures |r| <= |pairs|
  {
    if pairs == [] then []
    else FoundOne(pairs[0], resolution, loadable) + ThumbnailsFound(pairs[1..], resolution, loadable)
  }

  /** The callback for one pair, if its thumbnail loads. */
  function FoundOne(pair: (int, int), resolution: int, loadable: set<int>): seq<(int, Art)>
  {
    if pair.1 in loadable then [(pair.0, Thumbnail(pair.1, resolution))] else []
  }

  /** The callbacks are exactly the loadable pairs: each callback is a
      loaded thumbnail of a listed pair, with that pair's index, and every
      loadable pair gets one. */
  lemma {:induction false} ThumbnailsFoundExactly(pairs: seq<(int, int)>, resolution: int, loadable: set<int>)
    ensures var r := ThumbnailsFound(pairs, resolution, loadable);
            forall k :: 0 <= k < |r| ==>
              r[k].1.Thumbnail? && r[k].1.size == resolution && r[k].1.trackId in loadable
              && (r[k].0, r[k].1.trackId) in pairs
    ensures var r := ThumbnailsFound(pairs, resolution, loadable);
            forall p :: p in pairs && p.1 in loadable ==> (p.0, Thumbnail(p.1, resolution)) in r
  {
    if pairs != [] {
      var first, rest := pairs[0], pairs[1..];
      ThumbnailsFoundExactly(rest, resolution, loadable);
      assert pairs == [first] + rest;
      var one := FoundOne(first, resolution, loadable);
      var rr := ThumbnailsFound(rest, resolution, loadable);
      var r := ThumbnailsFound(pairs, resolution, loadable);
      assert r == one + rr;
      forall k | 0 <= k < |r|
        ensures r[k].1.Thumbnail? && r[k].1.size == resolution && r[k].1.trackId in loadable
                && (r[k].0, r[k].1.trackId) in pairs
      {
        if k >= |one| {
          assert r[k] == rr[k - |one|];
          assert (rr[k - |one|].0, rr[k - |one|].1.trackId) in rest;
        }
      }
      forall p | p in pairs && p.1 in loadable
        ensures (p.0, Thumbnail(p.1, resolution)) in r
      {
        if p in rest {
          assert (p.0, Thumbnail(p.1, resolution)) in rr;
        } else {
          assert p == first;
        }
      }
    }
  }

  lemma {:induction false} ThumbnailsFoundAppend(a: seq<(int, int)>, b: seq<(int, int)>,
                                                 resolution: int, loadable: set<int>)
    ensures ThumbnailsFound(a + b, resolution, loadable)
            == ThumbnailsFound(a, resolution, loadable) + ThumbnailsFound(b, resolution, loadable)
    decreases |a|
  {
    if a == [] {
      assert a + b == b;
    } else {
      assert (a + b)[0] == a[0] && (a + b)[1..] == a[1..] + b;
      ThumbnailsFoundAppend(a[1..], b, resolution, loadable);
    }
  }

  /** One pair on its own. */
  lemma ThumbnailsFoundOne(pair: (int, int), resolution: int, loadable: set<int>)
    ensures ThumbnailsFound([pair], resolution, loadable) == FoundOne(pair, resolution, loadable)
  {
    assert [pair][1..] == [];
  }

  /** `add_many_thumbnails`: handle the first 14 pairs now and hand back
      the rest for the next round. */
  method AddManyThumbnails(trackIds: seq<(int, int)>, resolution: int, loadable: set<int>)
    returns (fired: seq<(int, Art)>, attempted: seq<(int, int)>, later: seq<(int, int)>)
    ensures attempted == Py.Take(trackIds, ChunkSize)
    ensures later == Py.Drop(trackIds, ChunkSize)
    ensures fired == ThumbnailsFound(attempted, resolution, loadable)
  {
    var now := Py.Take(trackIds, ChunkSize);
    later := Py.Drop(trackIds, ChunkSize);
    fired := [];
    for i := 0 to |now|
      invariant fired == ThumbnailsFound(now[..i], resolution, loadable)
    {
      var index, tid := now[i].0, now[i].1;
      assert now[..i + 1] == now[..i] + [now[i]];
      ThumbnailsFoundAppend(now[..i], [now[i]], resolution, loadable);
      ThumbnailsFoundOne(now[i], resolution, loadable);
      if tid in loadable {
        fired := fired + [(index, Thumbnail(tid, resolution))];
      }
    }
    assert now[..|now|] == now;
    attempted := now;
  }

  /** The whole chain of rounds that one call of `add_many_thumbnails`
      starts: every pair is handled exactly once, in order, and a round is
      scheduled for each 14 pairs or part of them. */
  method ThumbnailChain(trackIds: seq<(int, int)>, resolution: int, loadable: set<int>)
    returns (fired: seq<(int, Art)>, attempted: seq<(int, int)>, rounds: nat)
    ensures attempted == trackIds
    ensures fired == ThumbnailsFound(trackIds, resolution, loadable)
    ensures |trackIds| <= ChunkSize * rounds
    ensures rounds == 1 || |trackIds| > ChunkSize * (rounds - 1)
  {
    var later;
    fired, attempted, later := AddManyThumbnails(trackIds, resolution, loadable);
    rounds := 1;
    while later != []
      invariant attempted + later == trackIds
      invariant fired == ThumbnailsFound(attempted, resolution, loadable)
      invariant rounds >= 1
      invariant later != [] ==> |attempted| == ChunkSize * rounds
      invariant later == [] ==> |attempted| <= ChunkSize * rounds
      invariant rounds == 1 || |attempted| > ChunkSize * (rounds - 1)
      decreases |later|
    {
      var f, a, rest := AddManyThumbnails(later, resolution, loadable);
      ThumbnailsFoundAppend(attempted, a, resolution, loadable);
      assert attempted + a + rest == trackIds;
      fired, attempted, later := fired + f, attempted + a, rest;
      rounds := rounds + 1;
    }
    assert attempted + [] == attempted;
  }
}
