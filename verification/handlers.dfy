/** The three album request handlers. Each takes the current album slice
    and what the request carries, and gives back the slice after the request
    together with the response the handler writes. */
module Handlers {
  import opened Wrappers
  import opened Catalogue

  const StatusOK := 200
  const StatusCreated := 201
  const StatusNotFound := 404

  /** The message of the not-found response of the lookup by ID. */
  const AlbumNotFound := "album not found"

  /** What an indented-JSON response carries. */
  datatype Body =
    | AlbumArray(albums: seq<Album>)
    | OneAlbum(album: Album)
    | Message(message: string)

  /** The response a handler writes: a status with a JSON body, or nothing at
      all when the handler returns before writing. */
  datatype Response =
    | IndentedJson(status: int, body: Body)
    | NoResponse

  /** The album slice after a request, and the response to it. */
  datatype Outcome = Outcome(store: Store, response: Response)

  /** GET /albums: the whole slice, in insertion order, with status 200. */
  function GetAlbums(s: Store): (o: Outcome)
    ensures o.store == s
    ensures o.response.IndentedJson? && o.response.status == StatusOK
    ensures o.response.body.AlbumArray?
    ensures |o.response.body.albums| == |s|
    ensures forall i :: 0 <= i < |s| ==> o.response.body.albums[i] == s[i]
  {
    Outcome(s, IndentedJson(StatusOK, AlbumArray(s)))
  }

  /** POST /albums. `bound` is the album the JSON body binds to, or None when
      the body does not bind; in that case the handler returns at once and
      neither the slice nor the response is touched. */
  function PostAlbums(s: Store, bound: Option<Album>): (o: Outcome)
    ensures bound.None? ==> o.store == s && o.response.NoResponse?
    ensures bound.Some? ==>
      && |o.store| == |s| + 1
      && (forall i :: 0 <= i < |s| ==> o.store[i] == s[i])
      && o.store[|s|] == bound.value
      && o.response == IndentedJson(StatusCreated, OneAlbum(bound.value))
  {
    match bound
    case None => Outcome(s, NoResponse)
    case Some(a) => Outcome(s + [a], IndentedJson(StatusCreated, OneAlbum(a)))
  }

  /** GET /albums/:id: the first album of the slice whose ID is `id`, with
      status 200, or status 404 with the message "album not found" exactly
      when no album has that ID. The slice is never changed. */
  function GetAlbumByID(s: Store, id: string): (o: Outcome)
    ensures o.store == s
    ensures o.response.IndentedJson?
    ensures o.response.status == StatusNotFound <==> !HasId(s, id)
    ensures !HasId(s, id) ==> o.response.body == Message(AlbumNotFound)
    ensures HasId(s, id) ==>
      && o.response.status == StatusOK
      && o.response.body.OneAlbum?
      && exists i :: IsFirstMatch(s, id, i) && o.response.body.album == s[i]
  {
    match FirstIndex(s, id)
    case None => Outcome(s, IndentedJson(StatusNotFound, Message(AlbumNotFound)))
    case Some(i) => Outcome(s, IndentedJson(StatusOK, OneAlbum(s[i])))
  }

  /** The lookup handler's loop as written: walk the slice front to back and
      respond with the first album whose ID matches, or with not-found once
      the walk is over. It gives the same response as `GetAlbumByID`. */
  method ScanAlbums(s: Store, id: string) returns (r: Response)
    ensures r == GetAlbumByID(s, id).response
  {
    var i := 0;
    while i < |s|
      invariant 0 <= i <= |s|
      invariant forall j :: 0 <= j < i ==> s[j].id != id
    {
      if s[i].id == id {
        ghost var k := FirstIndex(s, id).value;
        FirstMatchUnique(s, id, i, k);
        return IndentedJson(StatusOK, OneAlbum(s[i]));
      }
      i := i + 1;
    }
    return IndentedJson(StatusNotFound, Message(AlbumNotFound));
  }

  /** Creating album `a` and then looking up `a.id` gives back `a` when no
      earlier album had that ID, and otherwise the earliest such album: IDs
      are not unique, so an older album shadows the new one. */
  lemma LookupAfterCreate(s: Store, a: Album)
    ensures var after := PostAlbums(s, Some(a)).store;
            var r := GetAlbumByID(after, a.id).response;
            && r.status == StatusOK
            && (!HasId(s, a.id) ==> r.body == OneAlbum(a))
            && (HasId(s, a.id) ==>
                  exists i :: IsFirstMatch(s, a.id, i) && r.body == OneAlbum(s[i]))
  {
    FirstIndexAppend(s, a, a.id);
  }

  /** The lookup answers with the created album itself exactly when no
      earlier album carried its ID or the earliest one that did is equal to
      it. */
  lemma LookupAfterCreateReturnsIt(s: Store, a: Album)
    ensures GetAlbumByID(PostAlbums(s, Some(a)).store, a.id).response.body == OneAlbum(a)
            <==> (!HasId(s, a.id) || s[FirstIndex(s, a.id).value] == a)
  {
    FirstIndexAppend(s, a, a.id);
  }

  /** A concrete case of the shadowing: posting a new album with ID "1" to the
      seed and looking "1" up still answers with "Blue Train". */
  lemma DuplicateIdShadowed()
    ensures var a := Album("1", "Giant Steps", "John Coltrane", Float64(0x4040_0000_0000_0000));
            var r := GetAlbumByID(PostAlbums(Seed(), Some(a)).store, "1").response;
            && r.body == OneAlbum(Seed()[0])
            && r.body != OneAlbum(a)
  {
    var a := Album("1", "Giant Steps", "John Coltrane", Float64(0x4040_0000_0000_0000));
    SeedContents();
    FirstIndexAppend(Seed(), a, "1");
  }
}
