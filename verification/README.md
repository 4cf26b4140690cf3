# Album catalogue of web-service-gin, in Dafny

The service keeps a catalogue of record albums in one process-wide slice. The
slice starts with three seed albums, and three HTTP handlers serve it:

- `GET /albums` lists every album in insertion order.
- `POST /albums` binds the JSON body to an album, appends it and echoes it
  back with status 201. If the body does not bind, the handler returns
  without writing anything.
- `GET /albums/:id` walks the slice front to back. It answers with the first
  album whose ID equals the path parameter (status 200). If no album has that
  ID, it answers 404 with `{"message": "album not found"}`.

Album IDs are chosen by the client and never checked for uniqueness. So the
real contract of the lookup is "first match". A lookup after a create does not
always return the new album: an older album with the same ID shadows it.

The model is functional. The slice is a `seq<Album>`. Each handler is a pure
function from the current slice and the request's input to an `Outcome`,
which holds the slice after the request and the response written. A response
is `IndentedJson(status, body)` or `NoResponse`.

- `wrappers.dfy` (module `Wrappers`): `Option`.
- `catalogue.dfy` (module `Catalogue`): the album record, the seed and the
  first-match search `FirstIndex`.
- `handlers.dfy` (module `Handlers`): the three handlers. It also holds
  `ScanAlbums`, the lookup loop as the source writes it, proved to agree with
  `GetAlbumByID`.
- `server.dfy` (module `Server`): serving a sequence of album requests from
  start-up, and what that means for the slice and later lookups.

A price is a Go `float64` that is only stored and echoed, never computed on.
It is carried as its IEEE-754 bit pattern (`Price.Float64(bits: bv64)`). The
seed prices 56.99, 17.99 and 39.99 are written as their bit patterns.

One might expect that looking up `a.ID` right after creating `a` returns `a`.
The code does not guarantee this when an earlier album already has the ID
`a.ID`.
`Handlers.LookupAfterCreate` and `Handlers.LookupAfterCreateReturnsIt` state
exactly when the new album comes back. `Handlers.DuplicateIdShadowed` gives a
concrete case against the seed.

## Model

| member | source | states |
|---|---|---|
| Catalogue.SeedContents | main.go:33-37 | the initial slice holds exactly the IDs "1", "2", "3" in that order, and each is found at its own position |
| Catalogue.FirstIndex | main.go:152-157 | the search result, when present, is a position whose album has the queried ID with no earlier album having it; it is absent exactly when no album has the ID |
| Catalogue.FirstMatchUnique | main.go:152-156 | two positions that are both the first match for one ID are the same position |
| Catalogue.FirstIndexAppend | main.go:141-157 | after appending an album, an existing first match stays put; the new album becomes the first match only if no earlier album had its ID |
| Handlers.GetAlbums | main.go:126-128 | listing leaves the slice unchanged and answers 200 with every album, position by position, in insertion order |
| Handlers.PostAlbums | main.go:131-143 | a failed bind leaves the slice unchanged and writes no response; a bound album grows the slice by one at its end, keeps every earlier album at its index, and is echoed with status 201 |
| Handlers.GetAlbumByID | main.go:147-159 | the lookup never changes the slice; it answers 404 with "album not found" exactly when no album has the ID, and otherwise 200 with the first album that has it |
| Handlers.ScanAlbums | main.go:152-158 | the front-to-back loop with early return gives the same response as the first-match lookup |
| Handlers.LookupAfterCreate | main.go:141-156 | after creating `a`, looking up `a.id` succeeds; it returns `a` if no earlier album had that ID, and otherwise the earliest album that did |
| Handlers.LookupAfterCreateReturnsIt | main.go:141-156 | after creating `a`, looking up `a.id` returns `a` if and only if no earlier album had that ID or the earliest one that did equals `a` |
| Handlers.DuplicateIdShadowed | main.go:141-156 | posting a new album with ID "1" to the seed and then looking up "1" still returns "Blue Train", not the new album |
| Server.Handle | main.go:49-51 | a list request answers 200 with the whole slice; a lookup answers 404 "album not found" exactly when no album has the ID and otherwise 200 with the first match; a bound post appends the album and echoes it with 201, an unbound one changes nothing and writes nothing; list and lookup never change the slice |
| Server.ServeStep | main.go:126-159 | every request of a run is answered by its handler on the slice that the earlier requests left behind, and the earlier responses are kept |
| Server.ServeAppendsOnly | main.go:141 | after any run of requests, the slice is the starting slice followed by the successfully posted albums, in posting order |
| Server.ServeWithoutPostsKeepsStore | main.go:126-158 | a run of requests with no successfully bound post leaves the slice unchanged |
| Server.ListAtStartup | main.go:126-128 | listing right after start-up answers 200 with the three seed albums, IDs "1", "2", "3", in seed order |
| Server.ListAfterRun | main.go:126-141 | after any run of requests from start-up, the response served to a following list request is 200 with the seed followed by every posted album in posting order |
| Server.UnknownIdNotFound | main.go:152-158 | after any run from start-up, the response served to a lookup of an ID that no seed or posted album has is 404 "album not found" |
| Server.PostedIdFound | main.go:141-156 | after any run from start-up, the response served to a lookup of the ID of any posted album is 200 with an album that has that ID |

## Left out

- Tweet handlers `postTweets`, `getTweets`, `getTweetsByID` (main.go:59-123): they pass data straight through to a Cassandra session. Query execution, scanning, consistency levels and time-based UUID generation happen in the database driver, which is not part of this model.
- Process start-up in `main` (main.go:39-57): cluster and session setup and the HTTP listener are I/O. `Server.Handle` only sends each kind of album request to its handler. Matching the URL path and extracting `c.Param("id")` (main.go:148) are not modelled.
- Server.Handle: a lookup accepts any `string` as its ID. The router only delivers a non-empty path segment without '/', so for an album posted with ID "" or "a/b", `GET /albums/<id>` does not reach the lookup handler at all. `Server.PostedIdFound` and `Handlers.LookupAfterCreate` hold for the handler given its parameter, not for such URLs.
- IDs are Dafny `string`s, that is, sequences of characters. Go compares IDs as byte strings. A percent-decoded path parameter that is not valid UTF-8 has no counterpart in the model.
- JSON binding and serialisation: binding a request body is an `Option<Album>` input, and `None` means the bind failed. The status that the framework's bind helper records on failure is framework behaviour. The handler itself writes nothing, which is what `NoResponse` stands for.
- Concurrency: the slice is shared across concurrent requests without a lock. The model serves requests one at a time.
- Floating-point semantics of `Price`: prices are carried as bit patterns because the code does no arithmetic or comparison on them.
- Console logging.
