/** The album routes of the service, served one request at a time against
    the process-wide slice that starts as the seed. */
module Server {
  import opened Wrappers
  import opened Catalogue
  import opened Handlers

  /** An album request as the router hands it to a handler: the path
      parameter of the lookup, or the result of binding the body of a post. */
  datatype Request =
    | ListAlbums
    | LookupAlbum(id: string)
    | CreateAlbum(bound: Option<Album>)

  /** Dispatch one request to its handler: the list request to the listing,
      the lookup to the first-match search, the post to the append. */
  function Handle(s: Store, req: Request): (o: Outcome)
    ensures !req.CreateAlbum? ==> o.store == s
    ensures req.ListAlbums? ==> o.response == IndentedJson(StatusOK, AlbumArray(s))
    ensures req.LookupAlbum? ==>
      && o.response.IndentedJson?
      && (o.response.status == StatusNotFound <==> !HasId(s, req.id))
      && (!HasId(s, req.id) ==> o.response.body == Message(AlbumNotFound))
      && (HasId(s, req.id) ==>
            && o.response.status == StatusOK
            && o.response.body.OneAlbum?
            && exists i :: IsFirstMatch(s, req.id, i) && o.response.body.album == s[i])
    ensures req.CreateAlbum? && req.bound.None? ==> o.store == s && o.response.NoResponse?
    ensures req.CreateAlbum? && req.bound.Some? ==>
      && o.store == s + [req.bound.value]
      && o.response == IndentedJson(StatusCreated, OneAlbum(req.bound.value))
  {
    match req
    case ListAlbums => GetAlbums(s)
    case LookupAlbum(id) => GetAlbumByID(s, id)
    case CreateAlbum(bound) => PostAlbums(s, bound)
  }

  /** Serve `reqs` in order from slice `s`: the final slice and one response
      per request. */
  function Serve(s: Store, reqs: seq<Request>): (r: (Store, seq<Response>))
    ensures |r.1| == |reqs|
    decreases |reqs|
  {
    if |reqs| == 0 then (s, [])
    else
      var o := Handle(s, reqs[0]);
      var rest := Serve(o.store, reqs[1..]);
      (rest.0, [o.response] + rest.1)
  }

  /** The albums whose post bodies bound, in request order. */
  function Posted(reqs: seq<Request>): (r: seq<Album>)
    ensures |r| <= |reqs|
    ensures forall i :: 0 <= i < |r| ==> CreateAlbum(Some(r[i])) in reqs
    decreases |reqs|
  {
    if |reqs| == 0 then []
    else if reqs[0].CreateAlbum? && reqs[0].bound.Some? then [reqs[0].bound.value] + Posted(reqs[1..])
    else Posted(reqs[1..])
  }

  /** Serving one more request continues from the slice the earlier ones
      left behind: its response is the handler's answer on that slice, and
      the responses already given are kept. */
  lemma {:induction false} ServeStep(s: Store, reqs: seq<Request>, req: Request)
    ensures var before := Serve(s, reqs);
            var o := Handle(before.0, req);
            Serve(s, reqs + [req]) == (o.store, before.1 + [o.response])
    decreases |reqs|
  {
    if |reqs| == 0 {
      assert reqs + [req] == [req];
      var o := Handle(s, req);
      assert [req][1..] == [];
      assert Serve(o.store, []) == (o.store, []);
      assert [o.response] + [] == [] + [o.response];
    } else {
      var first := Handle(s, reqs[0]);
      assert (reqs + [req])[1..] == reqs[1..] + [req];
      ServeStep(first.store, reqs[1..], req);
      var rest := Serve(first.store, reqs[1..]);
      var o := Handle(rest.0, req);
      assert [first.response] + (rest.1 + [o.response])
          == ([first.response] + rest.1) + [o.response];
    }
  }

  /** The slice only grows at its end: after any run of requests it is the
      starting slice followed by the posted albums, in the order posted. */
  lemma {:induction false} ServeAppendsOnly(s: Store, reqs: seq<Request>)
    ensures Serve(s, reqs).0 == s + Posted(reqs)
    decreases |reqs|
  {
    if |reqs| > 0 {
      var o := Handle(s, reqs[0]);
      ServeAppendsOnly(o.store, reqs[1..]);
      if reqs[0].CreateAlbum? && reqs[0].bound.Some? {
        assert s + Posted(reqs) == o.store + Posted(reqs[1..]);
      } else {
        assert o.store == s;
      }
    }
  }

  /** Only successful posts change the slice: a run of requests with no
      bound post body leaves it as it was. */
  lemma ServeWithoutPostsKeepsStore(s: Store, reqs: seq<Request>)
    requires forall k :: 0 <= k < |reqs| ==> !(reqs[k].CreateAlbum? && reqs[k].bound.Some?)
    ensures Serve(s, reqs).0 == s
  {
    PostedEmpty(reqs);
    ServeAppendsOnly(s, reqs);
  }

  lemma {:induction false} PostedEmpty(reqs: seq<Request>)
    requires forall k :: 0 <= k < |reqs| ==> !(reqs[k].CreateAlbum? && reqs[k].bound.Some?)
    ensures Posted(reqs) == []
    decreases |reqs|
  {
    if |reqs| > 0 {
      PostedEmpty(reqs[1..]);
    }
  }

  /** Listing right after start-up answers with the three seed albums, in
      seed order. */
  lemma ListAtStartup()
    ensures var r := Handle(Seed(), ListAlbums).response;
            && r == IndentedJson(StatusOK, AlbumArray(Seed()))
            && Ids(r.body.albums) == ["1", "2", "3"]
  {
    SeedContents();
  }

  /** After any run of requests from start-up, a list request answers 200
      with the seed followed by every album posted so far, in posting order. */
  lemma ListAfterRun(reqs: seq<Request>)
    ensures Serve(Seed(), reqs + [ListAlbums]).1[|reqs|]
              == IndentedJson(StatusOK, AlbumArray(Seed() + Posted(reqs)))
  {
    ServeAppendsOnly(Seed(), reqs);
    ServeStep(Seed(), reqs, ListAlbums);
  }

  /** After any run of requests from start-up, a lookup of an ID that is
      neither a seed ID nor the ID of any posted album answers 404 with the
      message "album not found", never anything else. */
  lemma UnknownIdNotFound(reqs: seq<Request>, id: string)
    requires !HasId(Seed(), id)
    requires forall k :: 0 <= k < |Posted(reqs)| ==> Posted(reqs)[k].id != id
    ensures Serve(Seed(), reqs + [LookupAlbum(id)]).1[|reqs|]
              == IndentedJson(StatusNotFound, Message(AlbumNotFound))
  {
    ServeAppendsOnly(Seed(), reqs);
    ServeStep(Seed(), reqs, LookupAlbum(id));
    var s := Seed() + Posted(reqs);
    forall i | 0 <= i < |s|
      ensures s[i].id != id
    {
      if i >= |Seed()| {
        assert s[i] == Posted(reqs)[i - |Seed()|];
      } else {
        assert s[i] == Seed()[i];
      }
    }
  }

  /** After any run of requests from start-up, a lookup of the ID of an
      album that was posted always answers 200 with an album of that ID. */
  lemma PostedIdFound(reqs: seq<Request>, k: int)
    requires 0 <= k < |Posted(reqs)|
    ensures var r := Serve(Seed(), reqs + [LookupAlbum(Posted(reqs)[k].id)]).1[|reqs|];
            && r.IndentedJson? && r.status == StatusOK
            && r.body.OneAlbum? && r.body.album.id == Posted(reqs)[k].id
  {
    ServeAppendsOnly(Seed(), reqs);
    ServeStep(Seed(), reqs, LookupAlbum(Posted(reqs)[k].id));
    var s := Seed() + Posted(reqs);
    assert s[|Seed()| + k] == Posted(reqs)[k];
  }
}
