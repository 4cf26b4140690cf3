/** The album record, the seed catalogue and the first-match search by ID
    that the album handlers of the web service are built on. */
module Catalogue {
  import opened Wrappers

  /** A float64 price, carried as its IEEE-754 bit pattern. The service never
      computes on prices, it only stores and echoes them, so the bit pattern
      is all the model needs. */
  datatype Price = Float64(bits: bv64)

  /** One record album. `id` is chosen by the client and is never checked for
      uniqueness or format. */
  datatype Album = Album(id: string, title: string, artist: string, price: Price)

  /** The process-wide album slice, in insertion order. */
  type Store = seq<Album>

  /** The three albums the slice holds when the process starts. */
  function Seed(): Store
  {
    [ Album("1", "Blue Train", "John Coltrane", Float64(0x404c_7eb8_51eb_851f)),      // 56.99
      Album("2", "Jeru", "Gerry Mulligan", Float64(0x4031_fd70_a3d7_0a3d)),            // 17.99
      Album("3", "Sarah Vaughan and Clifford Brown", "Sarah Vaughan",
            Float64(0x4043_feb8_51eb_851f)) ]                                          // 39.99
  }

  /** The IDs of a store, position by position. */
  function Ids(s: Store): (r: seq<string>)
    ensures |r| == |s|
    ensures forall i :: 0 <= i < |s| ==> r[i] == s[i].id
  {
    if |s| == 0 then [] else [s[0].id] + Ids(s[1..])
  }

  /** Some album of `s` has ID `id`. */
  ghost predicate HasId(s: Store, id: string)
  {
    exists i :: 0 <= i < |s| && s[i].id == id
  }

  /** `i` is the position of the first album of `s` whose ID is `id`. */
  ghost predicate IsFirstMatch(s: Store, id: string, i: int)
  {
    && 0 <= i < |s|
    && s[i].id == id
    && forall j :: 0 <= j < i ==> s[j].id != id
  }

  /** Front-to-back search for the first album whose ID equals `id`. */
  function FirstIndex(s: Store, id: string): (r: Option<nat>)
    ensures r.Some? ==> IsFirstMatch(s, id, r.value)
    ensures r.None? <==> !HasId(s, id)
  {
    if |s| == 0 then None
    else if s[0].id == id then Some(0)
    else
      match FirstIndex(s[1..], id)
      case None => None
      case Some(k) => Some(k + 1)
  }

  /** There is only one first match, so the search result is determined by
      the first-match property alone. */
  lemma FirstMatchUnique(s: Store, id: string, i: int, j: int)
    requires IsFirstMatch(s, id, i) && IsFirstMatch(s, id, j)
    ensures i == j
  {
  }

  /** The seed holds exactly the IDs "1", "2", "3", in that order, and the
      search finds each of them at its own position. */
  lemma SeedContents()
    ensures Ids(Seed()) == ["1", "2", "3"]
    ensures FirstIndex(Seed(), "1") == Some(0)
    ensures FirstIndex(Seed(), "2") == Some(1)
    ensures FirstIndex(Seed(), "3") == Some(2)
  {
    var s := Seed();
    assert IsFirstMatch(s, "1", 0);
    assert IsFirstMatch(s, "2", 1);
    assert IsFirstMatch(s, "3", 2);
  }

  /** Appending an album to the store leaves every earlier match where it
      was; only when the store had no album with that ID can the new album
      become the first match. */
  lemma {:induction false} FirstIndexAppend(s: Store, a: Album, id: string)
    ensures FirstIndex(s + [a], id) ==
              (if FirstIndex(s, id).Some? then FirstIndex(s, id)
               else if a.id == id then Some(|s|)
               else None)
  {
    if |s| == 0 {
      assert s + [a] == [a];
    } else {
      assert (s + [a])[1..] == s[1..] + [a];
      FirstIndexAppend(s[1..], a, id);
    }
  }
}
