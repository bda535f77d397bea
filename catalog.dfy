/**
 * The static album catalog the component reads, and the lookup of an album
 * by its URL slug (`albumData.find(album => album.slug === slug)`).
 */
module Catalog {
  import opened Wrappers

  /** A track of an album: its title, declared duration in seconds and audio file. */
  datatype Song = Song(title: string, duration: real, audioSrc: string)

  /** A catalog entry; the order of `songs` is the playback order. */
  datatype Album = Album(
    slug: string,
    title: string,
    artist: string,
    albumCover: string,
    releaseInfo: string,
    songs: seq<Song>)

  /**
   * `Array.prototype.find`: the first album whose slug equals `slug`,
   * or `None` (JavaScript's `undefined`) when no album has that slug.
   */
  function FindBySlug(albums: seq<Album>, slug: string): (r: Option<Album>)
    ensures r.None? <==> forall i :: 0 <= i < |albums| ==> albums[i].slug != slug
    ensures r.Some? ==> r.value in albums && r.value.slug == slug
    decreases |albums|
  {
    if |albums| == 0 then None
    else if albums[0].slug == slug then Some(albums[0])
    else FindBySlug(albums[1..], slug)
  }

  /** The album found is the FIRST one with the slug: later matches are never chosen. */
  lemma {:induction false} FindBySlugIsFirstMatch(albums: seq<Album>, slug: string, i: nat)
    requires i < |albums| && albums[i].slug == slug
    requires forall j :: 0 <= j < i ==> albums[j].slug != slug
    ensures FindBySlug(albums, slug) == Some(albums[i])
    decreases i
  {
    if i > 0 {
      assert albums[1..][i - 1] == albums[i];
      forall j | 0 <= j < i - 1
        ensures albums[1..][j].slug != slug
      {
        assert albums[1..][j] == albums[j + 1];
      }
      FindBySlugIsFirstMatch(albums[1..], slug, i - 1);
    }
  }
}
