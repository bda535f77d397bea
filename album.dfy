/**
 * The playback controller of the `Album` component: the state it keeps for
 * one album and the handlers that change it. The browser audio element is
 * reduced to what the controller drives: the loaded source, whether it was
 * told to play, and how many times its source was assigned (every
 * assignment makes the element load the track again from the start).
 * Every `setState` is an immediate field assignment.
 */
module AlbumComponent {
  import opened Wrappers
  import Catalog

  function Max(a: int, b: int): int { if a >= b then a else b }

  function Min(a: int, b: int): int { if a <= b then a else b }

  /** The track "previous" goes to: one back, clamped at the first track (no wrap-around). */
  function PrevIndex(i: nat): (j: nat)
    ensures j <= i
    ensures i > 0 ==> j == i - 1
  {
    Max(0, i - 1)
  }

  /** The track "next" goes to: one on, clamped at the last of `count` tracks (no wrap-around). */
  function NextIndex(i: nat, count: nat): (j: nat)
    requires i < count
    ensures i <= j < count
    ensures i + 1 < count ==> j == i + 1
  {
    Min(count - 1, i + 1)
  }

  /** The `Album` component. `currentIndex` stands for the `currentSong` object. */
  class Album {
    const album: Catalog.Album
    var currentIndex: nat
    var isPlaying: bool
    var currentTime: real
    var duration: Option<real>      // None: the element reports NaN
    var volume: real
    // the audio element
    var loadedSrc: string
    var audioPlaying: bool
    var loads: nat

    /** The current song is a song of the album, and the element holds its audio. */
    ghost predicate Valid()
      reads this
    {
      && currentIndex < |album.songs|
      && loadedSrc == album.songs[currentIndex].audioSrc
      && audioPlaying == isPlaying
    }

    /** Mounting for the route's `slug`: the first album with that slug, at its first song, paused. */
    constructor (albums: seq<Catalog.Album>, slug: string)
      requires Catalog.FindBySlug(albums, slug).Some?
      requires |Catalog.FindBySlug(albums, slug).value.songs| > 0
      ensures Valid()
      ensures album == Catalog.FindBySlug(albums, slug).value
      ensures currentIndex == 0 && !isPlaying
      ensures currentTime == 0.0 && volume == 0.5
      ensures duration == Some(album.songs[0].duration)
      ensures loadedSrc == album.songs[0].audioSrc && loads == 1
    {
      var found := Catalog.FindBySlug(albums, slug).value;
      album := found;
      currentIndex := 0;
      currentTime := 0.0;
      volume := 0.5;
      duration := Some(found.songs[0].duration);
      isPlaying := false;
      audioPlaying := false;
      loadedSrc := found.songs[0].audioSrc;
      loads := 1;
    }

    /** `setSong(song)`: loads the song into the element and makes it current. */
    method SetSong(k: nat)
      requires Valid() && k < |album.songs|
      modifies this
      ensures Valid()
      ensures currentIndex == k && loadedSrc == album.songs[k].audioSrc
      ensures loads == old(loads) + 1
      ensures isPlaying == old(isPlaying)
      ensures currentTime == old(currentTime) && duration == old(duration) && volume == old(volume)
    {
      loadedSrc := album.songs[k].audioSrc;
      loads := loads + 1;
      currentIndex := k;
    }

    /** `play()`. */
    method Play()
      requires Valid()
      modifies this
      ensures Valid() && isPlaying
      ensures currentIndex == old(currentIndex) && loadedSrc == old(loadedSrc) && loads == old(loads)
      ensures currentTime == old(currentTime) && duration == old(duration) && volume == old(volume)
    {
      audioPlaying := true;
      isPlaying := true;
    }

    /** `pause()`. */
    method Pause()
      requires Valid()
      modifies this
      ensures Valid() && !isPlaying
      ensures currentIndex == old(currentIndex) && loadedSrc == old(loadedSrc) && loads == old(loads)
      ensures currentTime == old(currentTime) && duration == old(duration) && volume == old(volume)
    {
      audioPlaying := false;
      isPlaying := false;
    }

    /**
     * `handleSongClick(song)` for the song at index `k`: clicking the playing
     * song pauses it; clicking the paused current song resumes it without
     * reloading; clicking another song switches to it and plays.
     */
    method HandleSongClick(k: nat)
      requires Valid() && k < |album.songs|
      modifies this
      ensures Valid()
      ensures old(isPlaying) && k == old(currentIndex) ==>
        !isPlaying && currentIndex == old(currentIndex) && loadedSrc == old(loadedSrc) && loads == old(loads)
      ensures !old(isPlaying) && k == old(currentIndex) ==>
        isPlaying && currentIndex == old(currentIndex) && loadedSrc == old(loadedSrc) && loads == old(loads)
      ensures k != old(currentIndex) ==>
        isPlaying && currentIndex == k && loadedSrc == album.songs[k].audioSrc && loads == old(loads) + 1
      ensures currentTime == old(currentTime) && duration == old(duration) && volume == old(volume)
    {
      var isSameSong := currentIndex == k;
      if isPlaying && isSameSong {
        Pause();
      } else {
        if !isSameSong {
          SetSong(k);
        }
        Play();
      }
    }

    /**
     * `handlePrevClick()`: loads the previous song (the same one at the first
     * track, which is loaded again) and plays.
     */
    method HandlePrevClick()
      requires Valid()
      modifies this
      ensures Valid() && isPlaying
      ensures currentIndex == PrevIndex(old(currentIndex))
      ensures old(currentIndex) == 0 ==> currentIndex == 0 && loadedSrc == old(loadedSrc)
      ensures old(currentIndex) > 0 ==> currentIndex == old(currentIndex) - 1
      ensures loadedSrc == album.songs[currentIndex].audioSrc && loads == old(loads) + 1
      ensures currentTime == old(currentTime) && duration == old(duration) && volume == old(volume)
    {
      var newIndex := PrevIndex(currentIndex);
      SetSong(newIndex);
      Play();
    }

    /**
     * `handleNextClick()`: loads the next song (the same one at the last
     * track, which is loaded again) and plays.
     */
    method HandleNextClick()
      requires Valid()
      modifies this
      ensures Valid() && isPlaying
      ensures currentIndex == NextIndex(old(currentIndex), |album.songs|)
      ensures old(currentIndex) == |album.songs| - 1 ==> currentIndex == old(currentIndex) && loadedSrc == old(loadedSrc)
      ensures old(currentIndex) < |album.songs| - 1 ==> currentIndex == old(currentIndex) + 1
      ensures loadedSrc == album.songs[currentIndex].audioSrc && loads == old(loads) + 1
      ensures currentTime == old(currentTime) && duration == old(duration) && volume == old(volume)
    {
      var newIndex := NextIndex(currentIndex, |album.songs|);
      SetSong(newIndex);
      Play();
    }

    /** The `timeupdate` listener: copies the element's playback position. */
    method OnTimeUpdate(elementTime: real)
      requires Valid()
      modifies this`currentTime
      ensures Valid() && currentTime == elementTime
    {
      currentTime := elementTime;
    }

    /** The `durationchange` listener: copies the element's measured duration. */
    method OnDurationChange(elementDuration: Option<real>)
      requires Valid()
      modifies this`duration
      ensures Valid() && duration == elementDuration
    {
      duration := elementDuration;
    }

    /** The `volumechange` listener: copies the element's volume. */
    method OnVolumeChange(elementVolume: real)
      requires Valid()
      modifies this`volume
      ensures Valid() && volume == elementVolume
    {
      volume := elementVolume;
    }

    /** `handleTimeChange(e)`: a seek shows its target time at once, before any `timeupdate`. */
    method HandleTimeChange(newTime: real)
      requires Valid()
      modifies this`currentTime
      ensures Valid() && currentTime == newTime
    {
      currentTime := newTime;
    }

    /** `handleVolumeChange(e)`: the new volume is shown at once, before any `volumechange`. */
    method HandleVolumeChange(newVolume: real)
      requires Valid()
      modifies this`volume
      ensures Valid() && volume == newVolume
    {
      volume := newVolume;
    }
  }

  /**
   * A session on an album of two songs, A (180 s) and B (200 s): play A from
   * the track list, skip to B, skip again at the end, seek, and toggle B.
   */
  method TwoSongSession()
  {
    var a := Catalog.Song("A", 180.0, "a.mp3");
    var b := Catalog.Song("B", 200.0, "b.mp3");
    var other := Catalog.Album("other", "Other", "X", "o.png", "", [b]);
    var first := Catalog.Album("ab", "AB", "Y", "ab.png", "2018", [a, b]);
    var twin := Catalog.Album("ab", "Twin", "Z", "t.png", "", [b]);
    var c := new Album([other, first, twin], "ab");
    assert c.album == first by {
      Catalog.FindBySlugIsFirstMatch([other, first, twin], "ab", 1);
    }
    assert c.currentIndex == 0 && !c.isPlaying && c.loadedSrc == "a.mp3";

    c.HandleSongClick(0);
    assert c.isPlaying && c.loadedSrc == "a.mp3" && c.loads == 1;

    c.HandleNextClick();
    assert c.isPlaying && c.currentIndex == 1 && c.loadedSrc == "b.mp3";

    c.HandleNextClick();
    assert c.isPlaying && c.currentIndex == 1 && c.loadedSrc == "b.mp3" && c.loads == 3;

    c.OnDurationChange(Some(200.0));
    c.HandleTimeChange(200.0 * 0.5);
    assert c.currentTime == 100.0;

    c.HandleSongClick(1);
    assert !c.isPlaying && c.currentIndex == 1 && c.loads == 3;
    c.HandleSongClick(1);
    assert c.isPlaying && c.currentIndex == 1 && c.loads == 3;

    c.HandlePrevClick();
    c.HandlePrevClick();
    assert c.isPlaying && c.currentIndex == 0 && c.loadedSrc == "a.mp3" && c.loads == 5;
    assert c.currentTime == 100.0 && c.duration == Some(200.0) && c.volume == 0.5;
  }
}
