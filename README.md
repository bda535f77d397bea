# Album playback controller, modelled in Dafny

This project models the playback controller of the `Album` component of a React music-album widget (bloc-jams-react). The model covers:

- the lookup of the album by its URL slug in the static catalog;
- the state the component keeps for that album: the current song, the playing flag, and the current time, duration and volume;
- the handlers that change that state: song-row clicks, previous/next, seeking, volume, and the audio element's three notifications;
- the `formatTime` rendering of times as `minutes:seconds`.

Files:

- `wrappers.dfy`: `Option`. `None` stands for JavaScript's `undefined` (no album found) and for `NaN` (a time or duration not known yet).
- `catalog.dfy`: the `Song` and `Album` records and `FindBySlug`, which is `albumData.find(...)`.
- `time_format.dfy`: `FormatTime`, with the JavaScript arithmetic written out. `Math.floor` is `.Floor`. The `%` on numbers truncates toward zero. Integers are rendered in decimal with a leading `-` when negative. The module also has `ParseClock`, a reader that turns a label back into whole seconds. It serves as the inverse used to prove that labels of different whole-second times differ.
- `album.dfy`: the class `AlbumComponent.Album`, which is the component. `currentIndex` stands for the `currentSong` object: the source compares songs by object identity, and that becomes index equality here. The audio element is reduced to three fields:
  - `loadedSrc`: its `src`;
  - `audioPlaying`: whether it was last told to play or to pause;
  - `loads`: how many times `src` has been assigned. Each assignment makes the browser load the track again from the start, so `loads` tells "the source was not touched" apart from "the same source was assigned again".

  The object invariant `Valid()` has three parts. The current index is a song of the album. The element holds that song's audio. The element's playing state agrees with `isPlaying`. Every handler requires and preserves it. `TwoSongSession` is a client that walks the two-song scenario (play A, next, next at the end, seek, toggle, previous twice) and asserts the state after each step.

Selecting the song that is already current does not reload it only in `handleSongClick`, which skips `setSong` for the same song. `setSong` itself always assigns `src`, and `handlePrevClick` / `handleNextClick` call it even when the clamped index equals the current one. So at the first or last track the source is loaded again (`loads` grows by one), and the track restarts.

## Model

| member | source | states |
|---|---|---|
| Catalog.FindBySlug | src/components/Album.js:10-12 | the result is `None` exactly when no album has the slug; otherwise it is an album of the catalog with that slug |
| Catalog.FindBySlugIsFirstMatch | src/components/Album.js:10-12 | when album `i` is the first with the slug, the lookup returns album `i`: earlier non-matches are skipped and later matches are never chosen |
| AlbumComponent.Album.constructor | src/components/Album.js:10-24 | on mount, the first album with the slug (assumed to exist, with at least one song) is selected, at song 0, paused, time 0, volume 0.5, duration the song's declared duration, and the element loaded once with song 0's audio; the invariant holds |
| AlbumComponent.Album.SetSong | src/components/Album.js:51-54 | the element's source is assigned the song's audio (one more load) and the song becomes current; the playing flag, time, duration and volume are unchanged; the invariant is kept |
| AlbumComponent.Album.Play | src/components/Album.js:56-59 | the element is told to play and `isPlaying` becomes true; song, source and loads are unchanged |
| AlbumComponent.Album.Pause | src/components/Album.js:61-64 | the element is told to pause and `isPlaying` becomes false; song, source and loads are unchanged |
| AlbumComponent.Album.HandleSongClick | src/components/Album.js:66-74 | clicking the current song while playing only pauses (same song, same source, no reload); clicking it while paused plays without reloading; clicking another song loads it, makes it current and plays; time, duration and volume untouched; the invariant is kept |
| AlbumComponent.PrevIndex | src/components/Album.js:78 | the previous index, `Math.max(0, i - 1)`: one back, and 0 stays 0 (no wrap-around) |
| AlbumComponent.NextIndex | src/components/Album.js:86 | the next index, `Math.min(len - 1, i + 1)`: stays in range, one on, and the last index stays put (no wrap-around) |
| AlbumComponent.Album.HandlePrevClick | src/components/Album.js:76-82 | moves to the previous index (stays at 0 at the first song), assigns that song's source again in every case, and ends playing; time, duration and volume untouched |
| AlbumComponent.Album.HandleNextClick | src/components/Album.js:84-90 | moves to the next index (stays at the last song at the end), assigns that song's source again in every case, and ends playing; time, duration and volume untouched |
| AlbumComponent.Album.OnTimeUpdate | src/components/Album.js:29-31 | the `timeupdate` listener writes the element's position into `currentTime` and no other field |
| AlbumComponent.Album.OnDurationChange | src/components/Album.js:32-34 | the `durationchange` listener writes the element's duration (possibly unknown) into `duration` and no other field |
| AlbumComponent.Album.OnVolumeChange | src/components/Album.js:35-37 | the `volumechange` listener writes the element's volume into `volume` and no other field |
| AlbumComponent.Album.HandleTimeChange | src/components/Album.js:92-96 | a seek mirrors its target time into `currentTime` at once and changes no other field |
| AlbumComponent.Album.HandleVolumeChange | src/components/Album.js:111-115 | a volume change mirrors the new volume into `volume` at once and changes no other field |
| TimeFormat.FormatTime | src/components/Album.js:98-108 | the label is the placeholder `-:--` exactly when the time is unknown; a known time never renders as the placeholder |
| TimeFormat.FormatTimeOfNonNegative | src/components/Album.js:98-108 | for a known time `t >= 0` the label is the whole minutes of `t` (not wrapped into hours), a colon, and the seconds within the minute as exactly two digits, zero-padded below ten |
| TimeFormat.ParseFormatTime | src/components/Album.js:98-108 | reading the label of a known time `t >= 0` back gives `floor(t)` seconds |
| TimeFormat.FormatTimeSeparatesSeconds | src/components/Album.js:98-108 | two known non-negative times get the same label exactly when they have the same whole seconds |
| TimeFormat.FormatTimeExamplesShort | src/components/Album.js:98-108 | unknown gives `-:--`, 5 gives `0:05`, 9.5 gives `0:09` |
| TimeFormat.FormatTimeExamplesMinutes | src/components/Album.js:98-108 | 65 gives `1:05`, 161.71 gives `2:41` |
| TimeFormat.FormatTimeExamplesLong | src/components/Album.js:98-108 | 600 gives `10:00`, 3725 gives `62:05` (minutes past 59, no hours field) |

## Left out

- `render` (the JSX, the styles, the `isHovered` row index, the `PlayerBar` props): presentation only.
- `componentDidMount` / `componentWillUnmount`: registering and removing the three listeners, and clearing `src` at unmount. They are lifecycle wiring of the browser element. The listeners' bodies are modelled as `OnTimeUpdate`, `OnDurationChange` and `OnVolumeChange`.
- The element's own behaviour: `document.createElement`, the asynchronous `play()` / `pause()` (and their failures, which the component does not observe), and the element's currentTime, duration and volume. The notification handlers receive the element's reported value as a parameter.
- AlbumComponent.Album.HandleTimeChange: the target `audioElement.duration * e.target.value`, a product of floating-point numbers, is passed in already computed. The write to the element's `currentTime` is not modelled. One error path is not modelled either. When the element's duration is NaN, the product is NaN, and assigning it to the element's `currentTime` throws a TypeError before the `setState`, so `currentTime` keeps its old value. A `newTime: real` cannot express that case.
- AlbumComponent.Album.HandleVolumeChange: the raw slider value is a string in the source. Here it is a real. The write to the element's `volume` is not modelled.
- `findIndex` in `handlePrevClick` / `handleNextClick` is not modelled. The index of the current song is kept directly. This matches the source only under an assumption: every song of the album is a distinct object. The catalog file is outside this model, so this is assumed, not shown. The same assumption lets `k == currentIndex` in `HandleSongClick` stand for the object-identity test `this.state.currentSong === song`. Under the invariant, `findIndex` cannot return `-1`.
- AlbumComponent.Album.constructor: a slug with no album, or an album with no songs, makes the source throw a TypeError at mount. The model treats both as preconditions instead of modelling the error.
- `FormatTime` uses exact real arithmetic. Not modelled: floating-point rounding, `Infinity`, `-0`, and the exponent notation JavaScript uses for numbers of 1e21 and above.
- `setState` batching and re-rendering: each `setState` is an immediate assignment.
- src/data/albums.js is not part of this model. A song's declared duration is taken to be a number of seconds.
