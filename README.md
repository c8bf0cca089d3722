# spotifyAPI typed wrappers, modelled in Dafny

The library wraps JSON payloads returned by the Spotify Web API in typed
objects. A base `SpotifyObject` accepts a decoded payload (a Python `dict`)
only when its `"type"` field equals the tag the caller expects. It raises
`ValueError("JSON is not for a <tag>")` when the field holds another value
and `ValueError("Invalid JSON")` when the key is missing. `Track` (tag
`"track"`) and `Album` (tag `"album"`) fix the tag. Their accessors read
fields of the stored payload: `len()` is a track's `duration_ms` or an
album's `total_tracks`; a track also has `name`, `artists` (the artists'
names in payload order), `explicit`, and `minutes`/`seconds`, the
minute:second split of its duration; an album has `name` and `release_date`.

Files:

- `json.dfy`, module `Json`: the decoded JSON value, `Payload` (a JSON
  object as `map<string, Json>`), and typed field lookups.
- `spot_py.dfy`, module `SpotPy`: the error type and its messages, the
  validating constructors, and the `Track` and `Album` datatypes with their
  accessors as member functions.
- `spot_py_properties.dfy`, module `SpotPyProperties`: lemmas that relate
  several members.

Objects are immutable datatypes. The class's own code sets `raw_json` once,
in `__init__`, and never writes it again. Because every accessor is a
function of the datatype value, no accessor can change the stored payload.
The payload is treated as a value fixed at construction; "## Left out" says
what this does not capture. The object
keeps only `raw_json`; it does not store the expected tag, which on success
is the payload's own `"type"` field. A constructor's `Err` result stands for
the raised `ValueError`. Accessors on a malformed payload raise `KeyError`;
the model excludes these by preconditions. Each field accessor requires its
field to exist and to have the type its Python return annotation names. For
`artists`, whose annotation is only `list`, every entry must be an object
with a string `"name"`.

## Model

| member | source | states |
|---|---|---|
| `SpotPy.NewSpotifyObject` | spot_py.py:2-9 | succeeds iff the payload has a `"type"` key holding the expected tag; on success the stored payload is exactly the one given; a present but different tag fails with `NotForType(objType)`; a missing `"type"` key fails with `InvalidJson` |
| `SpotPy.Message` | spot_py.py:7-9 | `InvalidJson` reads "Invalid JSON"; `NotForType(t)` reads the 18-character prefix "JSON is not for a " followed by exactly `t` |
| `SpotPy.NewTrack` | spot_py.py:12-15 | accepts exactly the payloads tagged `"track"` and then stores the payload unchanged as a valid track; otherwise fails with the base object's error for tag `"track"` |
| `SpotPy.NewAlbum` | spot_py.py:48-51 | accepts exactly the payloads tagged `"album"` and then stores the payload unchanged as a valid album; otherwise fails with the base object's error for tag `"album"` |
| `SpotPy.Track.Len` | spot_py.py:17-19 | a track's length is the natural number stored under `duration_ms` |
| `SpotPy.Track.Name` | spot_py.py:21-24 | returns the string stored under `name`, unchanged |
| `SpotPy.Track.Artists` | spot_py.py:26-29 | one name per entry of the payload's `artists` list, the same length as that list, entry i giving name i |
| `SpotPy.ArtistName` | spot_py.py:29 | an artist entry's name is the string stored under its `"name"` key |
| `SpotPy.ArtistNames` | spot_py.py:29 | the list comprehension over artist entries: same length as its input, and element i is the name of entry i |
| `SpotPy.Track.Explicit` | spot_py.py:31-33 | returns the boolean stored under `explicit`, unchanged |
| `SpotPy.Track.Minutes` | spot_py.py:35-39 | whole seconds divided into whole minutes equals the duration divided by 60000 |
| `SpotPy.Track.Seconds` | spot_py.py:41-45 | seconds lie in 0..59 and minutes*60 + seconds equals the duration's whole seconds |
| `SpotPy.Album.Len` | spot_py.py:53-54 | an album's length is the natural number stored under `total_tracks` |
| `SpotPy.Album.Name` | spot_py.py:56-58 | returns the string stored under `name`, unchanged |
| `SpotPy.Album.ReleaseDate` | spot_py.py:60-62 | returns the string stored under `release_date`, unchanged |
| `SpotPyProperties.MessagesIdentifyErrors` | spot_py.py:7-9 | two errors have equal messages iff they are the same error, so "wrong type" and "invalid JSON" are distinguishable and the wrong-type message names the expected type |
| `SpotPyProperties.PresentTagNeverInvalidJson` | spot_py.py:4-7 | a payload with a `"type"` key never fails as invalid JSON; if it fails, the message is "JSON is not for a " followed by the expected type |
| `SpotPyProperties.TrackAndAlbumExclusive` | spot_py.py:15 | a payload `Track` accepts is rejected by `Album` with "not for a album", and a payload `Album` accepts is rejected by `Track` with "not for a track" |
| `SpotPyProperties.MissingTagRejectedByBoth` | spot_py.py:8-9 | a payload without `"type"` fails as invalid JSON for both `Track` and `Album` |
| `SpotPyProperties.ClockReadingUnique` | spot_py.py:35-45 | (m, s) with m*60 + s equal to the whole seconds and 0 <= s < 60 holds iff m and s are the track's minutes and seconds |
| `SpotPyProperties.TrackLenIsDuration` | spot_py.py:14-19 | a constructed track's length is the payload's `duration_ms` |
| `SpotPyProperties.AlbumLenIsTotalTracks` | spot_py.py:50-54 | a constructed album's length is the payload's `total_tracks` |
| `SpotPyProperties.ArtistNamesAppend` | spot_py.py:29 | projecting the names of two concatenated artist lists gives the concatenation of their projections, so the order is kept |
| `SpotPyProperties.ThreeFortyTwo` | spot_py.py:35-45 | a 222000 ms track reads as 3:42 |
| `SpotPyProperties.FirstClassAccessors` | spot_py.py:12-45 | the "First Class" payload (173000 ms, one artist) constructs a track named "First Class" with explicit false, length 173000, reading 2:53, and artists ["Jack Harlow"] |

## Left out

- The connection layer is not part of this model. That covers token exchange, search and its type dispatch, and batch lookups by id. It also covers the `Artist` wrapper and the album accessors for tracks, genres, popularity, markets and album type. None of these appear in `spot_py.py`.
- `testing.py` is not part of this model. It only loads credentials from the environment, makes two HTTP calls and prints the result.
- SpotPy.Track.Minutes: Python divides the duration by 1000 in floating point before the floor division. The model uses exact integer division, so float rounding on very large durations is not captured. For example, with `duration_ms = 17592186044459999` the float quotient rounds up to `17592186044460.0`, so Python gives 293203100741 minutes where the model gives 293203100740.
- SpotPy.Track.Seconds: inherits that rounding. For the same duration Python gives -1 seconds, outside the 0..59 bound the model proves; the model gives 59. Also, Python's `len()` raises `OverflowError` once `duration_ms` (or an album's `total_tracks`) is 2^63 or more. The model's lengths are unbounded `nat`s, so that error is not captured.
- SpotPy.Track.Artists: requires every artist entry to be an object whose `"name"` is a string. Python accepts a name of any type and returns it as is; for example, `{"name": null}` yields `None`. A non-dict entry raises `TypeError` rather than `KeyError`. The model does not capture either case.
- Numbers are JSON integers only (`JNum(n: int)`). Floating-point JSON numbers are not modelled.
- Only `dict` payloads are modelled. A payload that is not a dict makes `raw_json["type"]` raise `TypeError`, which the Python code does not catch. The model's `Payload` is a map by type, so this case cannot arise.
- Python's rule that `__len__` returns a non-negative `int` is captured by typing both lengths as `nat`. A negative or non-integer `duration_ms` or `total_tracks` is excluded by the accessor's precondition rather than modelled as the resulting exception.
- Accessor `KeyError`s, and fields whose type differs from the Python return annotation, are excluded by preconditions rather than modelled as exceptions.
- Shared payload: the constructor keeps a reference to the caller's dict, not a copy, and `raw_json` is a public attribute. If the caller later changes that dict, or reassigns `raw_json`, the accessors return the new values. Such a change can also undo the tag check, for instance by setting `"type"` to `"album"` on a constructed track. The model treats the payload as a value fixed at construction, so it does not capture this aliasing.
- The datatype constructors `Track(...)` and `Album(...)` build a value without the tag check, which Python's `Track(raw)` and `Album(raw)` cannot do. Only `NewTrack` and `NewAlbum` correspond to the Python constructors; their results satisfy `Valid()`. The accessors do not require `Valid()`, so the accessor contracts and lemmas also cover these unreachable values.
