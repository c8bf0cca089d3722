/** The typed wrappers around decoded Spotify Web API payloads: a base object
    that checks the payload's `"type"` tag, and the `Track` and `Album`
    objects with their field accessors. Every object is immutable: the payload
    is fixed when the object is built and the accessors only read it. */
module SpotPy {
  import opened Json

  datatype Result<+T, +E> = Ok(value: T) | Err(error: E)

  /** The two ways construction raises `ValueError`. */
  datatype ValueError =
    | NotForType(objType: string)  // `"type"` present, but not the expected tag
    | InvalidJson                  // no `"type"` key at all

  /** The text each error is raised with. */
  function Message(e: ValueError): (m: string)
    ensures e.InvalidJson? ==> m == "Invalid JSON"
    ensures e.NotForType? ==> |m| == 18 + |e.objType| && m[..18] == "JSON is not for a " && m[18..] == e.objType
  {
    match e
    case NotForType(t) => "JSON is not for a " + t
    case InvalidJson => "Invalid JSON"
  }

  /** The payload carries the tag `tag`: its `"type"` field is that string. */
  predicate HasTag(rawJson: Payload, tag: string) {
    "type" in rawJson && rawJson["type"] == JStr(tag)
  }

  const TrackTag: string := "track"
  const AlbumTag: string := "album"

  /** A payload accepted for some object type. */
  datatype SpotifyObject = SpotifyObject(rawJson: Payload)

  /** Builds the base object for `objType`: it succeeds exactly when the
      payload is tagged `objType`, and then keeps the payload unchanged; a
      present but different tag and a missing tag are two distinct errors. */
  function NewSpotifyObject(rawJson: Payload, objType: string): (r: Result<SpotifyObject, ValueError>)
    ensures r.Ok? <==> HasTag(rawJson, objType)
    ensures r.Ok? ==> r.value.rawJson == rawJson
    ensures "type" in rawJson && !HasTag(rawJson, objType) ==> r == Err(NotForType(objType))
    ensures "type" !in rawJson ==> r == Err(InvalidJson)
  {
    if "type" in rawJson then
      if rawJson["type"] == JStr(objType) then Ok(SpotifyObject(rawJson))
      else Err(NotForType(objType))
    else Err(InvalidJson)
  }

  /** A track payload. `Valid` holds of every track `NewTrack` returns. */
  datatype Track = Track(rawJson: Payload) {

    predicate Valid() {
      HasTag(rawJson, TrackTag)
    }

    /** `len(track)`: the duration in milliseconds. */
    function Len(): (r: nat)
      requires HasNat(rawJson, "duration_ms")
      ensures rawJson["duration_ms"] == JNum(r)
    {
      GetNat(rawJson, "duration_ms")
    }

    function Name(): (r: string)
      requires HasString(rawJson, "name")
      ensures rawJson["name"] == JStr(r)
    {
      GetString(rawJson, "name")
    }

    /** The artists' names, one per entry of `"artists"`, in payload order. */
    function Artists(): (r: seq<string>)
      requires HasList(rawJson, "artists")
      requires forall i :: 0 <= i < |rawJson["artists"].items| ==> IsNamed(rawJson["artists"].items[i])
      ensures |r| == |rawJson["artists"].items|
      ensures forall i :: 0 <= i < |r| ==> r[i] == ArtistName(rawJson["artists"].items[i])
    {
      ArtistNames(GetList(rawJson, "artists"))
    }

    function Explicit(): (r: bool)
      requires HasBool(rawJson, "explicit")
      ensures rawJson["explicit"] == JBool(r)
    {
      GetBool(rawJson, "explicit")
    }

    /** The `MM` of `MM:ss`: whole minutes in the duration. */
    function Minutes(): (r: nat)
      requires HasNat(rawJson, "duration_ms")
      ensures r == Len() / 60000
    {
      Len() / 1000 / 60
    }

    /** The `ss` of `MM:ss`: whole seconds left after the whole minutes. */
    function Seconds(): (r: int)
      requires HasNat(rawJson, "duration_ms")
      ensures 0 <= r < 60
      ensures Minutes() * 60 + r == Len() / 1000
    {
      Len() / 1000 - Minutes() * 60
    }
  }

  /** An album payload. `Valid` holds of every album `NewAlbum` returns. */
  datatype Album = Album(rawJson: Payload) {

    predicate Valid() {
      HasTag(rawJson, AlbumTag)
    }

    /** `len(album)`: the number of tracks on the album. */
    function Len(): (r: nat)
      requires HasNat(rawJson, "total_tracks")
      ensures rawJson["total_tracks"] == JNum(r)
    {
      GetNat(rawJson, "total_tracks")
    }

    function Name(): (r: string)
      requires HasString(rawJson, "name")
      ensures rawJson["name"] == JStr(r)
    {
      GetString(rawJson, "name")
    }

    function ReleaseDate(): (r: string)
      requires HasString(rawJson, "release_date")
      ensures rawJson["release_date"] == JStr(r)
    {
      GetString(rawJson, "release_date")
    }
  }

  /** `Track(raw_json)`: the base check with the tag `"track"`. */
  function NewTrack(rawJson: Payload): (r: Result<Track, ValueError>)
    ensures r.Ok? <==> HasTag(rawJson, TrackTag)
    ensures r.Ok? ==> r.value.rawJson == rawJson && r.value.Valid()
    ensures r.Err? ==> r.error == NewSpotifyObject(rawJson, TrackTag).error
  {
    match NewSpotifyObject(rawJson, TrackTag)
    case Ok(o) => Ok(Track(o.rawJson))
    case Err(e) => Err(e)
  }

  /** `Album(raw_json)`: the base check with the tag `"album"`. */
  function NewAlbum(rawJson: Payload): (r: Result<Album, ValueError>)
    ensures r.Ok? <==> HasTag(rawJson, AlbumTag)
    ensures r.Ok? ==> r.value.rawJson == rawJson && r.value.Valid()
    ensures r.Err? ==> r.error == NewSpotifyObject(rawJson, AlbumTag).error
  {
    match NewSpotifyObject(rawJson, AlbumTag)
    case Ok(o) => Ok(Album(o.rawJson))
    case Err(e) => Err(e)
  }

  /** An artist entry: an object with a string `"name"`. */
  predicate IsNamed(artist: Json) {
    artist.JObj? && HasString(artist.fields, "name")
  }

  /** `artist["name"]`. */
  function ArtistName(artist: Json): (r: string)
    requires IsNamed(artist)
    ensures artist.fields["name"] == JStr(r)
  {
    GetString(artist.fields, "name")
  }

  /** `[artist["name"] for artist in artists]`. */
  function ArtistNames(artists: seq<Json>): (r: seq<string>)
    requires forall i :: 0 <= i < |artists| ==> IsNamed(artists[i])
    ensures |r| == |artists|
    ensures forall i :: 0 <= i < |r| ==> r[i] == ArtistName(artists[i])
  {
    if artists == [] then []
    else [ArtistName(artists[0])] + ArtistNames(artists[1..])
  }

}
