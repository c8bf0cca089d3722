/** Properties that relate several members of `SpotPy`: how the constructors
    of the two wrapper classes partition payloads, that the two errors can be
    told apart, that minutes and seconds are the minute:second reading of the
    duration, and that the artist list follows the payload's order. */
module SpotPyProperties {
  import opened Json
  import opened SpotPy

  /** Different errors are raised with different messages, so a caller can
      tell "wrong type" from "invalid JSON", and which type was expected. */
  lemma MessagesIdentifyErrors(e1: ValueError, e2: ValueError)
    ensures Message(e1) == Message(e2) <==> e1 == e2
  {
  }

  /** A payload with a `"type"` key never fails as invalid JSON: when its
      tag is not the expected one, the error names the expected type. */
  lemma PresentTagNeverInvalidJson(rawJson: Payload, objType: string)
    requires "type" in rawJson
    ensures NewSpotifyObject(rawJson, objType) != Err(InvalidJson)
    ensures NewSpotifyObject(rawJson, objType).Err? ==> Message(NewSpotifyObject(rawJson, objType).error) == "JSON is not for a " + objType
  {
  }

  /** No payload is both a track and an album: whatever `Track` accepts,
      `Album` rejects as "not for a album", and the other way round. */
  lemma TrackAndAlbumExclusive(rawJson: Payload)
    ensures NewTrack(rawJson).Ok? ==> NewAlbum(rawJson) == Err(NotForType(AlbumTag))
    ensures NewAlbum(rawJson).Ok? ==> NewTrack(rawJson) == Err(NotForType(TrackTag))
  {
  }

  /** `Track` and `Album` fail on the same payloads with the same kind of
      error when neither tag is present. */
  lemma MissingTagRejectedByBoth(rawJson: Payload)
    requires "type" !in rawJson
    ensures NewTrack(rawJson) == Err(InvalidJson) && NewAlbum(rawJson) == Err(InvalidJson)
  {
  }

  /** `minutes` and `seconds` are the one minute:second reading of the
      duration's whole seconds with the seconds below 60. */
  lemma ClockReadingUnique(t: Track, m: int, s: int)
    requires HasNat(t.rawJson, "duration_ms")
    ensures (m * 60 + s == t.Len() / 1000 && 0 <= s < 60) <==> (m == t.Minutes() && s == t.Seconds())
  {
  }

  /** The length of a constructed track is the payload's `duration_ms`. */
  lemma TrackLenIsDuration(rawJson: Payload)
    requires HasTag(rawJson, TrackTag) && HasNat(rawJson, "duration_ms")
    ensures NewTrack(rawJson).Ok? && rawJson["duration_ms"] == JNum(NewTrack(rawJson).value.Len())
  {
  }

  /** The length of a constructed album is the payload's `total_tracks`. */
  lemma AlbumLenIsTotalTracks(rawJson: Payload)
    requires HasTag(rawJson, AlbumTag) && HasNat(rawJson, "total_tracks")
    ensures NewAlbum(rawJson).Ok? && rawJson["total_tracks"] == JNum(NewAlbum(rawJson).value.Len())
  {
  }

  /** Projecting names commutes with concatenating artist lists: each
      artist's name lands at that artist's position. */
  lemma ArtistNamesAppend(a: seq<Json>, b: seq<Json>)
    requires forall i :: 0 <= i < |a| ==> IsNamed(a[i])
    requires forall i :: 0 <= i < |b| ==> IsNamed(b[i])
    ensures forall i :: 0 <= i < |a + b| ==> IsNamed((a + b)[i])
    ensures ArtistNames(a + b) == ArtistNames(a) + ArtistNames(b)
  {
  }

  /** A 3 min 42 s track: 222000 ms reads as 3:42. */
  lemma ThreeFortyTwo()
    ensures NewTrack(map["type" := JStr("track"), "duration_ms" := JNum(222000)]).Ok?
    ensures var t := NewTrack(map["type" := JStr("track"), "duration_ms" := JNum(222000)]).value;
      t.Minutes() == 3 && t.Seconds() == 42
  {
  }

  /** The payload of the single "First Class" by Jack Harlow. */
  function FirstClass(): Payload {
    map[
      "type" := JStr("track"),
      "name" := JStr("First Class"),
      "duration_ms" := JNum(173000),
      "explicit" := JBool(false),
      "artists" := JArr([JObj(map["name" := JStr("Jack Harlow")])]),
      "popularity" := JNum(85)
    ]
  }

  /** Building a track from that payload and reading every accessor. */
  lemma FirstClassAccessors()
    ensures NewTrack(FirstClass()).Ok?
    ensures var t := NewTrack(FirstClass()).value;
      && t.Name() == "First Class"
      && t.Explicit() == false
      && t.Len() == 173000
      && t.Minutes() == 2 && t.Seconds() == 53
      && t.Artists() == ["Jack Harlow"]
  {
  }
}
