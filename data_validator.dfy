/** The shape checks run on the hobbies and music data files before the
    pages use them. Each check walks its lists in order and stops at the
    first offending element; reading a property of a `null` element throws a
    TypeError instead of returning false. The verdict functions follow that
    order; the `...Valid` predicates say declaratively what passes. */
module DataValidator {
  import opened Json
  import opened Strings

  /** What a call of a validator does. */
  datatype Verdict = Pass | Fail | Throws

  /** `v.key` when it is an array, as its elements; `[]` otherwise. */
  function Elements(v: Json, key: string): (r: seq<Json>)
    ensures ArrayField(v, key) ==> JArr(r) == Get(v, key).value
  {
    if ArrayField(v, key) then Get(v, key).value.items else []
  }

  // ---------------------------------------------------------------------
  // hobbies

  predicate ImageValid(image: Json) {
    TruthyField(image, "url") && TruthyField(image, "alt")
  }

  predicate HobbyValid(hobby: Json) {
    && TruthyField(hobby, "id") && TruthyField(hobby, "title") && TruthyField(hobby, "icon")
    && ArrayField(hobby, "images")
    && forall k | 0 <= k < |Elements(hobby, "images")| :: ImageValid(Elements(hobby, "images")[k])
  }

  /** The hobbies data passes: a truthy object whose `hobbies` is an array
      of valid hobbies, each with valid images. */
  predicate HobbiesValid(data: Json) {
    && Truthy(data) && IsObjectLike(data)
    && ArrayField(data, "hobbies")
    && forall k | 0 <= k < |Elements(data, "hobbies")| :: HobbyValid(Elements(data, "hobbies")[k])
  }

  /** A `null` hobby, or a `null` image of a hobby that has an images array:
      the only elements whose inspection throws. */
  predicate NullInside(hobby: Json) {
    hobby == JNull || JNull in Elements(hobby, "images")
  }

  /** The image loop of one hobby, from index `j` on. */
  function ImagesFrom(images: seq<Json>, j: nat): (r: Verdict)
    requires j <= |images|
    ensures r == Pass <==> forall k | j <= k < |images| :: ImageValid(images[k])
    ensures r == Throws ==> JNull in images[j..]
    decreases |images| - j
  {
    if j == |images| then Pass
    else if images[j] == JNull then Throws
    else if !ImageValid(images[j]) then Fail
    else
      var r := ImagesFrom(images, j + 1);
      assert r == Throws ==> images[j + 1..] == images[j..][1..];
      r
  }

  /** One iteration of the hobby loop: the field checks, then the images. */
  function HobbyCheck(hobby: Json): (r: Verdict)
    ensures r == Pass <==> HobbyValid(hobby)
    ensures r == Throws ==> NullInside(hobby)
  {
    if hobby == JNull then Throws
    else if !(TruthyField(hobby, "id") && TruthyField(hobby, "title") && TruthyField(hobby, "icon")
              && ArrayField(hobby, "images"))
    then Fail
    else
      var r := ImagesFrom(Elements(hobby, "images"), 0);
      assert Elements(hobby, "images")[0..] == Elements(hobby, "images");
      r
  }

  /** The hobby loop from index `i` on. */
  function HobbiesFrom(hobbies: seq<Json>, i: nat): (r: Verdict)
    requires i <= |hobbies|
    ensures r == Pass <==> forall k | i <= k < |hobbies| :: HobbyValid(hobbies[k])
    ensures r == Throws ==> exists k | i <= k < |hobbies| :: NullInside(hobbies[k])
    decreases |hobbies| - i
  {
    if i == |hobbies| then Pass
    else
      var c := HobbyCheck(hobbies[i]);
      if c != Pass then c else HobbiesFrom(hobbies, i + 1)
  }

  /** `validateHobbiesData(data)`. */
  function HobbiesVerdict(data: Json): (r: Verdict)
    ensures r == Pass <==> HobbiesValid(data)
    ensures r == Throws ==> exists k | 0 <= k < |Elements(data, "hobbies")| :: NullInside(Elements(data, "hobbies")[k])
    ensures !Truthy(data) || !IsObjectLike(data) || !ArrayField(data, "hobbies") ==> r == Fail
  {
    if !Truthy(data) || !IsObjectLike(data) then Fail
    else if !ArrayField(data, "hobbies") then Fail
    else HobbiesFrom(Elements(data, "hobbies"), 0)
  }

  // ---------------------------------------------------------------------
  // music

  predicate ArtistValid(artist: Json) {
    TruthyField(artist, "url") && TruthyField(artist, "name") && TruthyField(artist, "thumbnail")
  }

  /** A song entry: a string naming a YouTube watch page. */
  predicate SongValid(song: Json) {
    song.JStr? && Contains(song.s, "youtube.com/watch")
  }

  /** The songs checked: the favourites, then the recent ones. */
  function AllSongs(data: Json): seq<Json> {
    Elements(data, "favoriteSongs") + Elements(data, "recentSongs")
  }

  /** The music data passes: a truthy object whose three lists are arrays,
      every artist has a truthy url, name and thumbnail, and every song is a
      watch-page URL. `playlists` is not looked at. */
  predicate MusicValid(data: Json) {
    && Truthy(data) && IsObjectLike(data)
    && ArrayField(data, "favoriteArtists") && ArrayField(data, "favoriteSongs") && ArrayField(data, "recentSongs")
    && (forall k | 0 <= k < |Elements(data, "favoriteArtists")| :: ArtistValid(Elements(data, "favoriteArtists")[k]))
    && (forall k | 0 <= k < |AllSongs(data)| :: SongValid(AllSongs(data)[k]))
  }

  /** The artist loop from index `i` on. */
  function ArtistsFrom(artists: seq<Json>, i: nat): (r: Verdict)
    requires i <= |artists|
    ensures r == Pass <==> forall k | i <= k < |artists| :: ArtistValid(artists[k])
    ensures r == Throws ==> JNull in artists[i..]
    decreases |artists| - i
  {
    if i == |artists| then Pass
    else if artists[i] == JNull then Throws
    else if !ArtistValid(artists[i]) then Fail
    else
      var r := ArtistsFrom(artists, i + 1);
      assert r == Throws ==> artists[i + 1..] == artists[i..][1..];
      r
  }

  /** `validateMusicData(data)`. The song checks cannot throw: a `typeof`
      test comes first. */
  function MusicVerdict(data: Json): (r: Verdict)
    ensures r == Pass <==> MusicValid(data)
    ensures r == Throws ==> JNull in Elements(data, "favoriteArtists")
  {
    if !Truthy(data) || !IsObjectLike(data) then Fail
    else if !ArrayField(data, "favoriteArtists") then Fail
    else if !ArrayField(data, "favoriteSongs") then Fail
    else if !ArrayField(data, "recentSongs") then Fail
    else
      var a := ArtistsFrom(Elements(data, "favoriteArtists"), 0);
      assert Elements(data, "favoriteArtists")[0..] == Elements(data, "favoriteArtists");
      if a != Pass then a
      else if forall k | 0 <= k < |AllSongs(data)| :: SongValid(AllSongs(data)[k]) then Pass
      else Fail
  }

  // ---------------------------------------------------------------------
  // properties

  /** An object with an empty `hobbies` array passes. */
  lemma EmptyHobbiesPass(fields: map<string, Json>)
    requires "hobbies" in fields && fields["hobbies"] == JArr([])
    ensures HobbiesVerdict(JObj(fields)) == Pass
  {
  }

  /** Removing one hobby from valid data keeps it valid. */
  lemma RemoveHobbyKeepsValid(data: Json, i: nat)
    requires HobbiesValid(data) && i < |Elements(data, "hobbies")|
    ensures var hs := Elements(data, "hobbies");
      HobbiesValid(JObj(data.fields["hobbies" := JArr(hs[..i] + hs[i + 1..])]))
  {
    var hs := Elements(data, "hobbies");
    var rest := hs[..i] + hs[i + 1..];
    var d := JObj(data.fields["hobbies" := JArr(rest)]);
    assert Elements(d, "hobbies") == rest;
    forall k | 0 <= k < |rest|
      ensures HobbyValid(rest[k])
    {
      if k < i { assert rest[k] == hs[k]; } else { assert rest[k] == hs[k + 1]; }
    }
  }

  /** Removing one image from a valid hobby keeps the hobby valid. */
  lemma RemoveImageKeepsValid(hobby: Json, j: nat)
    requires HobbyValid(hobby) && j < |Elements(hobby, "images")|
    ensures var ims := Elements(hobby, "images");
      HobbyValid(JObj(hobby.fields["images" := JArr(ims[..j] + ims[j + 1..])]))
  {
    var ims := Elements(hobby, "images");
    var rest := ims[..j] + ims[j + 1..];
    var h := JObj(hobby.fields["images" := JArr(rest)]);
    assert Elements(h, "images") == rest;
    forall k | 0 <= k < |rest|
      ensures ImageValid(rest[k])
    {
      if k < j { assert rest[k] == ims[k]; } else { assert rest[k] == ims[k + 1]; }
    }
  }

  /** Removing one artist or one song from valid music data keeps it
      valid. */
  lemma RemoveMusicEntryKeepsValid(data: Json, key: string, i: nat)
    requires MusicValid(data)
    requires key == "favoriteArtists" || key == "favoriteSongs" || key == "recentSongs"
    requires i < |Elements(data, key)|
    ensures var xs := Elements(data, key);
      MusicValid(JObj(data.fields[key := JArr(xs[..i] + xs[i + 1..])]))
  {
    var xs := Elements(data, key);
    var rest := xs[..i] + xs[i + 1..];
    var d := JObj(data.fields[key := JArr(rest)]);
    assert Elements(d, key) == rest;
    forall k | 0 <= k < |rest|
      ensures rest[k] == xs[if k < i then k else k + 1]
    {
    }
    if key == "favoriteArtists" {
      assert AllSongs(d) == AllSongs(data);
      forall k | 0 <= k < |rest|
        ensures ArtistValid(rest[k])
      {
        assert rest[k] == xs[if k < i then k else k + 1];
      }
    } else {
      assert Elements(d, "favoriteArtists") == Elements(data, "favoriteArtists");
      var songs := AllSongs(d);
      var old_songs := AllSongs(data);
      forall k | 0 <= k < |songs|
        ensures SongValid(songs[k])
      {
        var m := |Elements(d, "favoriteSongs")|;
        if key == "favoriteSongs" {
          if k < m {
            assert songs[k] == rest[k] == xs[if k < i then k else k + 1];
            assert old_songs[if k < i then k else k + 1] == songs[k];
          } else {
            assert songs[k] == old_songs[k + 1];
          }
        } else {
          if k < m {
            assert songs[k] == old_songs[k];
          } else {
            var k' := k - m;
            assert songs[k] == rest[k'] == xs[if k' < i then k' else k' + 1];
            assert old_songs[m + (if k' < i then k' else k' + 1)] == songs[k];
          }
        }
      }
    }
  }

  /** `playlists` never changes the verdict of the music check. */
  lemma PlaylistsIgnored(fields: map<string, Json>, playlists: Json)
    ensures MusicVerdict(JObj(fields["playlists" := playlists])) == MusicVerdict(JObj(fields))
  {
    var d := JObj(fields["playlists" := playlists]);
    assert Elements(d, "favoriteArtists") == Elements(JObj(fields), "favoriteArtists");
    assert AllSongs(d) == AllSongs(JObj(fields));
  }
}
