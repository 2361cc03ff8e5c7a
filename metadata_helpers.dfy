/**
 * What the metadata providers hand back to the host: metadata results with
 * their people and remote images, and the search results built from
 * fetched records. A search result carries the provider ids of the record
 * it was built from, so feeding it back to a provider resolves the same
 * record.
 */
module MetadataHelpers {
  import opened Wrappers
  import opened SpotifyIds
  import Constants
  import opened Protocol
  import opened Sessions
  import ImageHelpers
  import Cascade

  datatype PersonKind =
    | ArtistPerson
    | AlbumArtistPerson
    | RemixerPerson
    | ActorPerson
    | ComposerPerson
    | ConductorPerson
    | UnknownPerson

  datatype PersonInfo = PersonInfo(name: string, role: string, kind: PersonKind)

  /** A `MetadataResult<T>`: `HasMetadata = false`, or an item with its people and its (address, type) images. */
  datatype MetadataResult<T> =
    | NoMetadata
    | Metadata(item: T, people: seq<PersonInfo>, remoteImages: seq<(string, ImageHelpers.ImageType)>)

  /** A `RemoteSearchResult`, reduced to the fields with logic behind them. */
  datatype RemoteSearchResult = RemoteSearchResult(
    name: string,
    productionYear: Option<int>,
    premiereDate: Option<Constants.DateTime>,
    imageUrl: Option<string>,
    overview: string,
    providerIds: map<string, string>)

  /** `SpotifyId.FromByteString(gid).Base62`: what `SetProviderId` stores for a record. */
  function GidBase62(gid: Gid): (s: string)
    ensures |s| == SizeBase62 && ParseBase62(s) == Success(GidId(gid))
  {
    ParseBase62OfBase62(GidId(gid).id);
    Base62(GidId(gid).id)
  }

  /** `if (artists.FirstOrDefault() is { } artist) SetProviderId(ProviderArtist, ...)`. */
  function WithFirstArtist(ids: map<string, string>, artists: seq<ArtistRef>): map<string, string> {
    if |artists| > 0 then Cascade.WithId(ids, Constants.ProviderArtist, GidId(artists[0].gid)) else ids
  }

  /** The ids of a track stored under three distinct keys, the artist's only when there is one. */
  function TrackIdsUnder(trackKey: string, albumKey: string, artistKey: string, id: SpotifyId, track: Track): (ids: map<string, string>)
    requires trackKey != albumKey && trackKey != artistKey && albumKey != artistKey
    ensures ids.Keys == {trackKey, albumKey} + (if |track.artist| > 0 then {artistKey} else {})
    ensures Cascade.ExplicitId(ids, trackKey) == Some(id)
    ensures Cascade.ExplicitId(ids, albumKey) == Some(GidId(track.album.gid))
    ensures |track.artist| > 0 ==> Cascade.ExplicitId(ids, artistKey) == Some(GidId(track.artist[0].gid))
  {
    var withAlbum := Cascade.WithId(Cascade.WithId(map[], trackKey, id), albumKey, GidId(track.album.gid));
    if |track.artist| > 0 then Cascade.WithId(withAlbum, artistKey, GidId(track.artist[0].gid)) else withAlbum
  }

  /**
   * The provider ids of a track or a track result: the given track id, the
   * album's id and, when there is one, the first artist's id; each reads
   * back as the id it was written from.
   */
  function TrackIds(id: SpotifyId, track: Track): (ids: map<string, string>)
    ensures ids.Keys == {Constants.ProviderTrack, Constants.ProviderAlbum} + (if |track.artist| > 0 then {Constants.ProviderArtist} else {})
    ensures Cascade.ExplicitId(ids, Constants.ProviderTrack) == Some(id)
    ensures Cascade.ExplicitId(ids, Constants.ProviderAlbum) == Some(GidId(track.album.gid))
    ensures |track.artist| > 0 ==> Cascade.ExplicitId(ids, Constants.ProviderArtist) == Some(GidId(track.artist[0].gid))
  {
    Constants.ProviderKeys();
    TrackIdsUnder(Constants.ProviderTrack, Constants.ProviderAlbum, Constants.ProviderArtist, id, track)
  }

  /**
   * The provider ids of an album or an album result: the given album id
   * and, when there is one, the first artist's id; never a track id.
   */
  function AlbumIds(id: SpotifyId, album: Album): (ids: map<string, string>)
    ensures ids.Keys == {Constants.ProviderAlbum} + (if |album.artist| > 0 then {Constants.ProviderArtist} else {})
    ensures Cascade.ExplicitId(ids, Constants.ProviderAlbum) == Some(id)
    ensures |album.artist| > 0 ==> Cascade.ExplicitId(ids, Constants.ProviderArtist) == Some(GidId(album.artist[0].gid))
  {
    Constants.ProviderKeys();
    WithFirstArtist(Cascade.WithId(map[], Constants.ProviderAlbum, id), album.artist)
  }

  /** `PremiereDate = date.ToDateTime()`: an impossible date throws. */
  function PremiereDate(date: Date): (r: Result<Constants.DateTime, Fault>)
    ensures r.Success? <==> Constants.ToDateTime(date).Success?
    ensures r.Success? ==> r.value == Constants.ToDateTime(date).value
    ensures r.Failure? ==> r.error == InvalidDate
  {
    match Constants.ToDateTime(date)
    case Success(d) => Success(d)
    case Failure(_) => Failure(InvalidDate)
  }

  /** `info?.Url`. */
  function UrlOf(info: Option<ImageHelpers.RemoteImageInfo>): (url: Option<string>)
    ensures url.Some? <==> info.Some?
  {
    if info.Some? then Some(info.value.url) else None
  }

  /** `if (info?.Url is { } url) RemoteImages.Add((url, type))`. */
  function ImageEntry(info: Option<ImageHelpers.RemoteImageInfo>, imageType: ImageHelpers.ImageType): (entries: seq<(string, ImageHelpers.ImageType)>)
    ensures |entries| <= 1 && (|entries| == 1 <==> info.Some?)
    ensures info.Some? ==> entries[0] == (info.value.url, imageType)
  {
    if info.Some? then [(info.value.url, imageType)] else []
  }

  function Names(artists: seq<ArtistRef>): (names: seq<string>)
    ensures |names| == |artists| && forall k :: 0 <= k < |artists| ==> names[k] == artists[k].name
  {
    seq(|artists|, k requires 0 <= k < |artists| => artists[k].name)
  }

  /**
   * `Biography.FirstOrDefault(b => b.HasText)?.Text ?? string.Empty`: the
   * empty text when no biography has a text, otherwise the text of one
   * that has it.
   */
  function BiographyText(bios: seq<Biography>): (text: string)
    ensures (forall k :: 0 <= k < |bios| ==> bios[k].text.None?) ==> text == ""
    ensures text != "" ==> exists k :: 0 <= k < |bios| && bios[k].text == Some(text)
  {
    if |bios| == 0 then ""
    else if bios[0].text.Some? then bios[0].text.value
    else
      assert forall k :: 1 <= k < |bios| ==> bios[k] == bios[1..][k - 1];
      BiographyText(bios[1..])
  }

  /** The text is that of the first biography that has one; biographies after it are not looked at. */
  lemma {:induction false} BiographyTextAt(bios: seq<Biography>, k: nat)
    requires k < |bios| && bios[k].text.Some?
    requires forall j :: 0 <= j < k ==> bios[j].text.None?
    ensures BiographyText(bios) == bios[k].text.value
  {
    if k > 0 {
      assert forall j :: 0 <= j < k - 1 ==> bios[1..][j] == bios[j + 1];
      BiographyTextAt(bios[1..], k - 1);
    }
  }

  /**
   * A track's search result: its name, its album's year and date, its
   * image, its album's label as overview, and the ids of the track
   * itself, its album and its first artist; an impossible album date
   * throws.
   */
  function TrackResult(track: Track, session: Session): (r: Result<RemoteSearchResult, Fault>)
    ensures r.Success? <==> Constants.ToDateTime(track.album.date).Success?
    ensures r.Success? ==>
      r.value.name == track.name && r.value.productionYear == Some(track.album.date.year)
      && r.value.premiereDate == Some(Constants.ToDateTime(track.album.date).value)
      && r.value.imageUrl == UrlOf(ImageHelpers.TrackImageInfo(track, session))
      && r.value.overview == track.album.recordLabel
      && r.value.providerIds == TrackIds(GidId(track.gid), track)
  {
    match PremiereDate(track.album.date)
    case Failure(e) => Failure(e)
    case Success(date) =>
      Success(RemoteSearchResult(track.name, Some(track.album.date.year), Some(date), UrlOf(ImageHelpers.TrackImageInfo(track, session)), track.album.recordLabel, TrackIds(GidId(track.gid), track)))
  }

  /**
   * An album's search result: its name, year, date and image, its label as
   * overview, and the ids of the album and its first artist; an impossible
   * date throws.
   */
  function AlbumResult(album: Album, session: Session): (r: Result<RemoteSearchResult, Fault>)
    ensures r.Success? <==> Constants.ToDateTime(album.date).Success?
    ensures r.Success? ==>
      r.value.name == album.name && r.value.productionYear == Some(album.date.year)
      && r.value.premiereDate == Some(Constants.ToDateTime(album.date).value)
      && r.value.imageUrl == UrlOf(ImageHelpers.AlbumImageInfo(album, session))
      && r.value.overview == album.recordLabel
      && r.value.providerIds == AlbumIds(GidId(album.gid), album)
  {
    match PremiereDate(album.date)
    case Failure(e) => Failure(e)
    case Success(date) =>
      Success(RemoteSearchResult(album.name, Some(album.date.year), Some(date), UrlOf(ImageHelpers.AlbumImageInfo(album, session)), album.recordLabel, AlbumIds(GidId(album.gid), album)))
  }

  /** An artist's search result: its name, its image, its biography text and its id, and no year or date. */
  function ArtistResult(artist: Artist, session: Session): (r: RemoteSearchResult)
    ensures r.name == artist.name && r.productionYear.None? && r.premiereDate.None?
    ensures r.imageUrl == UrlOf(ImageHelpers.ArtistImageInfo(artist, session))
    ensures r.overview == BiographyText(artist.biography)
    ensures r.providerIds.Keys == {Constants.ProviderArtist}
    ensures Cascade.ExplicitId(r.providerIds, Constants.ProviderArtist) == Some(GidId(artist.gid))
  {
    var ids := map[Constants.ProviderArtist := GidBase62(artist.gid)];
    Cascade.ExplicitIdOfBase62(ids, Constants.ProviderArtist, GidId(artist.gid));
    RemoteSearchResult(artist.name, None, None, UrlOf(ImageHelpers.ArtistImageInfo(artist, session)), BiographyText(artist.biography), ids)
  }
}
