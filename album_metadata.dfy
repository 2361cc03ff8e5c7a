/**
 * The album metadata provider: the album id cascade over the album's own
 * id and its songs, the metadata of the resolved album with its album
 * artists, and the search results, either the one resolved album or the
 * year-filtered search candidates in order.
 */
module AlbumMetadata {
  import opened Wrappers
  import opened SpotifyIds
  import Constants
  import opened Protocol
  import opened Sessions
  import ImageHelpers
  import opened Cascade
  import opened MetadataHelpers

  /** An `AlbumInfo`: the album's provider ids, its name, the year given in the search form, and its songs. */
  datatype AlbumInfo = AlbumInfo(providerIds: map<string, string>, name: string, year: Option<int>, songInfos: seq<ItemRef>)

  /** The `MusicAlbum` item filled in from an album. */
  datatype MusicAlbum = MusicAlbum(
    name: string,
    artists: seq<string>,
    albumArtists: seq<string>,
    communityRating: Option<int>,
    overview: string,
    productionYear: int,
    premiereDate: Constants.DateTime,
    providerIds: map<string, string>)

  function AlbumArtistOf(artist: ArtistRef): PersonInfo {
    PersonInfo(artist.name, "Album Artist", AlbumArtistPerson)
  }

  /** One album-artist person per artist of the album, in order. */
  function AlbumArtists(artists: seq<ArtistRef>): (people: seq<PersonInfo>)
    ensures |people| == |artists|
    ensures forall k :: 0 <= k < |artists| ==> people[k].name == artists[k].name && people[k].kind == AlbumArtistPerson
  {
    seq(|artists|, k requires 0 <= k < |artists| => AlbumArtistOf(artists[k]))
  }

  /** The `AddPerson` loop over the album's artists. */
  method AddAlbumArtists(artists: seq<ArtistRef>) returns (people: seq<PersonInfo>)
    ensures people == AlbumArtists(artists)
  {
    people := [];
    for i := 0 to |artists|
      invariant people == AlbumArtists(artists[..i])
    {
      people := people + [AlbumArtistOf(artists[i])];
    }
    assert artists[..|artists|] == artists;
  }

  /**
   * The metadata of a fetched album under the resolved id: the item with
   * the popularity, if there is one, as rating and the first review, or the
   * empty text, as overview; the album artists as people, its primary image if it has one, and the
   * resolved id and the first artist's id as provider ids; an impossible
   * date throws.
   */
  function AlbumMetadataOf(album: Album, id: SpotifyId, session: Session): (r: Result<MetadataResult<MusicAlbum>, Fault>)
    ensures r.Success? <==> Constants.ToDateTime(album.date).Success?
    ensures r.Success? ==> r.value.Metadata?
    ensures r.Success? ==>
      var item := r.value.item;
      item.name == album.name && item.artists == Names(album.artist) && item.albumArtists == Names(album.artist)
      && item.communityRating == album.popularity
      && item.overview == (if |album.review| > 0 then album.review[0] else "")
      && item.productionYear == album.date.year
      && item.premiereDate == Constants.ToDateTime(album.date).value
      && item.providerIds == AlbumIds(id, album)
      && r.value.people == AlbumArtists(album.artist)
      && r.value.remoteImages == ImageEntry(ImageHelpers.AlbumImageInfo(album, session), ImageHelpers.Primary)
  {
    match PremiereDate(album.date)
    case Failure(e) => Failure(e)
    case Success(date) =>
      var overview := if |album.review| > 0 then album.review[0] else "";
      var item := MusicAlbum(album.name, Names(album.artist), Names(album.artist), album.popularity, overview, album.date.year, date, AlbumIds(id, album));
      Success(Metadata(item, AlbumArtists(album.artist), ImageEntry(ImageHelpers.AlbumImageInfo(album, session), ImageHelpers.Primary)))
  }

  /** `GetMetadata`: no metadata without an id; with one, the album is fetched (which needs a session) and its metadata returned. */
  function MetadataOf(sm: SessionManager, remote: Remote, host: Host, info: AlbumInfo): (r: Result<MetadataResult<MusicAlbum>, Fault>)
    reads sm
    ensures AlbumIdOf(info.providerIds, info.songInfos, host).None? ==> r == Success(NoMetadata)
    ensures AlbumIdOf(info.providerIds, info.songInfos, host).Some? && sm.activeSession.None? ==> r == Failure(NoActiveSession)
    ensures r.Success? && r.value.Metadata? ==> ExplicitId(r.value.item.providerIds, Constants.ProviderAlbum) == AlbumIdOf(info.providerIds, info.songInfos, host)
  {
    match AlbumIdOf(info.providerIds, info.songInfos, host)
    case None => Success(NoMetadata)
    case Some(id) =>
      match sm.GetAlbum(id, remote)
      case Failure(e) => Failure(e)
      case Success(album) => AlbumMetadataOf(album, id, sm.activeSession.value)
  }

  method GetMetadata(sm: SessionManager, remote: Remote, host: Host, info: AlbumInfo) returns (r: Result<MetadataResult<MusicAlbum>, Fault>)
    ensures r == MetadataOf(sm, remote, host, info)
  {
    var spotifyId := ResolveAlbumId(info.providerIds, info.songInfos, host);
    if spotifyId.None? {
      return Success(NoMetadata);
    }
    var fetched := sm.GetAlbum(spotifyId.value, remote);
    if fetched.Failure? {
      return Failure(fetched.error);
    }
    var album := fetched.value;
    var date := PremiereDate(album.date);
    if date.Failure? {
      return Failure(date.error);
    }
    var people := AddAlbumArtists(album.artist);
    var images := ImageEntry(ImageHelpers.AlbumImageInfo(album, sm.activeSession.value), ImageHelpers.Primary);
    var ids := map[Constants.ProviderAlbum := Base62(spotifyId.value.id)];
    if |album.artist| > 0 {
      ids := ids[Constants.ProviderArtist := GidBase62(album.artist[0].gid)];
    }
    var overview := "";
    if |album.review| > 0 {
      overview := album.review[0];
    }
    var item := MusicAlbum(album.name, Names(album.artist), Names(album.artist), album.popularity, overview, album.date.year, date.value, ids);
    r := Success(Metadata(item, people, images));
  }

  // ---------------------------------------------------------------- search

  /** The search path: the candidates' results, dropping those of another year when a year is given. */
  function CandidateResults(ids: seq<SpotifyId>, remote: Remote, year: Option<int>, session: Session): (r: Result<seq<RemoteSearchResult>, Fault>)
    ensures r.Success? ==> |r.value| <= |ids|
    ensures year.None? && r.Success? ==> |r.value| == |ids|
  {
    MapAll(KeepYear(FetchAlbums(ids, remote), year, AlbumYear), AlbumResult, session)
  }

  /** With a year given, every search result is of that year. */
  lemma CandidateYears(ids: seq<SpotifyId>, remote: Remote, year: int, session: Session)
    requires CandidateResults(ids, remote, Some(year), session).Success?
    ensures forall k :: 0 <= k < |CandidateResults(ids, remote, Some(year), session).value| ==>
      CandidateResults(ids, remote, Some(year), session).value[k].productionYear == Some(year)
  {
    var kept := KeepYear(FetchAlbums(ids, remote), Some(year), AlbumYear);
    var r := MapAll(kept, AlbumResult, session).value;
    forall k | 0 <= k < |r|
      ensures r[k].productionYear == Some(year)
    {
      assert kept[k] in kept;
      assert AlbumResult(kept[k], session) == Success(r[k]);
    }
  }

  /** `GetSearchResults`: the one resolved album, or else the search candidates (at most five) that have the given year, in order. */
  function SearchResultsOf(sm: SessionManager, remote: Remote, host: Host, info: AlbumInfo): (r: Result<seq<RemoteSearchResult>, Fault>)
    reads sm
    ensures sm.activeSession.None? ==> r == Failure(NoActiveSession)
    ensures r.Success? && AlbumIdOf(info.providerIds, info.songInfos, host).Some? ==> |r.value| == 1
    ensures r.Success? ==> |r.value| <= MaxSearchResults
  {
    match AlbumIdOf(info.providerIds, info.songInfos, host)
    case Some(id) =>
      (match sm.GetAlbum(id, remote)
       case Failure(e) => Failure(e)
       case Success(album) =>
         match AlbumResult(album, sm.activeSession.value)
         case Failure(e) => Failure(e)
         case Success(result) => Success([result]))
    case None =>
      match sm.SearchAlbum(info.name, remote)
      case Failure(e) => Failure(e)
      case Success(ids) => CandidateResults(ids, remote, info.year, sm.activeSession.value)
  }

  method GetSearchResults(sm: SessionManager, remote: Remote, host: Host, info: AlbumInfo) returns (r: Result<seq<RemoteSearchResult>, Fault>)
    ensures r == SearchResultsOf(sm, remote, host, info)
  {
    var spotifyId := ResolveAlbumId(info.providerIds, info.songInfos, host);
    if spotifyId.Some? {
      var fetched := sm.GetAlbum(spotifyId.value, remote);
      if fetched.Failure? {
        return Failure(fetched.error);
      }
      var result := AlbumResult(fetched.value, sm.activeSession.value);
      if result.Failure? {
        return Failure(result.error);
      }
      return Success([result.value]);
    }
    var searched := sm.SearchAlbum(info.name, remote);
    if searched.Failure? {
      return Failure(searched.error);
    }
    r := MapKept(FetchAlbums(searched.value, remote), info.year, AlbumYear, AlbumResult, sm.activeSession.value);
  }
}
