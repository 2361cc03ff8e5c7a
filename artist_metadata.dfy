/**
 * The artist metadata provider: the artist id cascade over the artist's
 * own id and the tags of its songs, falling back on the first search
 * result; the metadata of the resolved artist with its biography, its
 * portrait and its header image; and the search results.
 */
module ArtistMetadata {
  import opened Wrappers
  import opened SpotifyIds
  import Constants
  import opened Protocol
  import opened Sessions
  import ImageHelpers
  import opened Cascade
  import opened MetadataHelpers

  /** An `ArtistInfo`: the artist's provider ids, its name and its songs. */
  datatype ArtistInfo = ArtistInfo(providerIds: map<string, string>, name: string, songInfos: seq<ItemRef>)

  /** The `MusicArtist` item filled in from an artist and its overview. */
  datatype MusicArtist = MusicArtist(name: string, overview: string, providerIds: map<string, string>)

  /** The id the cascade of the artist providers finds: the artist's own id, else the first song whose tags name the artist. */
  function IdOf(info: ArtistInfo, host: Host): Option<SpotifyId> {
    ArtistIdOf(info.providerIds, Paths(info.songInfos), info.name, host)
  }

  // ---------------------------------------------------------------- search

  /**
   * `GetSearchResults`: the one resolved artist, or else one result for
   * each search candidate (at most five), in order and none dropped.
   */
  function SearchResultsOf(sm: SessionManager, remote: Remote, host: Host, info: ArtistInfo): (r: Result<seq<RemoteSearchResult>, Fault>)
    reads sm
    ensures sm.activeSession.None? ==> r == Failure(NoActiveSession)
    ensures r.Success? && IdOf(info, host).Some? ==> |r.value| == 1
    ensures r.Success? ==> |r.value| <= MaxSearchResults
  {
    match IdOf(info, host)
    case Some(id) =>
      (match sm.GetArtist(id, remote)
       case Failure(e) => Failure(e)
       case Success(artist) => Success([ArtistResult(artist, sm.activeSession.value)]))
    case None =>
      match sm.SearchArtist(info.name, remote)
      case Failure(e) => Failure(e)
      case Success(ids) => Success(Each(FetchArtists(ids, remote), ArtistResult, sm.activeSession.value))
  }

  method GetSearchResults(sm: SessionManager, remote: Remote, host: Host, info: ArtistInfo) returns (r: Result<seq<RemoteSearchResult>, Fault>)
    ensures r == SearchResultsOf(sm, remote, host, info)
  {
    var spotifyId := ResolveArtistId(info.providerIds, Paths(info.songInfos), info.name, host);
    if spotifyId.Some? {
      var fetched := sm.GetArtist(spotifyId.value, remote);
      if fetched.Failure? {
        return Failure(fetched.error);
      }
      return Success([ArtistResult(fetched.value, sm.activeSession.value)]);
    }
    var searched := sm.SearchArtist(info.name, remote);
    if searched.Failure? {
      return Failure(searched.error);
    }
    var results := CollectResults(sm, remote, searched.value);
    r := Success(results);
  }

  /** The loop over the search candidates: every candidate is fetched and becomes a result. */
  method CollectResults(sm: SessionManager, remote: Remote, ids: seq<SpotifyId>) returns (results: seq<RemoteSearchResult>)
    requires sm.activeSession.Some?
    ensures results == Each(FetchArtists(ids, remote), ArtistResult, sm.activeSession.value)
  {
    var artists := FetchArtists(ids, remote);
    var session := sm.activeSession.value;
    results := [];
    for i := 0 to |ids|
      invariant results == Each(artists[..i], ArtistResult, session)
    {
      var artist := sm.GetArtist(ids[i], remote).value;
      assert artist == artists[i];
      EachStep(artists, i, ArtistResult, session);
      results := results + [ArtistResult(artist, session)];
    }
    assert artists[..|ids|] == artists;
  }

  // ---------------------------------------------------------------- metadata

  /**
   * `SpotifyId.FromBase62(result.GetProviderId(ProviderArtist)!)`: the id a
   * search result stores, read strictly; a missing id is read as the null
   * string and throws like the empty one.
   */
  function StoredId(result: RemoteSearchResult): (r: Result<SpotifyId, Fault>)
    ensures r.Success? ==> ExplicitId(result.providerIds, Constants.ProviderArtist) == Some(r.value)
    ensures ExplicitId(result.providerIds, Constants.ProviderArtist).Some? ==> r.Success?
  {
    if Constants.ProviderArtist !in result.providerIds then Failure(InvalidId(NullOrEmpty))
    else
      match ParseBase62(result.providerIds[Constants.ProviderArtist])
      case Success(id) => Success(id)
      case Failure(e) => Failure(InvalidId(e))
  }

  /** The id the metadata is fetched for: the cascade's, else the one stored in the first search result, else none. */
  function ResolvedId(sm: SessionManager, remote: Remote, host: Host, info: ArtistInfo): (r: Result<Option<SpotifyId>, Fault>)
    reads sm
    ensures IdOf(info, host).Some? ==> r == Success(IdOf(info, host))
  {
    if IdOf(info, host).Some? then Success(IdOf(info, host))
    else
      match SearchResultsOf(sm, remote, host, info)
      case Failure(e) => Failure(e)
      case Success(results) =>
        if |results| == 0 then Success(None)
        else
          match StoredId(results[0])
          case Failure(e) => Failure(e)
          case Success(id) => Success(Some(id))
  }

  /**
   * Without an id of its own, the artist is the first search candidate: the
   * strict reading of the first result's id never throws, because every
   * result stores its artist's id.
   */
  lemma FallbackIsFirstCandidate(sm: SessionManager, remote: Remote, host: Host, info: ArtistInfo)
    requires IdOf(info, host).None? && sm.activeSession.Some? && sm.SearchArtist(info.name, remote).Success?
    ensures
      var ids := sm.SearchArtist(info.name, remote).value;
      ResolvedId(sm, remote, host, info) ==
        if |ids| == 0 then Success(None) else Success(Some(GidId(remote.artistMetadata(SpotifyIds.Base16(ids[0].id)).gid)))
  {
    var ids := sm.SearchArtist(info.name, remote).value;
    var results := SearchResultsOf(sm, remote, host, info).value;
    assert |results| == |ids|;
    if |ids| > 0 {
      assert results[0] == ArtistResult(FetchArtists(ids, remote)[0], sm.activeSession.value);
      assert results[0] == ArtistResult(remote.artistMetadata(SpotifyIds.Base16(ids[0].id)), sm.activeSession.value);
    }
  }

  /**
   * The images of an artist: its portrait as the primary image, first,
   * when it has one, and its header as the backdrop, last, when the
   * overview has one; nothing else.
   */
  function ArtistImages(artist: Artist, union: ArtistUnion, session: Session): (images: seq<(string, ImageHelpers.ImageType)>)
    ensures |images| == |ImageHelpers.ArtistImageInfo(artist, session).ToSeq()| + |ImageHelpers.OptionalHeaderInfo(union.headerImage).ToSeq()|
    ensures (|images| > 0 && images[0].1 == ImageHelpers.Primary) <==> ImageHelpers.ArtistImageInfo(artist, session).Some?
    ensures ImageHelpers.ArtistImageInfo(artist, session).Some? ==> images[0].0 == ImageHelpers.ArtistImageInfo(artist, session).value.url
    ensures (|images| > 0 && images[|images| - 1].1 == ImageHelpers.Backdrop) <==> ImageHelpers.OptionalHeaderInfo(union.headerImage).Some?
    ensures ImageHelpers.OptionalHeaderInfo(union.headerImage).Some? ==>
      images[|images| - 1].0 == ImageHelpers.OptionalHeaderInfo(union.headerImage).value.url
  {
    ImageEntry(ImageHelpers.ArtistImageInfo(artist, session), ImageHelpers.Primary)
    + ImageEntry(ImageHelpers.OptionalHeaderInfo(union.headerImage), ImageHelpers.Backdrop)
  }

  /**
   * The metadata of a fetched artist under the resolved id: its name, its
   * biography, its images and the resolved id as its only provider id; an
   * overview without its artist part throws.
   */
  function ArtistMetadataOf(artist: Artist, overview: ArtistOverview, id: SpotifyId, session: Session): (r: Result<MetadataResult<MusicArtist>, Fault>)
    ensures r.Failure? <==> overview.artistUnion.None?
    ensures r.Failure? ==> r.error == NullReference
    ensures r.Success? ==>
      r.value.Metadata? && r.value.item.name == artist.name
      && r.value.item.overview == overview.artistUnion.value.biography
      && r.value.item.providerIds.Keys == {Constants.ProviderArtist}
      && ExplicitId(r.value.item.providerIds, Constants.ProviderArtist) == Some(id)
      && r.value.people == []
      && r.value.remoteImages == ArtistImages(artist, overview.artistUnion.value, session)
  {
    match overview.artistUnion
    case None => Failure(NullReference)
    case Some(union) =>
      var ids := map[Constants.ProviderArtist := Base62(id.id)];
      ExplicitIdOfBase62(ids, Constants.ProviderArtist, id);
      Success(Metadata(MusicArtist(artist.name, union.biography, ids), [], ArtistImages(artist, union, session)))
  }

  /** With an id: the artist and its overview are fetched (both need a session) and the metadata built. */
  function MetadataFor(sm: SessionManager, remote: Remote, id: SpotifyId): (r: Result<MetadataResult<MusicArtist>, Fault>)
    reads sm
    ensures sm.activeSession.None? ==> r == Failure(NoActiveSession)
    ensures sm.activeSession.Some? ==>
      r == ArtistMetadataOf(sm.GetArtist(id, remote).value, sm.GetArtistOverview(id, remote).value, id, sm.activeSession.value)
  {
    if sm.activeSession.None? then Failure(NoActiveSession)
    else ArtistMetadataOf(sm.GetArtist(id, remote).value, sm.GetArtistOverview(id, remote).value, id, sm.activeSession.value)
  }

  /** `GetMetadata`: no metadata when neither the cascade nor the search finds an artist; otherwise the metadata of the resolved id. */
  function MetadataOf(sm: SessionManager, remote: Remote, host: Host, info: ArtistInfo): (r: Result<MetadataResult<MusicArtist>, Fault>)
    reads sm
    ensures sm.activeSession.None? ==> r == Failure(NoActiveSession)
    ensures r == Success(NoMetadata) ==> IdOf(info, host).None?
    ensures r.Success? && r.value.Metadata? && IdOf(info, host).Some? ==>
      ExplicitId(r.value.item.providerIds, Constants.ProviderArtist) == IdOf(info, host)
  {
    match ResolvedId(sm, remote, host, info)
    case Failure(e) => Failure(e)
    case Success(None) => Success(NoMetadata)
    case Success(Some(id)) => MetadataFor(sm, remote, id)
  }

  method GetMetadata(sm: SessionManager, remote: Remote, host: Host, info: ArtistInfo) returns (r: Result<MetadataResult<MusicArtist>, Fault>)
    ensures r == MetadataOf(sm, remote, host, info)
  {
    var spotifyId := ResolveArtistId(info.providerIds, Paths(info.songInfos), info.name, host);
    if spotifyId.None? {
      var searched := GetSearchResults(sm, remote, host, info);
      if searched.Failure? {
        return Failure(searched.error);
      }
      if |searched.value| == 0 {
        return Success(NoMetadata);
      }
      var stored := StoredId(searched.value[0]);
      if stored.Failure? {
        return Failure(stored.error);
      }
      spotifyId := Some(stored.value);
    }
    r := FetchMetadata(sm, remote, spotifyId.value);
  }

  /** The fetches and the filling in of the item, once the id is known. */
  method FetchMetadata(sm: SessionManager, remote: Remote, id: SpotifyId) returns (r: Result<MetadataResult<MusicArtist>, Fault>)
    ensures r == MetadataFor(sm, remote, id)
  {
    var artistData := sm.GetArtist(id, remote);
    if artistData.Failure? {
      return Failure(artistData.error);
    }
    var artistOverview := sm.GetArtistOverview(id, remote).value;
    if artistOverview.artistUnion.None? {
      return Failure(NullReference);
    }
    var union := artistOverview.artistUnion.value;
    var images := ImageEntry(ImageHelpers.ArtistImageInfo(artistData.value, sm.activeSession.value), ImageHelpers.Primary);
    images := images + ImageEntry(ImageHelpers.OptionalHeaderInfo(union.headerImage), ImageHelpers.Backdrop);
    var item := MusicArtist(artistData.value.name, union.biography, map[Constants.ProviderArtist := Base62(id.id)]);
    r := Success(Metadata(item, [], images));
  }
}
