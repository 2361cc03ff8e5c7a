/**
 * The album image provider: the image of the resolved album, or else the
 * images of the search candidates of the wanted year that have one, in
 * order.
 */
module AlbumImages {
  import opened Wrappers
  import opened SpotifyIds
  import opened Protocol
  import opened Sessions
  import opened ImageHelpers
  import opened Cascade
  import opened LibraryItems

  /**
   * `GetImages`: nothing for an item that is not an album; the one image of
   * the resolved album if it has one; otherwise the images of the search
   * candidates with the item's year (any year when it has none), skipping
   * those without one.
   */
  function ImagesOf(sm: SessionManager, remote: Remote, host: Host, item: BaseItem): (r: Result<seq<RemoteImageInfo>, Fault>)
    reads sm
    ensures item.kind != MusicAlbumItem ==> r == Success([])
    ensures item.kind == MusicAlbumItem && sm.activeSession.None? ==> r == Failure(NoActiveSession)
    ensures item.kind == MusicAlbumItem && sm.activeSession.Some? && AlbumIdOf(item.providerIds, item.children, host).Some? ==>
      r == Success(AlbumImageInfo(remote.albumMetadata(SpotifyIds.Base16(AlbumIdOf(item.providerIds, item.children, host).value.id)), sm.activeSession.value).ToSeq())
    ensures r.Success? && item.kind == MusicAlbumItem && AlbumIdOf(item.providerIds, item.children, host).None? ==> |r.value| <= MaxSearchResults
  {
    if item.kind != MusicAlbumItem then Success([])
    else
      match AlbumIdOf(item.providerIds, item.children, host)
      case Some(id) =>
        (match sm.GetAlbum(id, remote)
         case Failure(e) => Failure(e)
         case Success(album) => Success(AlbumImageInfo(album, sm.activeSession.value).ToSeq()))
      case None =>
        match sm.SearchAlbum(item.name, remote)
        case Failure(e) => Failure(e)
        case Success(ids) => Success(CandidateImages(ids, remote, item.productionYear, sm.activeSession.value))
  }

  /** The search path: the images of the candidates of the year, in order. */
  function CandidateImages(ids: seq<SpotifyId>, remote: Remote, year: Option<int>, session: Session): (images: seq<RemoteImageInfo>)
    ensures |images| <= |ids|
  {
    Collect(KeepYear(FetchAlbums(ids, remote), year, AlbumYear), AlbumImageInfo, session)
  }

  /** Every candidate image is the primary image of a candidate of the wanted year. */
  lemma CandidateImagesOfYear(ids: seq<SpotifyId>, remote: Remote, year: Option<int>, session: Session, image: RemoteImageInfo)
    requires image in CandidateImages(ids, remote, year, session)
    ensures image.imageType == Primary
    ensures exists k :: 0 <= k < |ids| && var album := FetchAlbums(ids, remote)[k];
      AlbumImageInfo(album, session) == Some(image) && (year.None? || album.date.year == year.value)
  {
    var albums := FetchAlbums(ids, remote);
    KeepCollectSound(albums, year, AlbumYear, AlbumImageInfo, session, image);
    var k :| 0 <= k < |albums| && AlbumImageInfo(albums[k], session) == Some(image) && (year.None? || AlbumYear(albums[k]) == year.value);
    assert AlbumImageInfo(albums[k], session).value.imageType == Primary;
  }

  method GetImages(sm: SessionManager, remote: Remote, host: Host, item: BaseItem) returns (r: Result<seq<RemoteImageInfo>, Fault>)
    ensures r == ImagesOf(sm, remote, host, item)
  {
    if item.kind != MusicAlbumItem {
      return Success([]);
    }
    var spotifyId := ResolveAlbumId(item.providerIds, item.children, host);
    if spotifyId.Some? {
      var albumData := sm.GetAlbum(spotifyId.value, remote);
      if albumData.Failure? {
        return Failure(albumData.error);
      }
      var albumImage := AlbumImageInfo(albumData.value, sm.activeSession.value);
      if albumImage.Some? {
        return Success([albumImage.value]);
      }
      return Success([]);
    }
    var searched := sm.SearchAlbum(item.name, remote);
    if searched.Failure? {
      return Failure(searched.error);
    }
    var images := CollectKept(FetchAlbums(searched.value, remote), item.productionYear, AlbumYear, AlbumImageInfo, sm.activeSession.value);
    r := Success(images);
  }
}
