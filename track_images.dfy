/**
 * The track image provider: the image of the resolved track's album, or
 * else the images of the search candidates that have one, in order.
 */
module TrackImages {
  import opened Wrappers
  import opened SpotifyIds
  import opened Protocol
  import opened Sessions
  import opened ImageHelpers
  import opened Cascade
  import opened LibraryItems

  /**
   * `GetImages`: nothing for an item that is not a track; the one image of
   * the resolved track if it has one; otherwise the images of the search
   * candidates, skipping those without one.
   */
  function ImagesOf(sm: SessionManager, remote: Remote, host: Host, item: BaseItem): (r: Result<seq<RemoteImageInfo>, Fault>)
    reads sm
    ensures item.kind != AudioItem ==> r == Success([])
    ensures item.kind == AudioItem && sm.activeSession.None? ==> r == Failure(NoActiveSession)
    ensures item.kind == AudioItem && sm.activeSession.Some? && TrackIdOf(RefOf(item), host).Some? ==>
      r == Success(TrackImageInfo(remote.trackMetadata(SpotifyIds.Base16(TrackIdOf(RefOf(item), host).value.id)), sm.activeSession.value).ToSeq())
    ensures r.Success? && item.kind == AudioItem && TrackIdOf(RefOf(item), host).None? ==> |r.value| <= MaxSearchResults
  {
    if item.kind != AudioItem then Success([])
    else
      match TrackIdOf(RefOf(item), host)
      case Some(id) =>
        (match sm.GetTrack(id, remote)
         case Failure(e) => Failure(e)
         case Success(track) => Success(TrackImageInfo(track, sm.activeSession.value).ToSeq()))
      case None =>
        match sm.SearchTrack(item.name, remote)
        case Failure(e) => Failure(e)
        case Success(ids) => Success(Collect(FetchTracks(ids, remote), TrackImageInfo, sm.activeSession.value))
  }

  /** Every image a track provider offers is a primary image. */
  lemma ImagesArePrimary(sm: SessionManager, remote: Remote, host: Host, item: BaseItem)
    requires ImagesOf(sm, remote, host, item).Success?
    ensures forall k :: 0 <= k < |ImagesOf(sm, remote, host, item).value| ==> ImagesOf(sm, remote, host, item).value[k].imageType == Primary
  {
    if item.kind == AudioItem && TrackIdOf(RefOf(item), host).None? {
      CollectedPrimary(FetchTracks(sm.SearchTrack(item.name, remote).value, remote), sm.activeSession.value);
    }
  }

  lemma CollectedPrimary(tracks: seq<Track>, session: Session)
    ensures forall k :: 0 <= k < |Collect(tracks, TrackImageInfo, session)| ==> Collect(tracks, TrackImageInfo, session)[k].imageType == Primary
  {
    var images := Collect(tracks, TrackImageInfo, session);
    forall k | 0 <= k < |images|
      ensures images[k].imageType == Primary
    {
      CollectSound(tracks, TrackImageInfo, session, images[k]);
    }
  }

  method GetImages(sm: SessionManager, remote: Remote, host: Host, item: BaseItem) returns (r: Result<seq<RemoteImageInfo>, Fault>)
    ensures r == ImagesOf(sm, remote, host, item)
  {
    if item.kind != AudioItem {
      return Success([]);
    }
    var spotifyId := ResolveTrackId(RefOf(item), host);
    if spotifyId.Some? {
      var trackData := sm.GetTrack(spotifyId.value, remote);
      if trackData.Failure? {
        return Failure(trackData.error);
      }
      var trackImage := TrackImageInfo(trackData.value, sm.activeSession.value);
      if trackImage.Some? {
        return Success([trackImage.value]);
      }
      return Success([]);
    }
    var searched := sm.SearchTrack(item.name, remote);
    if searched.Failure? {
      return Failure(searched.error);
    }
    var images := CollectImages(sm, remote, searched.value);
    r := Success(images);
  }

  /** The loop over the search candidates, adding each image that exists. */
  method CollectImages(sm: SessionManager, remote: Remote, ids: seq<SpotifyId>) returns (images: seq<RemoteImageInfo>)
    requires sm.activeSession.Some?
    ensures images == Collect(FetchTracks(ids, remote), TrackImageInfo, sm.activeSession.value)
  {
    var tracks := FetchTracks(ids, remote);
    var session := sm.activeSession.value;
    images := [];
    for i := 0 to |ids|
      invariant images == Collect(tracks[..i], TrackImageInfo, session)
    {
      var trackData := sm.GetTrack(ids[i], remote).value;
      assert trackData == tracks[i];
      CollectStep(tracks, i, TrackImageInfo, session);
      var trackImage := TrackImageInfo(trackData, session);
      if trackImage.Some? {
        images := images + [trackImage.value];
      }
    }
    assert tracks[..|ids|] == tracks;
  }
}
