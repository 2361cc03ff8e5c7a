/**
 * The artist image provider: the portrait and the header of the resolved
 * artist, or else those of every search candidate that has a portrait,
 * in order. The id cascade looks at the paths of the artist's children
 * and of the files under its folder, each path once.
 */
module ArtistImages {
  import opened Wrappers
  import opened SpotifyIds
  import opened Protocol
  import opened Sessions
  import opened ImageHelpers
  import opened Cascade
  import opened LibraryItems

  /** The paths the cascade reads tags from: the children's, then the folder's files, without repeats. */
  function CascadePaths(item: BaseItem, host: Host): (paths: seq<string>)
    ensures forall k :: 0 <= k < |item.children| ==> item.children[k].path in paths
    ensures forall k :: 0 <= k < |host.childPaths(item.path)| ==> host.childPaths(item.path)[k] in paths
    ensures forall i, j :: 0 <= i < j < |paths| ==> paths[i] != paths[j]
  {
    var all := Paths(item.children) + host.childPaths(item.path);
    assert forall k :: 0 <= k < |item.children| ==> all[k] == item.children[k].path;
    assert forall k :: 0 <= k < |host.childPaths(item.path)| ==> all[|item.children| + k] == host.childPaths(item.path)[k];
    Distinct(all)
  }

  /** The children's own paths come first, in their order, when none repeats. */
  lemma ChildrenFirst(item: BaseItem, host: Host)
    requires forall i, j :: 0 <= i < j < |item.children| ==> item.children[i].path != item.children[j].path
    ensures |item.children| <= |CascadePaths(item, host)| && CascadePaths(item, host)[..|item.children|] == Paths(item.children)
  {
    var a := Paths(item.children);
    DistinctPrefix(a, host.childPaths(item.path));
    DistinctOfDistinct(a);
  }

  /** A list without repeats is its own de-duplication. */
  lemma {:induction false} DistinctOfDistinct(xs: seq<string>)
    requires forall i, j :: 0 <= i < j < |xs| ==> xs[i] != xs[j]
    ensures Distinct(xs) == xs
  {
    if |xs| > 0 {
      var init := xs[..|xs| - 1];
      DistinctOfDistinct(init);
      assert xs[|xs| - 1] !in init;
      assert xs == init + [xs[|xs| - 1]];
    }
  }

  /** The header of an overview, null-safe at both steps. */
  function HeaderOf(overview: ArtistOverview): (r: Option<RemoteImageInfo>)
    ensures r.Some? <==> overview.artistUnion.Some? && OptionalHeaderInfo(overview.artistUnion.value.headerImage).Some?
    ensures r.Some? ==> r.value.imageType == Backdrop
  {
    if overview.artistUnion.None? then None else OptionalHeaderInfo(overview.artistUnion.value.headerImage)
  }

  /**
   * The images of one artist: nothing without a portrait; otherwise the
   * portrait, followed by the header when there is one.
   */
  function ArtistImagesOf(candidate: (Artist, ArtistOverview), session: Session): (images: seq<RemoteImageInfo>)
    ensures |images| <= 2
    ensures images == [] <==> ArtistImageInfo(candidate.0, session).None?
    ensures |images| > 0 ==> images[0] == ArtistImageInfo(candidate.0, session).value && images[0].imageType == Primary
    ensures |images| == 2 <==> ArtistImageInfo(candidate.0, session).Some? && HeaderOf(candidate.1).Some?
    ensures |images| == 2 ==> images[1] == HeaderOf(candidate.1).value && images[1].imageType == Backdrop
  {
    match ArtistImageInfo(candidate.0, session)
    case None => []
    case Some(image) => [image] + HeaderOf(candidate.1).ToSeq()
  }

  /** `GetArtistAsync` and `GetArtistOverviewAsync` for each search candidate. */
  function FetchCandidates(ids: seq<SpotifyId>, remote: Remote): (candidates: seq<(Artist, ArtistOverview)>)
    ensures |candidates| == |ids|
    ensures forall k :: 0 <= k < |ids| ==>
      candidates[k] == (remote.artistMetadata(SpotifyIds.Base16(ids[k].id)), remote.artistOverview(Base62(ids[k].id)))
  {
    seq(|ids|, k requires 0 <= k < |ids| => (remote.artistMetadata(SpotifyIds.Base16(ids[k].id)), remote.artistOverview(Base62(ids[k].id))))
  }

  /**
   * `GetImages`: nothing for an item that is not an artist; the images of
   * the resolved artist; otherwise the images of every search candidate,
   * in order.
   */
  function ImagesOf(sm: SessionManager, remote: Remote, host: Host, item: BaseItem): (r: Result<seq<RemoteImageInfo>, Fault>)
    reads sm
    ensures item.kind != MusicArtistItem ==> r == Success([])
    ensures item.kind == MusicArtistItem && sm.activeSession.None? ==> r == Failure(NoActiveSession)
    ensures item.kind == MusicArtistItem && sm.activeSession.Some? && ArtistIdOf(item.providerIds, CascadePaths(item, host), item.name, host).Some? ==>
      var id := ArtistIdOf(item.providerIds, CascadePaths(item, host), item.name, host).value;
      r == Success(ArtistImagesOf(FetchCandidates([id], remote)[0], sm.activeSession.value))
    ensures r.Success? && item.kind == MusicArtistItem ==> |r.value| <= 2 * MaxSearchResults
  {
    if item.kind != MusicArtistItem then Success([])
    else
      match ArtistIdOf(item.providerIds, CascadePaths(item, host), item.name, host)
      case Some(id) =>
        if sm.activeSession.None? then Failure(NoActiveSession)
        else Success(ArtistImagesOf((sm.GetArtist(id, remote).value, sm.GetArtistOverview(id, remote).value), sm.activeSession.value))
      case None =>
        match sm.SearchArtist(item.name, remote)
        case Failure(e) => Failure(e)
        case Success(ids) => Success(CandidateImages(ids, remote, sm.activeSession.value))
  }

  /** The search path: the images of every candidate, in order. */
  function CandidateImages(ids: seq<SpotifyId>, remote: Remote, session: Session): (images: seq<RemoteImageInfo>)
    ensures |images| <= 2 * |ids|
  {
    FlatMap(FetchCandidates(ids, remote), ArtistImagesOf, session, 2)
  }

  method GetImages(sm: SessionManager, remote: Remote, host: Host, item: BaseItem) returns (r: Result<seq<RemoteImageInfo>, Fault>)
    ensures r == ImagesOf(sm, remote, host, item)
  {
    if item.kind != MusicArtistItem {
      return Success([]);
    }
    var paths := CascadePaths(item, host);
    var spotifyId := ResolveArtistId(item.providerIds, paths, item.name, host);
    if spotifyId.Some? {
      var artistData := sm.GetArtist(spotifyId.value, remote);
      if artistData.Failure? {
        return Failure(artistData.error);
      }
      var artistOverview := sm.GetArtistOverview(spotifyId.value, remote).value;
      var artistImage := ArtistImageInfo(artistData.value, sm.activeSession.value);
      var artistHeader := HeaderOf(artistOverview);
      if artistImage.Some? {
        return Success([artistImage.value] + artistHeader.ToSeq());
      }
      return Success([]);
    }
    var searched := sm.SearchArtist(item.name, remote);
    if searched.Failure? {
      return Failure(searched.error);
    }
    var images := CollectImages(sm, remote, searched.value);
    r := Success(images);
  }

  /** The loop over the search candidates: a candidate with a portrait adds it, and then its header if it has one. */
  method CollectImages(sm: SessionManager, remote: Remote, ids: seq<SpotifyId>) returns (images: seq<RemoteImageInfo>)
    requires sm.activeSession.Some?
    ensures images == CandidateImages(ids, remote, sm.activeSession.value)
  {
    var candidates := FetchCandidates(ids, remote);
    var session := sm.activeSession.value;
    images := [];
    for i := 0 to |ids|
      invariant images == FlatMap(candidates[..i], ArtistImagesOf, session, 2)
    {
      var artistData := sm.GetArtist(ids[i], remote).value;
      var artistOverview := sm.GetArtistOverview(ids[i], remote).value;
      assert (artistData, artistOverview) == candidates[i];
      FlatMapStep(candidates, i, ArtistImagesOf, session, 2);
      var artistImage := ArtistImageInfo(artistData, session);
      if artistImage.Some? {
        var added := [artistImage.value] + HeaderOf(artistOverview).ToSeq();
        assert added == ArtistImagesOf(candidates[i], session);
        images := images + added;
      }
    }
    assert candidates[..|ids|] == candidates;
  }

  // ---------------------------------------------------------------- the search loop's header, as written

  /**
   * The header the search loop reads, as written: null-safe at the artist
   * part only, so an artist part without a header image reaches the
   * header's reader with a null receiver, which dereferences it and throws.
   */
  function SearchHeaderAsWritten(overview: ArtistOverview): (r: Result<Option<RemoteImageInfo>, Fault>)
    ensures r.Failure? <==> overview.artistUnion.Some? && overview.artistUnion.value.headerImage.None?
    ensures r.Success? ==> r.value == HeaderOf(overview)
  {
    match overview.artistUnion
    case None => Success(None)
    case Some(union) =>
      match union.headerImage
      case None => Failure(NullReference)
      case Some(header) => Success(HeaderImageInfo(header))
  }

  /** One search candidate's images as the loop is written: the header is read only after a portrait was found. */
  function CandidateImagesAsWritten(candidate: (Artist, ArtistOverview), session: Session): (r: Result<seq<RemoteImageInfo>, Fault>)
    ensures r.Success? ==> r.value == ArtistImagesOf(candidate, session)
    ensures r.Failure? <==> ArtistImageInfo(candidate.0, session).Some? && candidate.1.artistUnion.Some? && candidate.1.artistUnion.value.headerImage.None?
  {
    match ArtistImageInfo(candidate.0, session)
    case None => Success([])
    case Some(image) =>
      match SearchHeaderAsWritten(candidate.1)
      case Failure(e) => Failure(e)
      case Success(header) => Success([image] + header.ToSeq())
  }

  /**
   * A candidate with a portrait whose overview has an artist part but no
   * header image: as written the search throws, where the resolved path
   * offers the portrait alone.
   */
  lemma HeaderlessCandidateThrows(gid: Gid, session: Session)
    ensures
      var artist := Artist(gid, "", [], None, [Image([], 0)]);
      var overview := ArtistOverview(Some(ArtistUnion(None, "")));
      CandidateImagesAsWritten((artist, overview), session) == Failure(NullReference)
      && |ArtistImagesOf((artist, overview), session)| == 1
  {
    var artist := Artist(gid, "", [], None, [Image([], 0)]);
    assert ArtistImageInfo(artist, session).Some?;
  }
}
