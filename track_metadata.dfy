/**
 * The track metadata provider: the track id cascade, the metadata of the
 * resolved track with its people by role, and the search results, either
 * the one resolved track or the year-filtered search candidates in order.
 */
module TrackMetadata {
  import opened Wrappers
  import opened SpotifyIds
  import Constants
  import opened Protocol
  import opened Sessions
  import ImageHelpers
  import opened Cascade
  import opened MetadataHelpers

  /** A `SongInfo`: the item's provider ids and path, its name, and the year given in the search form. */
  datatype SongInfo = SongInfo(item: ItemRef, name: string, year: Option<int>)

  /** The `Audio` item filled in from a track. */
  datatype Audio = Audio(
    name: string,
    album: string,
    artists: seq<string>,
    albumArtists: seq<string>,
    productionYear: int,
    premiereDate: Constants.DateTime,
    providerIds: map<string, string>)

  /** The person kind and role name of an artist's role; the orchestra and unknown roles are of unknown kind. */
  function RoleOf(role: ArtistRole): (r: (PersonKind, string))
    ensures r.0 == ArtistPerson <==> role == MainArtist || role == FeaturedArtist
    ensures r.0 == UnknownPerson <==> role == RoleUnknown || role == Orchestra || role.OtherRole?
    ensures role.OtherRole? ==> r == (UnknownPerson, "Unknown")
  {
    match role
    case MainArtist => (ArtistPerson, "Main Artist")
    case FeaturedArtist => (ArtistPerson, "Featured Artist")
    case Remixer => (RemixerPerson, "Remixer")
    case Actor => (ActorPerson, "Actor")
    case Composer => (ComposerPerson, "Composer")
    case Conductor => (ConductorPerson, "Conductor")
    case Orchestra => (UnknownPerson, "Orchestra")
    case RoleUnknown => (UnknownPerson, "Unknown")
    case OtherRole(_) => (UnknownPerson, "Unknown")
  }

  function PersonOf(artist: ArtistWithRole): PersonInfo {
    PersonInfo(artist.artistName, RoleOf(artist.role).1, RoleOf(artist.role).0)
  }

  /** One person per artist with a role, in the track's order, named as the artist. */
  function People(artists: seq<ArtistWithRole>): (people: seq<PersonInfo>)
    ensures |people| == |artists|
    ensures forall k :: 0 <= k < |artists| ==> people[k].name == artists[k].artistName && (people[k].kind, people[k].role) == RoleOf(artists[k].role)
  {
    seq(|artists|, k requires 0 <= k < |artists| => PersonOf(artists[k]))
  }

  /** The `AddPerson` loop. */
  method AddPeople(artists: seq<ArtistWithRole>) returns (people: seq<PersonInfo>)
    ensures people == People(artists)
  {
    people := [];
    for i := 0 to |artists|
      invariant people == People(artists[..i])
    {
      people := people + [PersonOf(artists[i])];
    }
    assert artists[..|artists|] == artists;
  }

  /**
   * The metadata of a fetched track under the resolved id: the item, its
   * people, its primary image if it has one, and the resolved id, the
   * album's id and the first artist's id as provider ids; an impossible
   * album date throws.
   */
  function TrackMetadataOf(track: Track, id: SpotifyId, session: Session): (r: Result<MetadataResult<Audio>, Fault>)
    ensures r.Success? <==> Constants.ToDateTime(track.album.date).Success?
    ensures r.Success? ==> r.value.Metadata?
    ensures r.Success? ==>
      var item := r.value.item;
      item.name == track.name && item.album == track.album.name
      && item.artists == Names(track.artist) && item.albumArtists == Names(track.album.artist)
      && item.productionYear == track.album.date.year
      && item.premiereDate == Constants.ToDateTime(track.album.date).value
      && item.providerIds == TrackIds(id, track)
      && r.value.people == People(track.artistWithRole)
      && r.value.remoteImages == ImageEntry(ImageHelpers.TrackImageInfo(track, session), ImageHelpers.Primary)
  {
    match PremiereDate(track.album.date)
    case Failure(e) => Failure(e)
    case Success(date) =>
      var item := Audio(track.name, track.album.name, Names(track.artist), Names(track.album.artist), track.album.date.year, date, TrackIds(id, track));
      Success(Metadata(item, People(track.artistWithRole), ImageEntry(ImageHelpers.TrackImageInfo(track, session), ImageHelpers.Primary)))
  }

  /**
   * `GetMetadata`: no metadata without an id; with one, the track is
   * fetched (which needs a session) and its metadata returned.
   */
  function MetadataOf(sm: SessionManager, remote: Remote, host: Host, info: SongInfo): (r: Result<MetadataResult<Audio>, Fault>)
    reads sm
    ensures TrackIdOf(info.item, host).None? ==> r == Success(NoMetadata)
    ensures TrackIdOf(info.item, host).Some? && sm.activeSession.None? ==> r == Failure(NoActiveSession)
    ensures r.Success? && r.value.Metadata? ==> ExplicitId(r.value.item.providerIds, Constants.ProviderTrack) == TrackIdOf(info.item, host)
  {
    match TrackIdOf(info.item, host)
    case None => Success(NoMetadata)
    case Some(id) =>
      match sm.GetTrack(id, remote)
      case Failure(e) => Failure(e)
      case Success(track) => TrackMetadataOf(track, id, sm.activeSession.value)
  }

  method GetMetadata(sm: SessionManager, remote: Remote, host: Host, info: SongInfo) returns (r: Result<MetadataResult<Audio>, Fault>)
    ensures r == MetadataOf(sm, remote, host, info)
  {
    var spotifyId := ResolveTrackId(info.item, host);
    if spotifyId.None? {
      return Success(NoMetadata);
    }
    var fetched := sm.GetTrack(spotifyId.value, remote);
    if fetched.Failure? {
      return Failure(fetched.error);
    }
    var track := fetched.value;
    var date := PremiereDate(track.album.date);
    if date.Failure? {
      return Failure(date.error);
    }
    var people := AddPeople(track.artistWithRole);
    var images := ImageEntry(ImageHelpers.TrackImageInfo(track, sm.activeSession.value), ImageHelpers.Primary);
    var ids := map[Constants.ProviderTrack := Base62(spotifyId.value.id)];
    ids := ids[Constants.ProviderAlbum := GidBase62(track.album.gid)];
    if |track.artist| > 0 {
      ids := ids[Constants.ProviderArtist := GidBase62(track.artist[0].gid)];
    }
    var item := Audio(track.name, track.album.name, Names(track.artist), Names(track.album.artist), track.album.date.year, date.value, ids);
    r := Success(Metadata(item, people, images));
  }

  // ---------------------------------------------------------------- search

  function TrackYear(track: Track): int { track.album.date.year }

  /** The search path: the candidates' results, dropping those of another year when a year is given. */
  function CandidateResults(ids: seq<SpotifyId>, remote: Remote, year: Option<int>, session: Session): (r: Result<seq<RemoteSearchResult>, Fault>)
    ensures r.Success? ==> |r.value| <= |ids|
    ensures year.None? && r.Success? ==> |r.value| == |ids|
  {
    MapAll(KeepYear(FetchTracks(ids, remote), year, TrackYear), TrackResult, session)
  }

  /** With a year given, every search result is of that year. */
  lemma CandidateYears(ids: seq<SpotifyId>, remote: Remote, year: int, session: Session)
    requires CandidateResults(ids, remote, Some(year), session).Success?
    ensures forall k :: 0 <= k < |CandidateResults(ids, remote, Some(year), session).value| ==>
      CandidateResults(ids, remote, Some(year), session).value[k].productionYear == Some(year)
  {
    var kept := KeepYear(FetchTracks(ids, remote), Some(year), TrackYear);
    var r := MapAll(kept, TrackResult, session).value;
    forall k | 0 <= k < |r|
      ensures r[k].productionYear == Some(year)
    {
      assert kept[k] in kept;
      assert TrackResult(kept[k], session) == Success(r[k]);
    }
  }

  /**
   * `GetSearchResults`: the one resolved track, or else the search
   * candidates (at most five) that have the given year, in order.
   */
  function SearchResultsOf(sm: SessionManager, remote: Remote, host: Host, info: SongInfo): (r: Result<seq<RemoteSearchResult>, Fault>)
    reads sm
    ensures sm.activeSession.None? ==> r == Failure(NoActiveSession)
    ensures r.Success? && TrackIdOf(info.item, host).Some? ==> |r.value| == 1
    ensures r.Success? ==> |r.value| <= MaxSearchResults
  {
    match TrackIdOf(info.item, host)
    case Some(id) =>
      (match sm.GetTrack(id, remote)
       case Failure(e) => Failure(e)
       case Success(track) =>
         match TrackResult(track, sm.activeSession.value)
         case Failure(e) => Failure(e)
         case Success(result) => Success([result]))
    case None =>
      match sm.SearchTrack(info.name, remote)
      case Failure(e) => Failure(e)
      case Success(ids) => CandidateResults(ids, remote, info.year, sm.activeSession.value)
  }

  method GetSearchResults(sm: SessionManager, remote: Remote, host: Host, info: SongInfo) returns (r: Result<seq<RemoteSearchResult>, Fault>)
    ensures r == SearchResultsOf(sm, remote, host, info)
  {
    var spotifyId := ResolveTrackId(info.item, host);
    if spotifyId.Some? {
      var fetched := sm.GetTrack(spotifyId.value, remote);
      if fetched.Failure? {
        return Failure(fetched.error);
      }
      var result := TrackResult(fetched.value, sm.activeSession.value);
      if result.Failure? {
        return Failure(result.error);
      }
      return Success([result.value]);
    }
    var searched := sm.SearchTrack(info.name, remote);
    if searched.Failure? {
      return Failure(searched.error);
    }
    r := MapKept(FetchTracks(searched.value, remote), info.year, TrackYear, TrackResult, sm.activeSession.value);
  }
}
