/**
 * The session manager: the one active connection to the service, the
 * guarded metadata, search and image-address operations over it, and the
 * truncation of search results.
 */
module Sessions {
  import opened Wrappers
  import opened Text
  import opened Positional
  import opened SpotifyIds
  import FileIds
  import opened Protocol
  import Cascade

  /** Stored login credentials. */
  datatype Credentials = Credentials(username: string, authData: seq<byte>)

  /**
   * A session to the service, told apart by a handle; `imageUrl` is the
   * image address template of its user data (missing while there is no
   * user data, or when it has no template).
   */
  datatype Session = Session(handle: nat, imageUrl: Option<string>)

  /** What the core throws. */
  datatype Fault =
    | NoActiveSession      // InvalidOperationException of the session guards
    | InvalidId(error: IdError)
    | NullReference
    | InvalidDate

  /** Searches keep the first five results. */
  const MaxSearchResults: nat := 5

  const FileIdPlaceholder: string := "{file_id}"
  const DefaultImageHost: string := "https://i.scdn.co/image/"
  const DefaultImageUrl: string := DefaultImageHost + FileIdPlaceholder

  // ---------------------------------------------------------------- search results

  /** `page?.Items ?? []`. */
  function Items(page: Option<SearchPage>): seq<SearchItem> {
    if page.Some? && page.value.items.Some? then page.value.items.value else []
  }

  /** `SpotifyId.FromBase62(i.Id!)`: a missing id is rejected like an empty one. */
  function ItemId(item: SearchItem): (r: Result<SpotifyId, Fault>)
    ensures r.Success? <==> item.id.Some? && ParseBase62(item.id.value).Success?
    ensures r.Success? ==> item.id.value == Base62(r.value.id)
  {
    match item.id
    case None => Failure(InvalidId(NullOrEmpty))
    case Some(s) =>
      match ParseBase62(s)
      case Success(id) =>
        Base62OfParseBase62(s);
        Success(id)
      case Failure(e) => Failure(InvalidId(e))
  }

  /** `ItemId` in the shape the list operations take: the items need no context. */
  function DecodeItem(item: SearchItem, context: ()): Result<SpotifyId, Fault> {
    ItemId(item)
  }

  /** `Select(FromBase62)` over some items: the first failure is thrown. */
  function DecodeItems(items: seq<SearchItem>): (r: Result<seq<SpotifyId>, Fault>)
    ensures r.Success? <==> forall k :: 0 <= k < |items| ==> ItemId(items[k]).Success?
    ensures r.Success? ==> |r.value| == |items| && forall k :: 0 <= k < |items| ==> ItemId(items[k]) == Success(r.value[k])
  {
    Cascade.MapAll(items, DecodeItem, ())
  }

  /** The first `MaxSearchResults` items of a sequence, or all of them. */
  function Take<T>(xs: seq<T>, n: nat): (r: seq<T>)
    ensures |r| == if |xs| < n then |xs| else n
    ensures r == xs[..|r|]
  {
    if |xs| < n then xs else xs[..n]
  }

  /**
   * `[.. page?.Items?.Select(i => FromBase62(i.Id!)).Take(5) ?? []]`: the ids
   * of the first five items; only those are decoded.
   */
  function SearchIds(page: Option<SearchPage>): (r: Result<seq<SpotifyId>, Fault>)
    ensures Items(page) == [] ==> r == Success([])
    ensures r.Success? ==> |r.value| == (if |Items(page)| < MaxSearchResults then |Items(page)| else MaxSearchResults)
    ensures r.Success? ==> forall k :: 0 <= k < |r.value| ==> Items(page)[k].id == Some(Base62(r.value[k].id))
  {
    DecodeItems(Take(Items(page), MaxSearchResults))
  }

  /** Items after the fifth are never looked at: appending more changes nothing. */
  lemma SearchIdsIgnoresRest(items: seq<SearchItem>, more: seq<SearchItem>)
    requires |items| >= MaxSearchResults
    ensures SearchIds(Some(SearchPage(Some(items + more)))) == SearchIds(Some(SearchPage(Some(items))))
  {
    assert Take(items + more, MaxSearchResults) == Take(items, MaxSearchResults);
  }

  /** Results written by `Base62` come back as the first five ids, in order. */
  lemma SearchIdsOfBase62(ids: seq<SpotifyId>)
    ensures
      var page := Some(SearchPage(Some(seq(|ids|, k requires 0 <= k < |ids| => SearchItem(Some(Base62(ids[k].id)))))));
      SearchIds(page) == Success(Take(ids, MaxSearchResults))
  {
    var items := seq(|ids|, k requires 0 <= k < |ids| => SearchItem(Some(Base62(ids[k].id))));
    var taken := Take(items, MaxSearchResults);
    forall k | 0 <= k < |taken| ensures ItemId(taken[k]) == Success(ids[k]) {
      ParseBase62OfBase62(ids[k].id);
    }
    var r := DecodeItems(taken);
    assert r.value == Take(ids, MaxSearchResults);
  }

  // ---------------------------------------------------------------- image addresses

  /** `FormatImageUrl` within a session: `{file_id}` replaced by the file id in hex, in the user's template or the default one. */
  function ImageUrl(session: Session, fileId: FileIds.FileId): string {
    Replace(session.imageUrl.ValueOr(DefaultImageUrl), FileIdPlaceholder, FileIds.Base16(fileId))
  }

  /** Without a template of its own, a session addresses an image at the default host by its hex id. */
  lemma DefaultImageUrlOf(session: Session, fileId: FileIds.FileId)
    requires session.imageUrl.None?
    ensures ImageUrl(session, fileId) == DefaultImageHost + FileIds.Base16(fileId)
  {
    assert '{' !in DefaultImageHost;
    ReplaceTail(DefaultImageHost, FileIdPlaceholder, FileIds.Base16(fileId));
  }

  // ---------------------------------------------------------------- fetched records

  /** The tracks the remote service answers for some ids, in order: what a loop of `GetTrackAsync` calls sees. */
  function FetchTracks(ids: seq<SpotifyId>, remote: Remote): (tracks: seq<Track>)
    ensures |tracks| == |ids|
    ensures forall k :: 0 <= k < |ids| ==> tracks[k] == remote.trackMetadata(SpotifyIds.Base16(ids[k].id))
  {
    seq(|ids|, k requires 0 <= k < |ids| => remote.trackMetadata(SpotifyIds.Base16(ids[k].id)))
  }

  function FetchAlbums(ids: seq<SpotifyId>, remote: Remote): (albums: seq<Album>)
    ensures |albums| == |ids|
    ensures forall k :: 0 <= k < |ids| ==> albums[k] == remote.albumMetadata(SpotifyIds.Base16(ids[k].id))
  {
    seq(|ids|, k requires 0 <= k < |ids| => remote.albumMetadata(SpotifyIds.Base16(ids[k].id)))
  }

  function FetchArtists(ids: seq<SpotifyId>, remote: Remote): (artists: seq<Artist>)
    ensures |artists| == |ids|
    ensures forall k :: 0 <= k < |ids| ==> artists[k] == remote.artistMetadata(SpotifyIds.Base16(ids[k].id))
  {
    seq(|ids|, k requires 0 <= k < |ids| => remote.artistMetadata(SpotifyIds.Base16(ids[k].id)))
  }

  // ---------------------------------------------------------------- the manager

  class SessionManager {
    /** `ActiveSession`. */
    var activeSession: Option<Session>
    /** The sessions disposed so far, in order: the effect of `DisposeAsync` on a session. */
    var disposed: seq<Session>

    /** The constructor starts connecting with the stored credentials, if there are any. */
    constructor(stored: Option<Credentials>, created: Session)
      ensures activeSession == (if stored.Some? then Some(created) else None)
      ensures disposed == []
    {
      activeSession := None;
      disposed := [];
      if stored.Some? {
        activeSession := Some(created);
      }
    }

    /**
     * `ConnectAsync`: the current session is disconnected first, then the
     * created session is active whether or not its connection succeeds.
     */
    method Connect(credentials: Credentials, created: Session)
      modifies this
      ensures activeSession == Some(created)
      ensures disposed == old(disposed) + old(activeSession).ToSeq()
    {
      Disconnect();
      activeSession := Some(created);
    }

    /** `DisconnectAsync`: clears the active session and disposes it; nothing happens without one. */
    method Disconnect()
      modifies this
      ensures activeSession == None
      ensures disposed == old(disposed) + old(activeSession).ToSeq()
    {
      if activeSession.Some? {
        var session := activeSession.value;
        activeSession := None;
        disposed := disposed + [session];
      }
    }

    /** `DisposeAsync`: disposes the active session but leaves it in place. */
    method Dispose()
      modifies this
      ensures activeSession == old(activeSession)
      ensures disposed == old(disposed) + old(activeSession).ToSeq()
    {
      if activeSession.Some? {
        disposed := disposed + [activeSession.value];
      }
    }

    /** `GetTrackAsync`: the guard, then the metadata requested by the id's hex form. */
    function GetTrack(id: SpotifyId, remote: Remote): (r: Result<Track, Fault>)
      reads this
      ensures r.Failure? <==> activeSession.None?
      ensures r.Failure? ==> r.error == NoActiveSession
      ensures r.Success? ==> r.value == remote.trackMetadata(SpotifyIds.Base16(id.id))
    {
      if activeSession.None? then Failure(NoActiveSession) else Success(remote.trackMetadata(SpotifyIds.Base16(id.id)))
    }

    function GetAlbum(id: SpotifyId, remote: Remote): (r: Result<Album, Fault>)
      reads this
      ensures r.Failure? <==> activeSession.None?
      ensures r.Failure? ==> r.error == NoActiveSession
      ensures r.Success? ==> r.value == remote.albumMetadata(SpotifyIds.Base16(id.id))
    {
      if activeSession.None? then Failure(NoActiveSession) else Success(remote.albumMetadata(SpotifyIds.Base16(id.id)))
    }

    function GetArtist(id: SpotifyId, remote: Remote): (r: Result<Artist, Fault>)
      reads this
      ensures r.Failure? <==> activeSession.None?
      ensures r.Failure? ==> r.error == NoActiveSession
      ensures r.Success? ==> r.value == remote.artistMetadata(SpotifyIds.Base16(id.id))
    {
      if activeSession.None? then Failure(NoActiveSession) else Success(remote.artistMetadata(SpotifyIds.Base16(id.id)))
    }

    /** `GetArtistOverviewAsync`: the partner API is queried by the base-62 form. */
    function GetArtistOverview(id: SpotifyId, remote: Remote): (r: Result<ArtistOverview, Fault>)
      reads this
      ensures r.Failure? <==> activeSession.None?
      ensures r.Failure? ==> r.error == NoActiveSession
      ensures r.Success? ==> r.value == remote.artistOverview(Base62(id.id))
    {
      if activeSession.None? then Failure(NoActiveSession) else Success(remote.artistOverview(Base62(id.id)))
    }

    /** `SearchTrackAsync`: the guard, then at most five track ids in the service's order. */
    function SearchTrack(name: string, remote: Remote): (r: Result<seq<SpotifyId>, Fault>)
      reads this
      ensures activeSession.None? ==> r == Failure(NoActiveSession)
      ensures activeSession.Some? ==>
        var results := remote.search(name, "track");
        r == SearchIds(if results.Some? then results.value.tracks else None)
    {
      if activeSession.None? then Failure(NoActiveSession)
      else
        var results := remote.search(name, "track");
        SearchIds(if results.Some? then results.value.tracks else None)
    }

    function SearchAlbum(name: string, remote: Remote): (r: Result<seq<SpotifyId>, Fault>)
      reads this
      ensures activeSession.None? ==> r == Failure(NoActiveSession)
      ensures activeSession.Some? ==>
        var results := remote.search(name, "album");
        r == SearchIds(if results.Some? then results.value.albums else None)
    {
      if activeSession.None? then Failure(NoActiveSession)
      else
        var results := remote.search(name, "album");
        SearchIds(if results.Some? then results.value.albums else None)
    }

    function SearchArtist(name: string, remote: Remote): (r: Result<seq<SpotifyId>, Fault>)
      reads this
      ensures activeSession.None? ==> r == Failure(NoActiveSession)
      ensures activeSession.Some? ==>
        var results := remote.search(name, "artist");
        r == SearchIds(if results.Some? then results.value.artists else None)
    {
      if activeSession.None? then Failure(NoActiveSession)
      else
        var results := remote.search(name, "artist");
        SearchIds(if results.Some? then results.value.artists else None)
    }

    /** `FormatImageUrl`: the guard, then the active session's image address. */
    function FormatImageUrl(fileId: FileIds.FileId): (r: Result<string, Fault>)
      reads this
      ensures r.Failure? <==> activeSession.None?
      ensures r.Success? ==> r.value == ImageUrl(activeSession.value, fileId)
    {
      if activeSession.None? then Failure(NoActiveSession) else Success(ImageUrl(activeSession.value, fileId))
    }
  }

  /** Disconnecting twice is disconnecting once: the second call disposes nothing. */
  method DisconnectTwice(m: SessionManager)
    modifies m
    ensures m.activeSession == None
    ensures m.disposed == old(m.disposed) + old(m.activeSession).ToSeq()
  {
    m.Disconnect();
    m.Disconnect();
  }
}
