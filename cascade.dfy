/**
 * The id resolution cascade the metadata and image providers share: an
 * explicit provider id first, then related items in order until one gives
 * an id, and the list operations the providers' search loops are built on
 * (the optional year filter, collecting present values, all-or-first-error
 * conversion, and first-occurrence de-duplication).
 */
module Cascade {
  import opened Wrappers
  import opened SpotifyIds
  import Constants
  import Tags

  /** A library item as the cascade sees it: its provider ids and its file path. */
  datatype ItemRef = ItemRef(providerIds: map<string, string>, path: string)

  /**
   * The host services the providers call: reading a file's tags, the
   * `GetChildPaths` of a folder, and the name lookups `GetArtistByName`
   * and `GetAlbumArtistByName` on extracted tag ids.
   */
  datatype Host = Host(
    tagFields: string -> Tags.Fields,
    childPaths: string -> seq<string>,
    artistByName: (Tags.EmbeddedIds, string) -> Option<SpotifyId>,
    albumArtistByName: (Tags.EmbeddedIds, string) -> Option<SpotifyId>)

  // ---------------------------------------------------------------- explicit ids

  /**
   * `item.GetProviderId(key) is { } id ? SpotifyId.TryFromBase62(id) : null`:
   * an id exactly when the key is present and its value is a base-62 id.
   */
  function ExplicitId(providerIds: map<string, string>, key: string): (r: Option<SpotifyId>)
    ensures r.Some? <==> key in providerIds && ParseBase62(providerIds[key]).Success?
    ensures r.Some? ==> providerIds[key] == Base62(r.value.id)
  {
    if key in providerIds && ParseBase62(providerIds[key]).Success? then
      Base62OfParseBase62(providerIds[key]);
      Some(ParseBase62(providerIds[key]).value)
    else None
  }

  method ReadExplicitId(providerIds: map<string, string>, key: string) returns (r: Option<SpotifyId>)
    ensures r == ExplicitId(providerIds, key)
  {
    if key in providerIds {
      r := TryFromBase62(providerIds[key]);
    } else {
      r := None;
    }
  }

  /** An id stored by its base-62 form is read back. */
  lemma ExplicitIdOfBase62(providerIds: map<string, string>, key: string, id: SpotifyId)
    requires key in providerIds && providerIds[key] == Base62(id.id)
    ensures ExplicitId(providerIds, key) == Some(id)
  {
    ParseBase62OfBase62(id.id);
  }

  /** `SetProviderId(key, id.Base62)`: the id reads back under its key, and every other key reads as before. */
  function WithId(providerIds: map<string, string>, key: string, id: SpotifyId): (r: map<string, string>)
    ensures r.Keys == providerIds.Keys + {key}
    ensures ExplicitId(r, key) == Some(id)
    ensures forall other :: other != key ==> ExplicitId(r, other) == ExplicitId(providerIds, other)
  {
    ParseBase62OfBase62(id.id);
    providerIds[key := Base62(id.id)]
  }

  // ---------------------------------------------------------------- first hit

  /** `spotifyId ??= probe(x)` over a list, stopping at the first element that gives an id. */
  function FirstHit<T, C>(xs: seq<T>, probe: (T, C) -> Option<SpotifyId>, context: C): (r: Option<SpotifyId>)
    ensures r.None? <==> forall k :: 0 <= k < |xs| ==> probe(xs[k], context).None?
  {
    if |xs| == 0 then None
    else
      assert forall k :: 1 <= k < |xs| ==> xs[k] == xs[1..][k - 1];
      probe(xs[0], context).OrElse(FirstHit(xs[1..], probe, context))
  }

  /** The hit is the first element's that gives one: everything before it gives none, and what follows is not looked at. */
  lemma {:induction false} FirstHitAt<T, C>(xs: seq<T>, probe: (T, C) -> Option<SpotifyId>, context: C, k: nat)
    requires k < |xs| && probe(xs[k], context).Some?
    requires forall j :: 0 <= j < k ==> probe(xs[j], context).None?
    ensures FirstHit(xs, probe, context) == probe(xs[k], context)
  {
    if k > 0 {
      assert forall j :: 0 <= j < k - 1 ==> xs[1..][j] == xs[j + 1];
      FirstHitAt(xs[1..], probe, context, k - 1);
    }
  }

  /** Scanning a list in two parts: the second part counts only when the first gives nothing. */
  lemma {:induction false} FirstHitConcat<T, C>(a: seq<T>, b: seq<T>, probe: (T, C) -> Option<SpotifyId>, context: C)
    ensures FirstHit(a + b, probe, context) == FirstHit(a, probe, context).OrElse(FirstHit(b, probe, context))
  {
    if |a| > 0 {
      assert (a + b)[0] == a[0];
      assert (a + b)[1..] == a[1..] + b;
      FirstHitConcat(a[1..], b, probe, context);
    } else {
      assert a + b == b;
    }
  }

  // ---------------------------------------------------------------- year filter

  /** The search loops' `if (year is not null && year != yearOf(x)) continue;`, in order. */
  function KeepYear<T>(xs: seq<T>, year: Option<int>, yearOf: T -> int): (kept: seq<T>)
    ensures |kept| <= |xs|
    ensures year.None? ==> kept == xs
    ensures forall x :: x in kept ==> x in xs && (year.Some? ==> yearOf(x) == year.value)
  {
    if |xs| == 0 then []
    else
      var last := xs[|xs| - 1];
      assert xs[..|xs| - 1] + [last] == xs;
      KeepYear(xs[..|xs| - 1], year, yearOf) + (if year.None? || yearOf(last) == year.value then [last] else [])
  }

  /** Nothing with the requested year is dropped. */
  lemma {:induction false} KeepYearComplete<T>(xs: seq<T>, year: Option<int>, yearOf: T -> int, x: T)
    requires x in xs && (year.None? || yearOf(x) == year.value)
    ensures x in KeepYear(xs, year, yearOf)
  {
    var last := xs[|xs| - 1];
    if x != last {
      assert xs == xs[..|xs| - 1] + [last];
      KeepYearComplete(xs[..|xs| - 1], year, yearOf, x);
    }
  }

  /** The filter keeps the order of the candidates: filtering a concatenation concatenates the filtered parts. */
  lemma {:induction false} KeepYearConcat<T>(a: seq<T>, b: seq<T>, year: Option<int>, yearOf: T -> int)
    ensures KeepYear(a + b, year, yearOf) == KeepYear(a, year, yearOf) + KeepYear(b, year, yearOf)
  {
    if |b| > 0 {
      var last := b[|b| - 1];
      assert (a + b)[..|a + b| - 1] == a + b[..|b| - 1];
      KeepYearConcat(a, b[..|b| - 1], year, yearOf);
    } else {
      assert a + b == a;
    }
  }

  // ---------------------------------------------------------------- collecting results

  /** The values a loop adds with `if (x != null) results.Add(x)`, in order. */
  function Collect<T, C, U>(xs: seq<T>, f: (T, C) -> Option<U>, context: C): (r: seq<U>)
    ensures |r| <= |xs|
    ensures (forall k :: 0 <= k < |xs| ==> f(xs[k], context).None?) ==> r == []
    ensures (forall k :: 0 <= k < |xs| ==> f(xs[k], context).Some?) ==> |r| == |xs|
  {
    if |xs| == 0 then []
    else
      assert forall k :: 0 <= k < |xs| - 1 ==> xs[..|xs| - 1][k] == xs[k];
      Collect(xs[..|xs| - 1], f, context) + f(xs[|xs| - 1], context).ToSeq()
  }

  /** Every collected value is the value of some element. */
  lemma {:induction false} CollectSound<T, C, U>(xs: seq<T>, f: (T, C) -> Option<U>, context: C, u: U)
    requires u in Collect(xs, f, context)
    ensures exists x :: x in xs && f(x, context) == Some(u)
  {
    var init := xs[..|xs| - 1];
    var last := xs[|xs| - 1];
    if u in Collect(init, f, context) {
      CollectSound(init, f, context, u);
      var x :| x in init && f(x, context) == Some(u);
      assert x in xs;
    } else {
      assert f(last, context) == Some(u);
    }
  }

  /** `xs.Select(f)` where `f` cannot fail: one value per element, in order. */
  function Each<T, C, U>(xs: seq<T>, f: (T, C) -> U, context: C): (r: seq<U>)
    ensures |r| == |xs| && forall k :: 0 <= k < |xs| ==> r[k] == f(xs[k], context)
  {
    if |xs| == 0 then []
    else
      assert forall k :: 0 <= k < |xs| - 1 ==> xs[..|xs| - 1][k] == xs[k];
      Each(xs[..|xs| - 1], f, context) + [f(xs[|xs| - 1], context)]
  }

  /** A loop step of `Each`: the next value is appended. */
  lemma EachStep<T, C, U>(xs: seq<T>, i: nat, f: (T, C) -> U, context: C)
    requires i < |xs|
    ensures Each(xs[..i + 1], f, context) == Each(xs[..i], f, context) + [f(xs[i], context)]
  {
    assert xs[..i + 1][..i] == xs[..i];
  }

  /** `[.. xs.Select(f)]` where `f` may throw: the results in order, or the first error. */
  function MapAll<T, C, U, E>(xs: seq<T>, f: (T, C) -> Result<U, E>, context: C): (r: Result<seq<U>, E>)
    ensures r.Success? <==> forall k :: 0 <= k < |xs| ==> f(xs[k], context).Success?
    ensures r.Success? ==> |r.value| == |xs| && forall k :: 0 <= k < |xs| ==> f(xs[k], context) == Success(r.value[k])
  {
    if |xs| == 0 then Success([])
    else
      assert forall k :: 0 <= k < |xs| - 1 ==> xs[..|xs| - 1][k] == xs[k];
      match MapAll(xs[..|xs| - 1], f, context)
      case Failure(e) => Failure(e)
      case Success(init) =>
        match f(xs[|xs| - 1], context)
        case Failure(e) => Failure(e)
        case Success(u) => Success(init + [u])
  }

  /** Once an element fails, the rest of the list does not matter: the first error is the result. */
  lemma {:induction false} MapAllStops<T, C, U, E>(xs: seq<T>, f: (T, C) -> Result<U, E>, context: C, i: nat)
    requires i <= |xs| && MapAll(xs[..i], f, context).Failure?
    ensures MapAll(xs, f, context) == MapAll(xs[..i], f, context)
    decreases |xs| - i
  {
    if i < |xs| {
      assert xs[..i + 1][..i] == xs[..i];
      MapAllStops(xs, f, context, i + 1);
    } else {
      assert xs[..i] == xs;
    }
  }

  /** A loop step over the candidates: the next one is appended when it has the year, and skipped otherwise. */
  lemma KeepYearStep<T>(xs: seq<T>, i: nat, year: Option<int>, yearOf: T -> int)
    requires i < |xs|
    ensures KeepYear(xs[..i + 1], year, yearOf) == KeepYear(xs[..i], year, yearOf) + (if year.None? || yearOf(xs[i]) == year.value then [xs[i]] else [])
  {
    assert xs[..i + 1][..i] == xs[..i];
  }

  /** A loop step of `MapAll`: an earlier error stays, otherwise the next value or its error. */
  lemma MapAllSnoc<T, C, U, E>(xs: seq<T>, x: T, f: (T, C) -> Result<U, E>, context: C)
    ensures MapAll(xs, f, context).Failure? ==> MapAll(xs + [x], f, context) == MapAll(xs, f, context)
    ensures MapAll(xs, f, context).Success? && f(x, context).Failure? ==> MapAll(xs + [x], f, context) == Failure(f(x, context).error)
    ensures MapAll(xs, f, context).Success? && f(x, context).Success? ==>
      MapAll(xs + [x], f, context) == Success(MapAll(xs, f, context).value + [f(x, context).value])
  {
    assert (xs + [x])[..|xs|] == xs;
  }

  /** An error among the kept candidates of a prefix is the error of the whole run. */
  lemma KeepMapFails<T, C, U, E>(xs: seq<T>, i: nat, year: Option<int>, yearOf: T -> int, f: (T, C) -> Result<U, E>, context: C)
    requires i <= |xs| && MapAll(KeepYear(xs[..i], year, yearOf), f, context).Failure?
    ensures MapAll(KeepYear(xs, year, yearOf), f, context) == MapAll(KeepYear(xs[..i], year, yearOf), f, context)
  {
    var p := KeepYear(xs[..i], year, yearOf);
    var q := KeepYear(xs[i..], year, yearOf);
    assert xs[..i] + xs[i..] == xs;
    KeepYearConcat(xs[..i], xs[i..], year, yearOf);
    assert (p + q)[..|p|] == p;
    MapAllStops(p + q, f, context, |p|);
  }

  /**
   * One step of a search loop that skips other years and converts the rest:
   * a skipped candidate changes nothing, a converted one is appended, and a
   * failing one ends the whole run with its error.
   */
  lemma KeepMapStep<T, C, U, E>(xs: seq<T>, i: nat, year: Option<int>, yearOf: T -> int, f: (T, C) -> Result<U, E>, context: C, results: seq<U>)
    requires i < |xs| && MapAll(KeepYear(xs[..i], year, yearOf), f, context) == Success(results)
    ensures year.Some? && yearOf(xs[i]) != year.value ==> MapAll(KeepYear(xs[..i + 1], year, yearOf), f, context) == Success(results)
    ensures (year.None? || yearOf(xs[i]) == year.value) && f(xs[i], context).Success? ==>
      MapAll(KeepYear(xs[..i + 1], year, yearOf), f, context) == Success(results + [f(xs[i], context).value])
    ensures (year.None? || yearOf(xs[i]) == year.value) && f(xs[i], context).Failure? ==>
      MapAll(KeepYear(xs, year, yearOf), f, context) == Failure(f(xs[i], context).error)
  {
    var before := KeepYear(xs[..i], year, yearOf);
    KeepYearStep(xs, i, year, yearOf);
    if year.None? || yearOf(xs[i]) == year.value {
      assert KeepYear(xs[..i + 1], year, yearOf) == before + [xs[i]];
      MapAllSnoc(before, xs[i], f, context);
      if f(xs[i], context).Failure? {
        assert MapAll(KeepYear(xs[..i + 1], year, yearOf), f, context) == Failure(f(xs[i], context).error);
        KeepMapFails(xs, i + 1, year, yearOf, f, context);
      }
    } else {
      assert KeepYear(xs[..i + 1], year, yearOf) == before;
    }
  }

  /** A loop step of `Collect`: the next value is appended if present. */
  lemma CollectSnoc<T, C, U>(xs: seq<T>, x: T, f: (T, C) -> Option<U>, context: C)
    ensures Collect(xs + [x], f, context) == Collect(xs, f, context) + f(x, context).ToSeq()
  {
    assert (xs + [x])[..|xs|] == xs;
  }

  /** A loop step of `Collect` over a list: the next element's value is appended if present. */
  lemma CollectStep<T, C, U>(xs: seq<T>, i: nat, f: (T, C) -> Option<U>, context: C)
    requires i < |xs|
    ensures Collect(xs[..i + 1], f, context) == Collect(xs[..i], f, context) + f(xs[i], context).ToSeq()
  {
    assert xs[..i + 1] == xs[..i] + [xs[i]];
    CollectSnoc(xs[..i], xs[i], f, context);
  }

  /** The values of the candidates of the year, defined candidate by candidate as the search loop adds them. */
  function KeptValues<T, C, U>(xs: seq<T>, year: Option<int>, yearOf: T -> int, f: (T, C) -> Option<U>, context: C): seq<U> {
    if |xs| == 0 then []
    else
      var last := xs[|xs| - 1];
      KeptValues(xs[..|xs| - 1], year, yearOf, f, context) + (if year.None? || yearOf(last) == year.value then f(last, context).ToSeq() else [])
  }

  /** Adding candidate by candidate collects the values of the kept candidates. */
  lemma {:induction false} KeptValuesCollect<T, C, U>(xs: seq<T>, year: Option<int>, yearOf: T -> int, f: (T, C) -> Option<U>, context: C)
    ensures KeptValues(xs, year, yearOf, f, context) == Collect(KeepYear(xs, year, yearOf), f, context)
  {
    if |xs| > 0 {
      var init := xs[..|xs| - 1];
      var last := xs[|xs| - 1];
      var before := KeepYear(init, year, yearOf);
      KeptValuesCollect(init, year, yearOf, f, context);
      if year.None? || yearOf(last) == year.value {
        assert KeepYear(xs, year, yearOf) == before + [last];
        CollectSnoc(before, last, f, context);
      } else {
        assert KeepYear(xs, year, yearOf) == before;
      }
    }
  }

  /**
   * The loop of a search that skips the candidates of other years with
   * `continue` and adds the value of each other candidate that has one.
   */
  method CollectKept<T, C, U>(xs: seq<T>, year: Option<int>, yearOf: T -> int, f: (T, C) -> Option<U>, context: C) returns (r: seq<U>)
    ensures r == Collect(KeepYear(xs, year, yearOf), f, context)
  {
    r := [];
    for i := 0 to |xs|
      invariant r == KeptValues(xs[..i], year, yearOf, f, context)
    {
      assert xs[..i + 1][..i] == xs[..i];
      if year.Some? && year.value != yearOf(xs[i]) {
        continue;
      }
      var u := f(xs[i], context);
      if u.Some? {
        r := r + [u.value];
      }
    }
    assert xs[..|xs|] == xs;
    KeptValuesCollect(xs, year, yearOf, f, context);
  }

  /**
   * The loop of a search that skips the candidates of other years with
   * `continue` and converts each other candidate, stopping at the first
   * conversion that throws.
   */
  method MapKept<T, C, U, E>(xs: seq<T>, year: Option<int>, yearOf: T -> int, f: (T, C) -> Result<U, E>, context: C) returns (r: Result<seq<U>, E>)
    ensures r == MapAll(KeepYear(xs, year, yearOf), f, context)
  {
    var results := [];
    for i := 0 to |xs|
      invariant MapAll(KeepYear(xs[..i], year, yearOf), f, context) == Success(results)
    {
      KeepMapStep(xs, i, year, yearOf, f, context, results);
      if year.Some? && year.value != yearOf(xs[i]) {
        continue;
      }
      var u := f(xs[i], context);
      if u.Failure? {
        return Failure(u.error);
      }
      results := results + [u.value];
    }
    assert xs[..|xs|] == xs;
    r := Success(results);
  }

  /** Every value collected from the kept candidates is the value of a candidate of the year. */
  lemma KeepCollectSound<T, C, U>(xs: seq<T>, year: Option<int>, yearOf: T -> int, f: (T, C) -> Option<U>, context: C, u: U)
    requires u in Collect(KeepYear(xs, year, yearOf), f, context)
    ensures exists k :: 0 <= k < |xs| && f(xs[k], context) == Some(u) && (year.None? || yearOf(xs[k]) == year.value)
  {
    var kept := KeepYear(xs, year, yearOf);
    CollectSound(kept, f, context, u);
    var x :| x in kept && f(x, context) == Some(u);
    var k :| 0 <= k < |xs| && xs[k] == x;
  }

  /** The values a loop adds with `AddRange`, element by element, in order. */
  function FlatMap<T, C, U>(xs: seq<T>, f: (T, C) -> seq<U>, context: C, bound: nat): (r: seq<U>)
    requires forall k :: 0 <= k < |xs| ==> |f(xs[k], context)| <= bound
    ensures |r| <= bound * |xs|
    ensures (forall k :: 0 <= k < |xs| ==> f(xs[k], context) == []) ==> r == []
  {
    if |xs| == 0 then []
    else
      assert forall k :: 0 <= k < |xs| - 1 ==> xs[..|xs| - 1][k] == xs[k];
      FlatMap(xs[..|xs| - 1], f, context, bound) + f(xs[|xs| - 1], context)
  }

  /** A loop step of `FlatMap`: the next element's values are appended. */
  lemma FlatMapStep<T, C, U>(xs: seq<T>, i: nat, f: (T, C) -> seq<U>, context: C, bound: nat)
    requires i < |xs| && forall k :: 0 <= k < |xs| ==> |f(xs[k], context)| <= bound
    ensures FlatMap(xs[..i + 1], f, context, bound) == FlatMap(xs[..i], f, context, bound) + f(xs[i], context)
  {
    assert xs[..i + 1][..i] == xs[..i];
  }

  // ---------------------------------------------------------------- distinct

  /** `Distinct()`: each value once, at its first occurrence. */
  function Distinct<T(==)>(xs: seq<T>): (r: seq<T>)
    ensures forall i :: 0 <= i < |r| ==> r[i] in xs
    ensures forall i :: 0 <= i < |xs| ==> xs[i] in r
    ensures forall i, j :: 0 <= i < j < |r| ==> r[i] != r[j]
  {
    if |xs| == 0 then []
    else
      var init := Distinct(xs[..|xs| - 1]);
      var last := xs[|xs| - 1];
      assert xs == xs[..|xs| - 1] + [last];
      if last in init then init else init + [last]
  }

  /** De-duplicating a concatenation keeps the de-duplicated first part in front. */
  lemma {:induction false} DistinctPrefix<T>(a: seq<T>, b: seq<T>)
    ensures |Distinct(a)| <= |Distinct(a + b)|
    ensures Distinct(a + b)[..|Distinct(a)|] == Distinct(a)
  {
    if |b| > 0 {
      assert (a + b)[..|a + b| - 1] == a + b[..|b| - 1];
      DistinctPrefix(a, b[..|b| - 1]);
    } else {
      assert a + b == a;
    }
  }

  // ---------------------------------------------------------------- the cascades

  /** A track's id: its explicit track id, or else the track id in its file's tags. */
  function TrackIdOf(item: ItemRef, host: Host): Option<SpotifyId> {
    ExplicitId(item.providerIds, Constants.ProviderTrack).OrElse(Tags.EmbeddedIdsOf(host.tagFields(item.path)).track)
  }

  /** A valid explicit id wins, whatever the tags say; only an absent or invalid one lets the tags decide. */
  lemma TrackIdPrecedence(item: ItemRef, host: Host, id: SpotifyId)
    ensures TrackIdOf(ItemRef(item.providerIds[Constants.ProviderTrack := Base62(id.id)], item.path), host) == Some(id)
    ensures ExplicitId(item.providerIds, Constants.ProviderTrack).None? ==> TrackIdOf(item, host) == Tags.EmbeddedIdsOf(host.tagFields(item.path)).track
  {
    ExplicitIdOfBase62(item.providerIds[Constants.ProviderTrack := Base62(id.id)], Constants.ProviderTrack, id);
  }

  method ResolveTrackId(item: ItemRef, host: Host) returns (r: Option<SpotifyId>)
    ensures r == TrackIdOf(item, host)
  {
    r := ReadExplicitId(item.providerIds, Constants.ProviderTrack);
    if r.None? {
      var tags := Tags.ExtractSpotifyIds(host.tagFields(item.path));
      r := tags.track;
    }
  }

  /** A song's album id: its explicit album id, or else the album id in its file's tags. */
  function SongAlbumId(song: ItemRef, host: Host): Option<SpotifyId> {
    ExplicitId(song.providerIds, Constants.ProviderAlbum).OrElse(Tags.EmbeddedIdsOf(host.tagFields(song.path)).album)
  }

  method ReadSongAlbumId(song: ItemRef, host: Host) returns (r: Option<SpotifyId>)
    ensures r == SongAlbumId(song, host)
  {
    r := ReadExplicitId(song.providerIds, Constants.ProviderAlbum);
    if r.None? {
      var tags := Tags.ExtractSpotifyIds(host.tagFields(song.path));
      r := tags.album;
    }
  }

  /** An album's id: its explicit album id, or else the first song's album id, songs taken in order. */
  function AlbumIdOf(providerIds: map<string, string>, songs: seq<ItemRef>, host: Host): Option<SpotifyId> {
    ExplicitId(providerIds, Constants.ProviderAlbum).OrElse(FirstHit(songs, SongAlbumId, host))
  }

  method ResolveAlbumId(providerIds: map<string, string>, songs: seq<ItemRef>, host: Host) returns (r: Option<SpotifyId>)
    ensures r == AlbumIdOf(providerIds, songs, host)
  {
    r := ReadExplicitId(providerIds, Constants.ProviderAlbum);
    if r.None? {
      r := ScanSongs(songs, host);
    }
  }

  /** The loop over the songs, left at the first song that gives an album id. */
  method ScanSongs(songs: seq<ItemRef>, host: Host) returns (r: Option<SpotifyId>)
    ensures r == FirstHit(songs, SongAlbumId, host)
  {
    var i := 0;
    while i < |songs|
      invariant 0 <= i <= |songs|
      invariant FirstHit(songs, SongAlbumId, host) == FirstHit(songs[i..], SongAlbumId, host)
    {
      assert songs[i..][0] == songs[i] && songs[i..][1..] == songs[i + 1..];
      r := ReadSongAlbumId(songs[i], host);
      if r.Some? {
        return;
      }
      i := i + 1;
    }
    r := None;
  }

  /** `songTags.GetArtistByName(name) ?? songTags.GetAlbumArtistByName(name)` on one file's tags. */
  function NameHit(path: string, query: (Host, string)): Option<SpotifyId> {
    var tags := Tags.EmbeddedIdsOf(query.0.tagFields(path));
    query.0.artistByName(tags, query.1).OrElse(query.0.albumArtistByName(tags, query.1))
  }

  method ReadNameHit(path: string, host: Host, name: string) returns (r: Option<SpotifyId>)
    ensures r == NameHit(path, (host, name))
  {
    var tags := Tags.ExtractSpotifyIds(host.tagFields(path));
    r := host.artistByName(tags, name);
    if r.None? {
      r := host.albumArtistByName(tags, name);
    }
  }

  /** An artist's id: its explicit artist id, or else the first name match among the given files, in order. */
  function ArtistIdOf(providerIds: map<string, string>, paths: seq<string>, name: string, host: Host): Option<SpotifyId> {
    ExplicitId(providerIds, Constants.ProviderArtist).OrElse(FirstHit(paths, NameHit, (host, name)))
  }

  method ResolveArtistId(providerIds: map<string, string>, paths: seq<string>, name: string, host: Host) returns (r: Option<SpotifyId>)
    ensures r == ArtistIdOf(providerIds, paths, name, host)
  {
    r := ReadExplicitId(providerIds, Constants.ProviderArtist);
    if r.None? {
      r := ScanPaths(paths, name, host);
    }
  }

  /** The loop over the files, left at the first one whose tags match the name. */
  method ScanPaths(paths: seq<string>, name: string, host: Host) returns (r: Option<SpotifyId>)
    ensures r == FirstHit(paths, NameHit, (host, name))
  {
    var i := 0;
    while i < |paths|
      invariant 0 <= i <= |paths|
      invariant FirstHit(paths, NameHit, (host, name)) == FirstHit(paths[i..], NameHit, (host, name))
    {
      assert paths[i..][0] == paths[i] && paths[i..][1..] == paths[i + 1..];
      r := ReadNameHit(paths[i], host, name);
      if r.Some? {
        return;
      }
      i := i + 1;
    }
    r := None;
  }

  /** The paths of some items, in order. */
  function Paths(items: seq<ItemRef>): (paths: seq<string>)
    ensures |paths| == |items| && forall k :: 0 <= k < |items| ==> paths[k] == items[k].path
  {
    seq(|items|, k requires 0 <= k < |items| => items[k].path)
  }
}
