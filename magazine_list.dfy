/** The magazine list hook (`useMagazines`): it selects at most ten magazine
    records and rewrites each stored image reference into the public URL of
    the `vibe-coding-storage` bucket. */
module MagazineBinding {
  import opened Common

  const Bucket := "vibe-coding-storage"
  /** The path segment that precedes an object's path in a public URL of the
      bucket. */
  const PublicMarker := "/storage/v1/object/public/" + Bucket + "/"
  const FetchLimit := 10
  const DefaultError := "데이터를 불러오는데 실패했습니다."

  /** A `magazine` record as selected; `image_url` may be null. */
  datatype Magazine = Magazine(
    id: string,
    imageUrl: Option<string>,
    category: string,
    title: string,
    description: string,
    tags: Option<seq<string>>)

  /** The marker occurs in `url` at index `i` and nowhere else. */
  ghost predicate MarkerOnlyAt(url: string, i: nat)
  {
    forall j :: OccursAt(url, PublicMarker, j) ==> j == i
  }

  predicate IsHttpUrl(s: string)
  {
    StartsWith(s, "http://") || StartsWith(s, "https://")
  }

  /** `storage.from(Bucket).getPublicUrl(path)`: the project URL, the public
      marker, then the object's path. */
  function PublicUrl(projectUrl: string, path: string): (url: string)
    ensures StartsWith(url, projectUrl) && OccursAt(url, PublicMarker, |projectUrl|)
    ensures url[|projectUrl| + |PublicMarker|..] == path
  {
    projectUrl + PublicMarker + path
  }

  /** The storage path of an `image_url`: for an http(s) URL, the second
      piece of its split on the marker when there is one; otherwise the text
      itself. */
  function StoragePath(imageUrl: string): (path: string)
    ensures !IsHttpUrl(imageUrl) ==> path == imageUrl
    ensures IsHttpUrl(imageUrl) && IndexOfFrom(imageUrl, PublicMarker, 0).None? ==> path == imageUrl
    // An http(s) URL holding the marker: the text after its first occurrence,
    // up to the next occurrence or the end of the URL.
    ensures IsHttpUrl(imageUrl) && IndexOfFrom(imageUrl, PublicMarker, 0).Some? ==>
      var start := IndexOfFrom(imageUrl, PublicMarker, 0).value + |PublicMarker|;
      && start + |path| <= |imageUrl|
      && path == imageUrl[start..start + |path|]
      && (start + |path| == |imageUrl| || OccursAt(imageUrl, PublicMarker, start + |path|))
      && forall j :: start <= j < start + |path| ==> !OccursAt(imageUrl, PublicMarker, j)
    ensures |path| <= |imageUrl|
  {
    if IsHttpUrl(imageUrl) then
      match SplitSecond(imageUrl, PublicMarker)
      case None => imageUrl
      case Some(p) => p
    else imageUrl
  }

  /** The per-record `map`: a falsy `image_url` leaves the record as it is;
      otherwise only `image_url` changes, to the public URL of its path. */
  function BindMagazine(m: Magazine, projectUrl: string): (r: Magazine)
    ensures r.(imageUrl := m.imageUrl) == m
    ensures !Truthy(m.imageUrl) ==> r == m
    ensures Truthy(m.imageUrl) ==> r.imageUrl == Some(PublicUrl(projectUrl, StoragePath(m.imageUrl.value)))
  {
    if !Truthy(m.imageUrl) then m
    else m.(imageUrl := Some(PublicUrl(projectUrl, StoragePath(m.imageUrl.value))))
  }

  /** `(data || []).map(...)`: one output per input, in the same order. */
  function BindAll(ms: seq<Magazine>, projectUrl: string): (rs: seq<Magazine>)
    ensures |rs| == |ms|
    ensures forall i :: 0 <= i < |ms| ==> rs[i] == BindMagazine(ms[i], projectUrl)
  {
    seq(|ms|, i requires 0 <= i < |ms| => BindMagazine(ms[i], projectUrl))
  }

  // ---------------------------------------------------------------------------
  // Properties of the path extraction

  /** A public URL of the bucket gives back the path it was made from, as
      long as the marker occurs in it only where `getPublicUrl` put it. */
  lemma StoragePathOfPublicUrl(projectUrl: string, path: string)
    requires IsHttpUrl(projectUrl)
    requires MarkerOnlyAt(PublicUrl(projectUrl, path), |projectUrl|)
    ensures StoragePath(PublicUrl(projectUrl, path)) == path
  {
    var u := PublicUrl(projectUrl, path);
    assert IsHttpUrl(u) by {
      if StartsWith(projectUrl, "http://") {
        assert u[..7] == projectUrl[..7];
      } else {
        assert u[..8] == projectUrl[..8];
      }
    }
    assert IndexOfFrom(u, PublicMarker, 0) == Some(|projectUrl|);
    var start := |projectUrl| + |PublicMarker|;
    assert IndexOfFrom(u, PublicMarker, start).None?;
  }

  /** The path taken out of an http(s) URL that holds the marker never holds
      the marker itself. */
  lemma StoragePathHasNoMarker(imageUrl: string)
    requires IsHttpUrl(imageUrl)
    requires exists j :: OccursAt(imageUrl, PublicMarker, j)
    ensures forall k: nat :: !OccursAt(StoragePath(imageUrl), PublicMarker, k)
  {
    SplitSecondHasNoSeparator(imageUrl, PublicMarker);
  }

  /** Binding a record a second time changes nothing, when its public URL
      holds the marker only once. */
  lemma BindIdempotent(m: Magazine, projectUrl: string)
    requires IsHttpUrl(projectUrl)
    requires Truthy(m.imageUrl)
    requires MarkerOnlyAt(PublicUrl(projectUrl, StoragePath(m.imageUrl.value)), |projectUrl|)
    ensures BindMagazine(BindMagazine(m, projectUrl), projectUrl) == BindMagazine(m, projectUrl)
  {
    StoragePathOfPublicUrl(projectUrl, StoragePath(m.imageUrl.value));
  }

  // ---------------------------------------------------------------------------
  // The hook

  /** The store's answer to the `select`: its rows (`data`, possibly null) in
      the store's order, or what `throw fetchError` raises. */
  datatype MagazineQuery = Selected(data: Option<seq<Magazine>>) | SelectFailed(thrown: Thrown)

  /** `.limit(10)`: the first ten rows of the store's answer. */
  function Limited(rows: seq<Magazine>): (r: seq<Magazine>)
    ensures |r| <= FetchLimit && |r| <= |rows| && r == rows[..|r|]
    ensures |rows| <= FetchLimit ==> r == rows
  {
    if |rows| <= FetchLimit then rows else rows[..FetchLimit]
  }

  class MagazineListHook {
    var magazines: seq<Magazine>
    var loading: bool
    var error: Option<string>

    constructor()
      ensures magazines == [] && loading && error.None?
    {
      magazines := [];
      loading := true;
      error := None;
    }

    /** `fetchMagazines`: on success the bound records replace the list and
        the error is cleared; on failure the list stays and the error is set.
        Loading ends either way. */
    method FetchMagazines(answer: MagazineQuery, projectUrl: string)
      modifies this
      ensures !loading
      ensures answer.Selected? ==>
        && error.None?
        && magazines == BindAll(Limited(if answer.data.Some? then answer.data.value else []), projectUrl)
        && |magazines| <= FetchLimit
      ensures answer.SelectFailed? ==>
        magazines == old(magazines) && error == Some(MessageOr(answer.thrown, DefaultError))
    {
      loading := true;
      match answer {
        case SelectFailed(e) =>
          error := Some(MessageOr(e, DefaultError));
        case Selected(data) =>
          var rows := Limited(if data.Some? then data.value else []);
          magazines := BindAll(rows, projectUrl);
          error := None;
      }
      loading := false;
    }
  }
}
