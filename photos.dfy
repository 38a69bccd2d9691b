/** The photo record of the feed, the merge of per-photo statistics into a page
    of search results, and the fixed list of placeholder photos shown when the
    photo service cannot be reached. */
module Photos {
  import Decimal

  datatype Option<T> = None | Some(value: T)

  datatype User = User(username: string, name: string)

  /** One search result. `regularUrl` is `urls.regular`; `color` is null when
      absent; `views` and `downloads` are absent until statistics are merged. */
  datatype Photo = Photo(
    id: string,
    likes: int,
    width: int,
    height: int,
    regularUrl: string,
    color: Option<string>,
    user: User,
    views: Option<int>,
    downloads: Option<int>)

  /** What the statistics lookup of one photo returned: the total view and
      download counts, or a failure payload. */
  datatype StatsOutcome = StatsSuccess(viewsTotal: int, downloadsTotal: int) | StatsFailure

  /** p and q agree on every field except the two statistics. */
  predicate SameExceptStats(p: Photo, q: Photo)
  {
    && p.id == q.id && p.likes == q.likes
    && p.width == q.width && p.height == q.height
    && p.regularUrl == q.regularUrl && p.color == q.color
    && p.user == q.user
  }

  /** Merges one photo's statistics into it. */
  function Enrich(p: Photo, s: StatsOutcome): (r: Photo)
    ensures SameExceptStats(r, p)
    ensures s.StatsSuccess? ==> r.views == Some(s.viewsTotal) && r.downloads == Some(s.downloadsTotal)
    ensures s.StatsFailure? ==> r == p
  {
    match s
    case StatsSuccess(v, d) => p.(views := Some(v), downloads := Some(d))
    case StatsFailure => p
  }

  /** Merges a page of statistics outcomes into a page of photos, position by position. */
  function EnrichAll(photos: seq<Photo>, stats: seq<StatsOutcome>): (r: seq<Photo>)
    requires |stats| == |photos|
    ensures |r| == |photos|
    ensures forall i :: 0 <= i < |r| ==> r[i] == Enrich(photos[i], stats[i])
  {
    if photos == [] then [] else [Enrich(photos[0], stats[0])] + EnrichAll(photos[1..], stats[1..])
  }

  function Ids(photos: seq<Photo>): (ids: seq<string>)
    ensures |ids| == |photos|
    ensures forall i :: 0 <= i < |photos| ==> ids[i] == photos[i].id
  {
    seq(|photos|, i requires 0 <= i < |photos| => photos[i].id)
  }

  predicate DistinctIds(photos: seq<Photo>)
  {
    forall i, j :: 0 <= i < j < |photos| ==> photos[i].id != photos[j].id
  }

  /** Enrichment keeps the ids, in order, so a page whose ids are distinct keys
      stays one. */
  lemma EnrichAllKeepsIds(photos: seq<Photo>, stats: seq<StatsOutcome>)
    requires |stats| == |photos|
    ensures Ids(EnrichAll(photos, stats)) == Ids(photos)
    ensures DistinctIds(photos) ==> DistinctIds(EnrichAll(photos, stats))
  {
  }

  const PlaceholderCount: nat := 10
  const ErrorImageUrl := "https://placehold.co/800/251e1e/white?text=Error+403+Unsplash+API+Limited&font=Playfair Display"
  const PlaceholderUser := User("placeholder_user", "Placeholder User")
  const PlaceholderPrefix := "placeholder-"

  /** The placeholder shown at position index. */
  function PlaceholderPhoto(index: nat): (p: Photo)
    ensures p.id == PlaceholderPrefix + Decimal.NatToString(index)
    ensures p.likes == 0 && p.views == Some(0) && p.downloads == Some(0)
    ensures p.width == 600 && p.height == 400 && p.color == None
    ensures p.regularUrl == ErrorImageUrl && p.user == PlaceholderUser
  {
    Photo(PlaceholderPrefix + Decimal.NatToString(index), 0, 600, 400, ErrorImageUrl, None,
          PlaceholderUser, Some(0), Some(0))
  }

  /** The list shown in place of results when a request throws. */
  function Placeholders(): (r: seq<Photo>)
    ensures |r| == PlaceholderCount
    ensures forall i :: 0 <= i < |r| ==> r[i] == PlaceholderPhoto(i)
  {
    seq(PlaceholderCount, i requires 0 <= i < PlaceholderCount => PlaceholderPhoto(i))
  }

  /** Placeholder ids differ exactly when their positions do, however long the list. */
  lemma PlaceholderIdInjective(i: nat, j: nat)
    ensures (PlaceholderPhoto(i).id == PlaceholderPhoto(j).id) == (i == j)
  {
    var si, sj := Decimal.NatToString(i), Decimal.NatToString(j);
    if PlaceholderPhoto(i).id == PlaceholderPhoto(j).id {
      assert (PlaceholderPrefix + si)[|PlaceholderPrefix|..] == si;
      assert (PlaceholderPrefix + sj)[|PlaceholderPrefix|..] == sj;
      Decimal.NatToStringInjective(i, j);
    }
  }

  /** The placeholder ids are pairwise distinct, so they are valid list keys. */
  lemma PlaceholderIdsDistinct()
    ensures DistinctIds(Placeholders())
  {
    var r := Placeholders();
    forall i, j | 0 <= i < j < |r| ensures r[i].id != r[j].id {
      PlaceholderIdInjective(i, j);
    }
  }

  /** Spelled out, the placeholder ids are placeholder-0 up to placeholder-9. */
  lemma PlaceholderIdsSpelledOut()
    ensures Ids(Placeholders()) == ["placeholder-0", "placeholder-1", "placeholder-2", "placeholder-3",
      "placeholder-4", "placeholder-5", "placeholder-6", "placeholder-7", "placeholder-8", "placeholder-9"]
  {
    var ids := Ids(Placeholders());
    forall k | 0 <= k < PlaceholderCount ensures Decimal.NatToString(k) == [Decimal.DigitChar(k)] { }
    assert ids[0] == "placeholder-0" && ids[1] == "placeholder-1" && ids[2] == "placeholder-2";
    assert ids[3] == "placeholder-3" && ids[4] == "placeholder-4" && ids[5] == "placeholder-5";
    assert ids[6] == "placeholder-6" && ids[7] == "placeholder-7" && ids[8] == "placeholder-8";
    assert ids[9] == "placeholder-9";
  }
}
