/** The downloads screen (DownloadsViewController.swift): the ordered list of the signed-in
    user's downloaded titles, how it follows the remote collection on fetch and delete, what
    each row shows, and what selecting a row opens. */
module Downloads {
  import opened Wrappers
  import opened Models
  import opened DataPersistence
  import opened TitlePreview

  const UnknownTitle := "Unknown Title"
  const DefaultPoster := "/defaultPoster.jpg"
  const NoDescription := "No description available"

  /** UITableViewCell.EditingStyle. */
  datatype EditingStyle = NoEditing | Delete | Insert

  /** A failed call to the metadata search or the video lookup; the client that makes these
      calls is not part of this model. */
  datatype LookupError = LookupFailed

  /** The metadata search by name, as the outcome it gives for each query. */
  type Search = string -> Result<seq<Title>, LookupError>

  /** The video lookup by name, as the outcome it gives for each query. */
  type MovieLookup = string -> Result<VideoElement, LookupError>

  /** The name a row shows. */
  function DisplayName(t: FirestoreTitle): (name: string)
    ensures t.originalTitle.Some? ==> name == t.originalTitle.value
    ensures t.originalTitle.None? ==> name == UnknownTitle
  {
    t.originalTitle.GetOr(UnknownTitle)
  }

  /** An empty stored poster path marks a poster still to be looked up; nil does not. */
  function NeedsPosterLookup(t: FirestoreTitle): (b: bool)
    ensures b <==> t.posterPath.Some? && t.posterPath.value == ""
  {
    t.posterPath == Some("")
  }

  /** The name searched for, for a poster or a trailer: the original title, else the
      original name; none only when both are nil. */
  function LookupName(t: FirestoreTitle): (name: Option<string>)
    ensures t.originalTitle.Some? ==> name == t.originalTitle
    ensures t.originalTitle.None? ==> name == t.originalName
    ensures name.None? <==> t.originalTitle.None? && t.originalName.None?
  {
    t.originalTitle.OrElse(t.originalName)
  }

  /** `fetchPosterPath`: without a name, no search is made and the result is nil; otherwise
      the poster path of the first search result, nil when the search fails or finds nothing. */
  function FetchPosterPath(t: FirestoreTitle, search: Search): (r: Option<string>)
    ensures r.Some? <==>
              && LookupName(t).Some?
              && search(LookupName(t).value).Success?
              && |search(LookupName(t).value).value| > 0
              && search(LookupName(t).value).value[0].posterPath.Some?
    ensures r.Some? ==> r == search(LookupName(t).value).value[0].posterPath
  {
    match LookupName(t)
    case None => None
    case Some(name) =>
      match search(name)
      case Failure(_) => None
      case Success(results) => if |results| == 0 then None else results[0].posterPath
  }

  /** The result of a poster lookup depends on nothing but the one search for the row's name,
      and on no search at all when the row has no name. */
  lemma FetchPosterPathUsesOnlyItsQuery(t: FirestoreTitle, s1: Search, s2: Search)
    requires LookupName(t).None? || s1(LookupName(t).value) == s2(LookupName(t).value)
    ensures FetchPosterPath(t, s1) == FetchPosterPath(t, s2)
  {
  }

  /** What a row shows (`cellForRowAt`): its name, and either the stored poster path (the
      placeholder for nil) or, for the empty sentinel, the looked-up path (the placeholder
      when the lookup yields nil). */
  function CellViewModel(t: FirestoreTitle, search: Search): (vm: TitleViewModel)
    ensures vm.titleName == (if t.originalTitle.Some? then t.originalTitle.value else UnknownTitle)
    ensures !NeedsPosterLookup(t) ==> vm.posterURL == (if t.posterPath.Some? then t.posterPath.value else DefaultPoster)
    ensures NeedsPosterLookup(t) ==> vm.posterURL == (if FetchPosterPath(t, search).Some? then FetchPosterPath(t, search).value else DefaultPoster)
    ensures vm.posterURL == "" <==> NeedsPosterLookup(t) && FetchPosterPath(t, search) == Some("")
  {
    if NeedsPosterLookup(t) then
      TitleViewModel(DisplayName(t), FetchPosterPath(t, search).GetOr(DefaultPoster))
    else
      TitleViewModel(DisplayName(t), t.posterPath.GetOr(DefaultPoster))
  }

  /** A row whose stored poster is not the empty sentinel is shown without any search. */
  lemma CellWithoutSentinelIgnoresSearch(t: FirestoreTitle, s1: Search, s2: Search)
    requires !NeedsPosterLookup(t)
    ensures CellViewModel(t, s1) == CellViewModel(t, s2)
  {
  }

  /** A row stored as {id 1, user "u1", poster "", title "Alpha"} shows "/p1.jpg" when the
      search for "Alpha" finds it first. */
  lemma ResolvedPosterScenario(search: Search, first: Title)
    requires search("Alpha") == Success([first])
    requires first.posterPath == Some("/p1.jpg")
    ensures CellViewModel(FirestoreTitle(1, "u1", None, None, Some("Alpha"), Some(""), None, 0, None, 0.0), search)
         == TitleViewModel("Alpha", "/p1.jpg")
  {
  }

  /** A row whose poster lookup for "Beta" fails shows the placeholder. */
  lemma FailedLookupScenario(search: Search, t: FirestoreTitle)
    requires t.originalTitle == Some("Beta") && t.posterPath == Some("")
    requires search("Beta").Failure?
    ensures CellViewModel(t, search) == TitleViewModel("Beta", DefaultPoster)
  {
  }

  /** What selecting a row opens (`didSelectRowAt`): nothing when the row has no name or the
      video lookup fails; otherwise a preview of that name and video with the row's overview
      (or a stock text) and stored poster. */
  function SelectionPreview(t: FirestoreTitle, getMovie: MovieLookup): (r: Option<TitlePreviewViewModel>)
    ensures r.None? <==> LookupName(t).None? || getMovie(LookupName(t).value).Failure?
    ensures r.Some? ==> && r.value.title == LookupName(t).value
                        && r.value.youtubeView == getMovie(LookupName(t).value).value
                        && r.value.titleOverview == (if t.overview.Some? then t.overview.value else NoDescription)
                        && r.value.posterPath == t.posterPath
  {
    match LookupName(t)
    case None => None
    case Some(titleName) =>
      match getMovie(titleName)
      case Failure(_) => None
      case Success(videoElement) =>
        Some(TitlePreviewViewModel(titleName, videoElement, t.overview.GetOr(NoDescription), t.posterPath))
  }

  /** A title downloaded from a preview comes back in the list under the preview's title,
      searched for by that title, with its poster looked up exactly when the preview had none
      (or an empty one). */
  lemma DownloadedPreviewRow(userId: string, model: TitlePreviewViewModel, id: int)
    ensures var t := Decode(Encode(DownloadRecord(userId, model, id)));
            && DisplayName(t) == model.title
            && LookupName(t) == Some(model.title)
            && (NeedsPosterLookup(t) <==> model.posterPath.None? || model.posterPath == Some(""))
  {
    DownloadRecordAsFetched(userId, model, id);
  }

  /** Reopening a downloaded title from the list gives back the preview's title and overview;
      its poster comes back as "" when it was nil. */
  lemma ReopenedPreviewMatches(userId: string, model: TitlePreviewViewModel, id: int, getMovie: MovieLookup)
    requires getMovie(model.title).Success?
    ensures SelectionPreview(Decode(Encode(DownloadRecord(userId, model, id))), getMovie)
         == Some(TitlePreviewViewModel(model.title, getMovie(model.title).value, model.titleOverview,
                                       Some(model.posterPath.GetOr(""))))
  {
    DownloadRecordAsFetched(userId, model, id);
  }

  /** Deleting row `row` of a list that mirrors a well-formed store removes exactly that
      row's document, and the shortened list still mirrors the store. */
  lemma DeleteRowKeepsProjection(docs: Collection, userId: string, ids: seq<string>, row: nat)
    requires WellFormed(docs)
    requires IsEnumeration(ids, Matching(docs, userId))
    requires row < |ids|
    ensures var after := Remove(docs, DecodeAll(docs, ids)[row]);
            && IsEnumeration(ids[..row] + ids[row + 1..], Matching(after, userId))
            && DecodeAll(after, ids[..row] + ids[row + 1..]) == DecodeAll(docs, ids)[..row] + DecodeAll(docs, ids)[row + 1..]
  {
    var ts := DecodeAll(docs, ids);
    FiledUnderOwnId(docs, ids[row]);
    var after := Remove(docs, ts[row]);
    MatchingAfterRemove(docs, ts[row], userId);
    EnumerationWithout(ids, Matching(docs, userId), row);
    DecodeAllWithout(docs, after, ids, row);
  }

  lemma MatchingAfterRemove(docs: Collection, t: FirestoreTitle, userId: string)
    ensures Matching(Remove(docs, t), userId) == Matching(docs, userId) - {DocumentId(t)}
  {
  }

  /** Dropping one position of an enumeration enumerates the set without that element. */
  lemma EnumerationWithout(ids: seq<string>, ks: set<string>, row: nat)
    requires IsEnumeration(ids, ks)
    requires row < |ids|
    ensures IsEnumeration(ids[..row] + ids[row + 1..], ks - {ids[row]})
  {
    var rest := ids[..row] + ids[row + 1..];
    forall i | 0 <= i < |rest|
      ensures rest[i] == ids[if i < row then i else i + 1]
    {
    }
    forall x | x in ks - {ids[row]}
      ensures x in rest
    {
      var j :| 0 <= j < |ids| && ids[j] == x;
      if j < row {
        assert rest[j] == x;
      } else {
        assert rest[j - 1] == x;
      }
    }
  }

  predicate AllIn(ids: seq<string>, docs: Collection) {
    forall i :: 0 <= i < |ids| ==> ids[i] in docs
  }

  /** Decoding the remaining ids against the shrunken store gives the remaining records. */
  lemma DecodeAllWithout(docs: Collection, after: Collection, ids: seq<string>, row: nat)
    requires forall i :: 0 <= i < |ids| ==> ids[i] in docs
    requires row < |ids|
    requires forall i :: 0 <= i < |ids| && i != row ==> ids[i] in after && after[ids[i]] == docs[ids[i]]
    ensures AllIn(ids[..row] + ids[row + 1..], after)
    ensures DecodeAll(after, ids[..row] + ids[row + 1..]) == DecodeAll(docs, ids)[..row] + DecodeAll(docs, ids)[row + 1..]
  {
    var rest := ids[..row] + ids[row + 1..];
    forall i | 0 <= i < |rest|
      ensures rest[i] == ids[if i < row then i else i + 1]
    {
    }
  }

  class DownloadsViewController {
    var titles: seq<FirestoreTitle>

    constructor ()
      ensures titles == []
    {
      titles := [];
    }

    /** `numberOfRowsInSection`. */
    function NumberOfRowsInSection(): (n: nat)
      reads this
      ensures n == |titles|
    {
      |titles|
    }

    /** `cellForRowAt`. */
    function CellForRowAt(row: nat, search: Search): (vm: TitleViewModel)
      reads this
      requires row < |titles|
      ensures vm.titleName == DisplayName(titles[row])
      ensures !NeedsPosterLookup(titles[row]) ==> vm.posterURL == titles[row].posterPath.GetOr(DefaultPoster)
      ensures NeedsPosterLookup(titles[row]) ==> vm.posterURL == FetchPosterPath(titles[row], search).GetOr(DefaultPoster)
    {
      CellViewModel(titles[row], search)
    }

    /** Loads the signed-in user's downloads. A successful fetch replaces the list with the
        fetched records, in the order delivered (`snapshot`); no user or a failed fetch leaves
        it as it was. */
    method FetchLocalStorageForDownload(db: DataPersistenceManager, currentUser: Option<string>, backendOk: bool)
      returns (ghost snapshot: seq<string>)
      modifies this
      ensures currentUser.None? || !backendOk ==> titles == old(titles)
      ensures currentUser.Some? && backendOk ==>
                && IsEnumeration(snapshot, Matching(db.documents, currentUser.value))
                && titles == DecodeAll(db.documents, snapshot)
    {
      snapshot := [];
      if currentUser.None? {
        return;
      }
      var result;
      result, snapshot := db.FetchingTitlesFromDatabase(currentUser.value, backendOk);
      match result
      case Success(fetched) =>
        titles := fetched;
      case Failure(_) =>
    }

    /** The swipe-to-delete handler. For a delete, the row's record is deleted from the store
        and, only when that succeeds, the row is removed from the list, keeping the order of
        the others; any other editing style does nothing. */
    method CommitEditing(db: DataPersistenceManager, editingStyle: EditingStyle, row: nat, backendOk: bool)
      requires row < |titles|
      modifies this, db
      ensures editingStyle == Delete && backendOk ==>
                && titles == old(titles)[..row] + old(titles)[row + 1..]
                && NumberOfRowsInSection() == old(NumberOfRowsInSection()) - 1
                && db.documents == Remove(old(db.documents), old(titles)[row])
      ensures editingStyle != Delete || !backendOk ==> titles == old(titles) && db.documents == old(db.documents)
    {
      if editingStyle == Delete {
        var titleToDelete := titles[row];
        var result := db.DeleteTitleWith(titleToDelete, backendOk);
        if result.Success? {
          titles := titles[..row] + titles[row + 1..];
        }
      }
    }

    /** Selecting a row opens, when `SelectionPreview` gives a model, a new preview screen
        configured with it and marked as downloaded; `urlParses` says whether its embed URL
        parses. */
    method DidSelectRowAt(row: nat, getMovie: MovieLookup, urlParses: bool)
      returns (preview: Option<TitlePreviewViewController>)
      requires row < |titles|
      ensures SelectionPreview(titles[row], getMovie).None? ==> preview.None?
      ensures SelectionPreview(titles[row], getMovie).Some? ==>
                && preview.Some? && fresh(preview.value) && preview.value.Valid()
                && preview.value.currentModel == SelectionPreview(titles[row], getMovie)
                && preview.value.isDownloaded
      ensures preview.Some? && urlParses ==> preview.value.downloadButtonHidden && !preview.value.downloadedLabelHidden
      ensures preview.Some? && !urlParses ==> !preview.value.downloadButtonHidden && preview.value.downloadedLabelHidden
    {
      var model := SelectionPreview(titles[row], getMovie);
      if model.None? {
        return None;
      }
      var vc := new TitlePreviewViewController();
      vc.Configure(model.value, true, urlParses);
      preview := Some(vc);
    }
  }
}
