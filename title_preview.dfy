/** The title preview screen (TitlePreviewViewController.swift): which of the "Download This"
    button and the "Downloaded" label is visible, the embed URL of the trailer, and the record
    a download saves. */
module TitlePreview {
  import opened Wrappers
  import opened Models
  import opened DataPersistence

  /** The embed address every trailer is loaded from. */
  const EmbedPrefix := "https://www.youtube.com/embed/"

  /** The URL string the web view loads for a video. */
  function EmbedURL(videoId: string): (url: string)
    ensures |url| == |EmbedPrefix| + |videoId|
    ensures url[..|EmbedPrefix|] == EmbedPrefix && url[|EmbedPrefix|..] == videoId
  {
    EmbedPrefix + videoId
  }

  /** Different videos are loaded from different addresses. */
  lemma EmbedURLInjective(a: string, b: string)
    ensures EmbedURL(a) == EmbedURL(b) <==> a == b
  {
    if EmbedURL(a) == EmbedURL(b) {
      assert a == EmbedURL(a)[|EmbedPrefix|..] == b;
    }
  }

  /** The record `downloadTitle` saves for the user, built from the preview's model and the
      randomly drawn id. */
  function DownloadRecord(userId: string, model: TitlePreviewViewModel, id: int): (r: FirestoreTitle)
    ensures r.id == id && r.userId == userId
    ensures r.mediaType == Some("movie") && r.originalName.None? && r.releaseDate.None?
    ensures r.originalTitle == Some(model.title) && r.overview == Some(model.titleOverview)
    ensures r.posterPath == model.posterPath
    ensures r.voteCount == 0 && r.voteAverage == 0.0
  {
    FirestoreTitle(
      id := id,
      userId := userId,
      mediaType := Some("movie"),
      originalName := None,
      originalTitle := Some(model.title),
      posterPath := model.posterPath,
      overview := Some(model.titleOverview),
      voteCount := 0,
      releaseDate := None,
      voteAverage := 0.0)
  }

  /** What the downloads list reads back for a record a preview saved: the nil name and
      release date come back as "", and so does a nil poster. */
  lemma DownloadRecordAsFetched(userId: string, model: TitlePreviewViewModel, id: int)
    ensures Decode(Encode(DownloadRecord(userId, model, id)))
         == FirestoreTitle(id, userId, Some("movie"), Some(""), Some(model.title), Some(model.posterPath.GetOr("")),
                           Some(model.titleOverview), 0, Some(""), 0.0)
    ensures DocumentId(DownloadRecord(userId, model, id)) == DocumentKey(userId, id)
  {
  }

  /** Saving from two previews of the same user that draw the same id writes one document:
      the second download replaces the first. */
  lemma SameDrawnIdOverwrites(docs: Collection, userId: string, m1: TitlePreviewViewModel, m2: TitlePreviewViewModel, id: int)
    ensures Upsert(Upsert(docs, DownloadRecord(userId, m1, id)), DownloadRecord(userId, m2, id))
         == Upsert(docs, DownloadRecord(userId, m2, id))
  {
  }

  /** Different drawn ids give different documents. */
  lemma DistinctDrawnIdsDistinctDocuments(userId: string, m1: TitlePreviewViewModel, m2: TitlePreviewViewModel, id1: int, id2: int)
    requires id1 != id2
    ensures DocumentId(DownloadRecord(userId, m1, id1)) != DocumentId(DownloadRecord(userId, m2, id2))
  {
    DocumentIdInjective(DownloadRecord(userId, m1, id1), DownloadRecord(userId, m2, id2));
  }

  class TitlePreviewViewController {
    var currentModel: Option<TitlePreviewViewModel>
    var isDownloaded: bool
    /** The texts of the title and overview labels, nil until configured. */
    var titleText: Option<string>
    var overviewText: Option<string>
    /** The URL the web view was last asked to load. */
    var loadedURL: Option<string>
    var downloadButtonHidden: bool
    var downloadedLabelHidden: bool

    /** Exactly one of the button and the label is visible. */
    ghost predicate Valid()
      reads this
    {
      downloadButtonHidden != downloadedLabelHidden
    }

    /** The visible widget is the one that matches `isDownloaded`. */
    predicate ShowsDownloadStatus()
      reads this
    {
      downloadButtonHidden == isDownloaded && downloadedLabelHidden == !isDownloaded
    }

    /** A fresh screen: not downloaded, the button shown and the label hidden. */
    constructor ()
      ensures Valid() && ShowsDownloadStatus()
      ensures currentModel == None && !isDownloaded
      ensures titleText == None && overviewText == None && loadedURL == None
      ensures !downloadButtonHidden && downloadedLabelHidden
    {
      currentModel := None;
      isDownloaded := false;
      titleText := None;
      overviewText := None;
      loadedURL := None;
      downloadButtonHidden := false;
      downloadedLabelHidden := true;
    }

    /** Stores the model and the status and fills in the labels. Only when the embed URL
        parses (`urlParses`) is the trailer loaded and the status shown; otherwise the method
        returns early and the visible widget may disagree with `isDownloaded`. */
    method Configure(model: TitlePreviewViewModel, isDownloaded: bool, urlParses: bool)
      requires Valid()
      modifies this
      ensures Valid()
      ensures currentModel == Some(model) && this.isDownloaded == isDownloaded
      ensures titleText == Some(model.title) && overviewText == Some(model.titleOverview)
      ensures urlParses ==> loadedURL == Some(EmbedURL(model.youtubeView.id.videoId)) && ShowsDownloadStatus()
      ensures !urlParses ==> loadedURL == old(loadedURL)
      ensures !urlParses ==> downloadButtonHidden == old(downloadButtonHidden) && downloadedLabelHidden == old(downloadedLabelHidden)
    {
      currentModel := Some(model);
      this.isDownloaded := isDownloaded;
      titleText := Some(model.title);
      overviewText := Some(model.titleOverview);
      if !urlParses {
        return;
      }
      loadedURL := Some(EmbedURL(model.youtubeView.id.videoId));
      UpdateUIForDownloadStatus();
    }

    /** Hides the button when downloaded and the label otherwise. */
    method UpdateUIForDownloadStatus()
      modifies this
      ensures Valid() && ShowsDownloadStatus()
      ensures isDownloaded == old(isDownloaded) && currentModel == old(currentModel)
      ensures titleText == old(titleText) && overviewText == old(overviewText) && loadedURL == old(loadedURL)
    {
      if isDownloaded {
        downloadButtonHidden := true;
        downloadedLabelHidden := false;
      } else {
        downloadButtonHidden := false;
        downloadedLabelHidden := true;
      }
    }

    /** The download button's action. Without a signed-in user (`currentUser`) or a model
        nothing is saved and nothing changes. Otherwise the record built from the model, the
        user and the drawn id `randomId` is saved; a successful save marks the title
        downloaded and shows it, a failed one changes nothing on the screen. The record is
        returned as `saved`. */
    method DownloadTitle(db: DataPersistenceManager, currentUser: Option<string>, randomId: int, backendOk: bool)
      returns (saved: Option<FirestoreTitle>)
      requires 1 <= randomId <= 10000
      requires Valid()
      modifies this, db
      ensures Valid()
      ensures currentUser.None? || old(currentModel).None? ==> saved.None?
      ensures currentUser.Some? && old(currentModel).Some? ==>
                saved == Some(DownloadRecord(currentUser.value, old(currentModel).value, randomId))
      ensures saved.Some? && backendOk ==> db.documents == Upsert(old(db.documents), saved.value)
      ensures saved.None? || !backendOk ==> db.documents == old(db.documents)
      ensures isDownloaded == (old(isDownloaded) || (saved.Some? && backendOk))
      ensures saved.Some? && backendOk ==> ShowsDownloadStatus()
      ensures saved.None? || !backendOk ==>
                downloadButtonHidden == old(downloadButtonHidden) && downloadedLabelHidden == old(downloadedLabelHidden)
      ensures currentModel == old(currentModel)
      ensures titleText == old(titleText) && overviewText == old(overviewText) && loadedURL == old(loadedURL)
    {
      saved := None;
      if currentUser.None? {
        return;
      }
      if currentModel.None? {
        return;
      }
      var record := DownloadRecord(currentUser.value, currentModel.value, randomId);
      saved := Some(record);
      var result := db.DownloadTitleWith(record, backendOk);
      if result.Success? {
        isDownloaded := true;
        UpdateUIForDownloadStatus();
      }
    }
  }
}
