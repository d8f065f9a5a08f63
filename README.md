# Download catalog of the Netflix-style client, in Dafny

This project models the part of the iOS app that keeps a user's downloaded titles: how a
title is filed in the remote `user_downloads` collection, how it is saved and read back, how
the downloads list follows the collection, what each row of the list shows, what the
preview screen shows and saves, and the `capitalizeFirstLetter` string helper.

- `wrappers.dfy` (`Wrappers`): Swift's `Optional` (`??` as `GetOr` and `OrElse`) and `Result`.
- `models.dfy` (`Models`): the records: `FirestoreTitle`, the metadata search result `Title`,
  the video result, and the two view models.
- `data_persistence.dfy` (`DataPersistence`): the document id `"{userId}_{id}"`, the field map
  a record is saved as, how a stored document decodes, the collection as a
  `map<string, Document>`, and the class `DataPersistenceManager` whose three methods save,
  fetch and delete. Every backend call takes `backendOk`, whether the backend reports success.
- `title_preview.dfy` (`TitlePreview`): the class `TitlePreviewViewController`, with its
  model, download flag, label texts, loaded URL and the hidden flags of the "Download This"
  button and the "Downloaded" label; the embed URL; the record a download saves.
- `downloads.dfy` (`Downloads`): the class `DownloadsViewController` holding the ordered list
  `titles`; the per-row display rules and the poster lookup; what selecting a row opens.
- `extensions.dfy` (`Extensions`): `capitalizeFirstLetter` over ASCII text.

The signed-in user is an `Option<string>` argument, and the metadata search and video lookup
are function arguments giving the outcome for each query. Each completion handler is one
atomic step of the method that issues the call.

The query asks for no particular order, and the backend delivers documents in an order of its
own, so the model leaves the order free: `FetchingTitlesFromDatabase` may pick any matching
document next. Its ghost result `snapshot` lists the document ids
in the order it delivered them, and `IsEnumeration` says that the snapshot lists every
matching id exactly once.

`WellFormed` says that every stored document is a saved record filed under its own id. The
collection is shared with other clients, so this is not assumed. Save and delete are proved to
preserve it. The lemmas about duplicates and deletes need it.

Two things the code does not do, and the model does not add:

- The code does not drop a late poster result when the list has changed in the meantime. It
  also does not remember a resolved poster: every evaluation of `CellForRowAt` on a row with
  the empty sentinel looks the poster up again.
- No signed-in user is not reported as an error. Both the fetch and the download return
  without doing anything.

Behaviour of the code that the proofs make visible:

- The list shows `originalTitle` or "Unknown Title", but the poster and trailer searches use
  `originalTitle ?? originalName`. A title that has only `originalName` is listed as
  "Unknown Title" and is still searched for by its name.
- A download draws its id from 1 to 10000. Two downloads by one user that draw the same id
  share a document, and the second replaces the first (`SameDrawnIdOverwrites`).
- A download with no poster is saved with `posterPath` "". The list reads this back as the
  empty sentinel, so it looks the poster up by the title's name (`DownloadedPreviewRow`).
- If the embed URL does not parse, `configure` returns before it refreshes the button and the
  label. The widget shown can then disagree with `isDownloaded` (`Configure`). Exactly one of
  the two widgets is still visible (`Valid`).

## Model

| member | source | states |
|---|---|---|
| `DataPersistence.IntToDecimal` | Netflix/Netflix/Managers/DataPersistenceManager.swift:18 | the rendering of an id is non-empty, starts with '-' exactly for negative ids, and holds only digits and '-' |
| `DataPersistence.NatToDecimal` | Netflix/Netflix/Managers/DataPersistenceManager.swift:18 | the digits of a natural number: at least one, a single one exactly below 10, and all of them decimal digits |
| `DataPersistence.NatToDecimalInjective` | Netflix/Netflix/Managers/DataPersistenceManager.swift:18 | two natural numbers with the same digits are equal |
| `DataPersistence.IntToDecimalInjective` | Netflix/Netflix/Managers/DataPersistenceManager.swift:18 | two ids with the same rendering are equal |
| `DataPersistence.DocumentKey` | Netflix/Netflix/Managers/DataPersistenceManager.swift:18 | the document id starts with the user id, then '_', and holds no other '_' after it; what follows the '_' reads back as the id |
| `DataPersistence.NatToDecimalValue` | Netflix/Netflix/Managers/DataPersistenceManager.swift:18 | the digits of a natural number read back as that number |
| `DataPersistence.IntToDecimalValue` | Netflix/Netflix/Managers/DataPersistenceManager.swift:18 | the rendering of an id, sign included, reads back as that id |
| `DataPersistence.DocumentId` | Netflix/Netflix/Managers/DataPersistenceManager.swift:18 | a record's document id is its user id, then '_', then a suffix that reads back as the record's id |
| `DataPersistence.DocumentKeyInjective` | Netflix/Netflix/Managers/DataPersistenceManager.swift:18 | two document ids are equal if and only if their user ids and ids are equal |
| `DataPersistence.DocumentIdInjective` | Netflix/Netflix/Managers/DataPersistenceManager.swift:72 | save (line 18) and delete (line 72) compute the same id, and two records share it if and only if they have the same user and id |
| `DataPersistence.WithEmptyForNil` | Netflix/Netflix/Managers/DataPersistenceManager.swift:22-28 | the record with no nil string left: a present string is kept, a nil one becomes "", and the other fields are unchanged |
| `DataPersistence.Encode` | Netflix/Netflix/Managers/DataPersistenceManager.swift:19-30 | the saved document has exactly the ten fields, with `id` and `voteCount` as integers, `voteAverage` as a double and every string field as a string; it decodes back to the record with nil strings as "" |
| `DataPersistence.Decode` | Netflix/Netflix/Managers/DataPersistenceManager.swift:51-65 | a missing or ill-typed `id` or `voteCount` reads as 0, `userId` as "", `voteAverage` as 0.0, and an optional string as nil; a well-typed field is read as stored |
| `DataPersistence.DecodeEmptyDocument` | Netflix/Netflix/Managers/DataPersistenceManager.swift:53-64 | a document without fields reads as the all-default record |
| `DataPersistence.EncodeIgnoresNil` | Netflix/Netflix/Managers/DataPersistenceManager.swift:22-28 | writing nil strings as "" gives the same document as writing "" |
| `DataPersistence.EncodeConflatesNilAndEmpty` | Netflix/Netflix/Managers/DataPersistenceManager.swift:19-30 | two records are saved as the same document if and only if they agree once nil strings are read as "" |
| `DataPersistence.RoundTripExactIff` | Netflix/Netflix/Managers/DataPersistenceManager.swift:19-30 | a record comes back from save and fetch unchanged if and only if none of its optional strings is nil |
| `DataPersistence.Upsert` | Netflix/Netflix/Managers/DataPersistenceManager.swift:32 | a save adds or overwrites the record's own document and leaves every other document unchanged |
| `DataPersistence.Remove` | Netflix/Netflix/Managers/DataPersistenceManager.swift:73 | a delete removes the record's own document, if present, and keeps every other document unchanged |
| `DataPersistence.Matching` | Netflix/Netflix/Managers/DataPersistenceManager.swift:45 | the query keeps stored documents only, and each of them decodes to a record of the queried user |
| `DataPersistence.UpsertIdempotent` | Netflix/Netflix/Managers/DataPersistenceManager.swift:32 | saving the same record twice is saving it once |
| `DataPersistence.RemoveIdempotent` | Netflix/Netflix/Managers/DataPersistenceManager.swift:73 | deleting the same record twice is deleting it once |
| `DataPersistence.SameKeyOverwrites` | Netflix/Netflix/Managers/DataPersistenceManager.swift:18-32 | of two records with the same user and id, the later save replaces the earlier |
| `DataPersistence.RemoveOtherKeepsSaved` | Netflix/Netflix/Managers/DataPersistenceManager.swift:72-73 | deleting a record with another user or id leaves a saved record's document in place |
| `DataPersistence.UpsertPreservesWellFormed` | Netflix/Netflix/Managers/DataPersistenceManager.swift:17-32 | a save keeps every document a saved record filed under its own id |
| `DataPersistence.RemovePreservesWellFormed` | Netflix/Netflix/Managers/DataPersistenceManager.swift:71-73 | a delete keeps every document a saved record filed under its own id |
| `DataPersistence.SavedRecordIsFetched` | Netflix/Netflix/Managers/DataPersistenceManager.swift:44-65 | after a save, a fetch of the record's user yields the record with nil strings as "" |
| `DataPersistence.DeletedKeyNotFetched` | Netflix/Netflix/Managers/DataPersistenceManager.swift:72-73 | after a delete, no fetch lists the deleted document id |
| `DataPersistence.DeletedTitleNotFetched` | Netflix/Netflix/Managers/DataPersistenceManager.swift:71-76 | in a well-formed store, after a delete no fetched record has the deleted record's user and id |
| `DataPersistence.FetchHasNoDuplicates` | Netflix/Netflix/Managers/DataPersistenceManager.swift:51-65 | in a well-formed store a fetch yields no record twice |
| `DataPersistence.DataPersistenceManager.constructor` | Netflix/Netflix/Managers/DataPersistenceManager.swift:6-7 | a manager works on the collection it is given, as it stands |
| `DataPersistence.DataPersistenceManager.DownloadTitleWith` | Netflix/Netflix/Managers/DataPersistenceManager.swift:17-41 | on success the collection becomes the upsert of the record; on failure it is unchanged and `failedToSaveData` is reported |
| `DataPersistence.DataPersistenceManager.FetchingTitlesFromDatabase` | Netflix/Netflix/Managers/DataPersistenceManager.swift:44-68 | on success it returns one decoded record per document whose `userId` field is the argument, each exactly once and none dropped, all with that user; on failure `failedToFetchData` |
| `DataPersistence.DataPersistenceManager.DeleteTitleWith` | Netflix/Netflix/Managers/DataPersistenceManager.swift:71-82 | on success the record's document is removed and nothing else changes; on failure nothing changes and `failedToDeleteData` is reported |
| `TitlePreview.EmbedURL` | Netflix/Netflix/Controllers/General/TitlePreviewViewController.swift:96 | the URL is the embed prefix followed by the video id |
| `TitlePreview.EmbedURLInjective` | Netflix/Netflix/Controllers/General/TitlePreviewViewController.swift:96 | two videos have the same embed URL if and only if they have the same id |
| `TitlePreview.DownloadRecord` | Netflix/Netflix/Controllers/General/TitlePreviewViewController.swift:123-134 | the saved record has the drawn id and the user, media type "movie", nil original name and release date, the model's title as original title, its overview and poster, vote count 0 and vote average 0 |
| `TitlePreview.DownloadRecordAsFetched` | Netflix/Netflix/Controllers/General/TitlePreviewViewController.swift:123-134 | the saved record reads back with the given id and user, media type "movie", the model's title, poster (nil as "") and overview, vote count 0, vote average 0, and "" for the nil name and release date; it is filed under `"{user}_{id}"` |
| `TitlePreview.SameDrawnIdOverwrites` | Netflix/Netflix/Controllers/General/TitlePreviewViewController.swift:124 | two downloads of one user that draw the same id end in one document, the second |
| `TitlePreview.DistinctDrawnIdsDistinctDocuments` | Netflix/Netflix/Controllers/General/TitlePreviewViewController.swift:124 | downloads that draw different ids are filed under different documents |
| `TitlePreview.TitlePreviewViewController.constructor` | Netflix/Netflix/Controllers/General/TitlePreviewViewController.swift:40-51 | a new screen has no model, is not downloaded, shows the button and hides the label |
| `TitlePreview.TitlePreviewViewController.Configure` | Netflix/Netflix/Controllers/General/TitlePreviewViewController.swift:89-100 | the model and the flag are set to the arguments and the labels to the model's texts; when the URL parses the trailer URL is loaded and the status is shown, otherwise the widgets stay as they were |
| `TitlePreview.TitlePreviewViewController.UpdateUIForDownloadStatus` | Netflix/Netflix/Controllers/General/TitlePreviewViewController.swift:102-110 | the button is hidden exactly when downloaded and the label exactly when not, so exactly one is visible |
| `TitlePreview.TitlePreviewViewController.DownloadTitle` | Netflix/Netflix/Controllers/General/TitlePreviewViewController.swift:112-148 | without a user or a model nothing is saved or changed; otherwise the built record is upserted on success; `isDownloaded` only ever becomes true, and only on a successful save, which also shows the label |
| `Downloads.DisplayName` | Netflix/Netflix/Controllers/Core/DownloadsViewController.swift:94 | a row is named by `originalTitle`, or "Unknown Title" when it is nil |
| `Downloads.NeedsPosterLookup` | Netflix/Netflix/Controllers/Core/DownloadsViewController.swift:89 | a poster is looked up exactly when the stored path is present and empty; a nil path is not looked up |
| `Downloads.LookupName` | Netflix/Netflix/Controllers/Core/DownloadsViewController.swift:113 | the name searched for is `originalTitle`, else `originalName`, and there is none exactly when both are nil |
| `Downloads.FetchPosterPath` | Netflix/Netflix/Controllers/Core/DownloadsViewController.swift:112-127 | a path is found if and only if the row has a name, the search for it succeeds with at least one result, and the first result has a poster path; that path is returned |
| `Downloads.FetchPosterPathUsesOnlyItsQuery` | Netflix/Netflix/Controllers/Core/DownloadsViewController.swift:112-118 | the lookup depends only on the one search for `originalTitle ?? originalName`, and on no search when both are nil |
| `Downloads.CellViewModel` | Netflix/Netflix/Controllers/Core/DownloadsViewController.swift:87-107 | the row shows `originalTitle` or "Unknown Title"; the stored poster, or the placeholder for nil, unless it is the "" sentinel, when the looked-up path or the placeholder is shown; an empty path is shown only when the lookup itself returns "" |
| `Downloads.CellWithoutSentinelIgnoresSearch` | Netflix/Netflix/Controllers/Core/DownloadsViewController.swift:89-106 | a row not holding the "" sentinel is shown the same whatever the search would return |
| `Downloads.ResolvedPosterScenario` | Netflix/Netflix/Controllers/Core/DownloadsViewController.swift:89-98 | the row "Alpha" with an empty poster shows "/p1.jpg" when the search finds it first |
| `Downloads.FailedLookupScenario` | Netflix/Netflix/Controllers/Core/DownloadsViewController.swift:89-98 | the row "Beta" with an empty poster shows the placeholder when the search fails |
| `Downloads.SelectionPreview` | Netflix/Netflix/Controllers/Core/DownloadsViewController.swift:150-167 | nothing opens if and only if the row has no name or the video lookup fails; otherwise the preview has that name and video, the overview or "No description available", and the stored poster |
| `Downloads.DownloadedPreviewRow` | Netflix/Netflix/Controllers/Core/DownloadsViewController.swift:87-98 | a title saved from a preview is listed under the preview's title, searched for by it, and has its poster looked up exactly when the preview had no poster or an empty one |
| `Downloads.ReopenedPreviewMatches` | Netflix/Netflix/Controllers/Core/DownloadsViewController.swift:150-167 | reopening a title saved from a preview gives back its title and overview, with a nil poster as "" |
| `Downloads.DeleteRowKeepsProjection` | Netflix/Netflix/Controllers/Core/DownloadsViewController.swift:131-137 | when the list mirrors a well-formed store, deleting a row removes exactly that row's document and the shortened list, with the others in order, still mirrors the store |
| `Downloads.DownloadsViewController.constructor` | Netflix/Netflix/Controllers/Core/DownloadsViewController.swift:13 | the list starts empty |
| `Downloads.DownloadsViewController.NumberOfRowsInSection` | Netflix/Netflix/Controllers/Core/DownloadsViewController.swift:75-77 | the row count is the number of titles held |
| `Downloads.DownloadsViewController.CellForRowAt` | Netflix/Netflix/Controllers/Core/DownloadsViewController.swift:79-110 | a row shows its title's display name, and its stored poster or the placeholder when the poster is not the "" sentinel; with the sentinel, the looked-up path or the placeholder |
| `Downloads.DownloadsViewController.FetchLocalStorageForDownload` | Netflix/Netflix/Controllers/Core/DownloadsViewController.swift:53-70 | a successful fetch replaces the list with exactly the user's stored records, each once; no user or a failed fetch leaves the list unchanged |
| `Downloads.DownloadsViewController.CommitEditing` | Netflix/Netflix/Controllers/Core/DownloadsViewController.swift:129-145 | a successful delete of row i deletes that record's document and leaves `titles[..i] + titles[i+1..]`, one row fewer; a failed delete or another editing style changes nothing |
| `Downloads.DownloadsViewController.DidSelectRowAt` | Netflix/Netflix/Controllers/Core/DownloadsViewController.swift:147-175 | nothing opens without a preview model; otherwise a new preview configured with it and marked downloaded, showing the "Downloaded" label when its URL parses and, when it does not, still the button and not the label |
| `Extensions.Lowercased` | Netflix/Netflix/Resources/Extensions.swift:13 | for ASCII input: same length, every character lower-cased, still ASCII |
| `Extensions.Uppercased` | Netflix/Netflix/Resources/Extensions.swift:13 | for ASCII input: same length, every character upper-cased, still ASCII |
| `Extensions.CapitalizeFirstLetter` | Netflix/Netflix/Resources/Extensions.swift:12-14 | for ASCII input: same length, first character upper-cased, every later character lower-cased, still ASCII |
| `Extensions.CapitalizeEmpty` | Netflix/Netflix/Resources/Extensions.swift:13 | the empty string stays empty |
| `Extensions.CapitalizeIdempotent` | Netflix/Netflix/Resources/Extensions.swift:13 | capitalizing twice is capitalizing once |
| `Extensions.CapitalizeIgnoresCase` | Netflix/Netflix/Resources/Extensions.swift:13 | capitalizing the lower-cased input gives the same result |
| `Extensions.CapitalizeIgnoresUppercase` | Netflix/Netflix/Resources/Extensions.swift:13 | capitalizing the upper-cased input gives the same result |

## Left out

- Screen layout, table cells, alerts, navigation pushes, `reloadData` and the row-deletion animation: these are UIKit presentation.
- Sign-in, sign-up and the rest of the account screens: these are calls into the identity provider's SDK. The current user is an argument.
- The Firestore client: the collection is a map and each call's outcome is the `backendOk` argument. A failed write is taken to leave the collection unchanged. Offline caching and listeners are not modelled.
- The shared `DataPersistenceManager.shared` singleton: the manager is passed into each method that uses it.
- Dispatch queues and completion order: each completion is one atomic step of the method that issues the call. The delete handler's row index, captured before the call, is the precondition `row < |titles|`, with no check that the row still holds the same title.
- The "downloaded" notification and `reloadDownloads`: the observer just calls `fetchLocalStorageForDownload`, which is modelled; publishing and subscribing are not.
- `APICaller` is not part of this model. The metadata search and the video lookup are function arguments, and their failures are one `LookupFailed` value.
- `Int.random(in: 1...10000)`: the drawn id is an argument required to lie in that range.
- The 64-bit range of Swift's `Int`: ids and counts are unbounded integers. Nothing computes with them, so no overflow can occur.
- `voteAverage` as a `Double`: it is a `real`, because it is only carried and defaulted.
- NSNumber bridging in `as? Int` and `as? Double`: a cast succeeds only on a stored value of exactly that kind.
- `URL(string:)`: whether the embed URL parses is the `urlParses` argument. Loading the web view is recorded as the URL it was asked to load.
- Poster image loading in EnhancedTitleTableViewCell.swift: this is network I/O done in the cell.
- The JSON decoding of search responses in Title.swift and YoutubeSearchResponse.swift: this is library code. The structs are datatypes.
- Diagnostic `print` calls on success and failure (DataPersistenceManager.swift:34, :37, :75, :78; DownloadsViewController.swift:55, :67, :123, :141, :172): console output has no effect on state.
- Extensions.Lowercased: modelled for ASCII input only, by a precondition; Swift lower-cases with full Unicode case mapping.
- Extensions.Uppercased: modelled for ASCII input only, by a precondition; Swift upper-cases with full Unicode case mapping.
- Extensions.CapitalizeFirstLetter: modelled for ASCII input only, by a precondition. Swift applies full Unicode case mapping, which can change the length of a string (for example, "ß" upper-cases to "SS").
