/** The value types the download catalog passes around (Netflix/Netflix/Models and ViewModels). */
module Models {
  import opened Wrappers

  /** One "downloaded" title saved for a user (FirestoreTitle.swift). `voteAverage` is a Swift
      `Double` that is only carried, never computed with; it is a `real` here. */
  datatype FirestoreTitle = FirestoreTitle(
    id: int,
    userId: string,
    mediaType: Option<string>,
    originalName: Option<string>,
    originalTitle: Option<string>,
    posterPath: Option<string>,
    overview: Option<string>,
    voteCount: int,
    releaseDate: Option<string>,
    voteAverage: real
  )

  /** A search result of the metadata API (Title.swift); only `posterPath` is ever read. */
  datatype Title = Title(
    id: int,
    mediaType: Option<string>,
    originalName: Option<string>,
    originalTitle: Option<string>,
    posterPath: Option<string>,
    overview: Option<string>,
    voteCount: int,
    releaseDate: Option<string>,
    voteAverage: real
  )

  /** A video found by the video-lookup API (YoutubeSearchResponse.swift). */
  datatype IdVideoElement = IdVideoElement(kind: string, videoId: string)
  datatype VideoElement = VideoElement(id: IdVideoElement)

  /** What the preview screen is configured with (TitlePreviewViewModel.swift). */
  datatype TitlePreviewViewModel = TitlePreviewViewModel(
    title: string,
    youtubeView: VideoElement,
    titleOverview: string,
    posterPath: Option<string>
  )

  /** What one row of the downloads table shows (TitleViewModel.swift). */
  datatype TitleViewModel = TitleViewModel(titleName: string, posterURL: string)
}
