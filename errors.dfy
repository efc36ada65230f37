/**
  Swift's `Error` existential, as used across the app: the three error enums
  of the core (`ToDoRepositoryError`, `ToDoUseCaseError`, `FeedViewModel.FeedError`)
  and any other error a collaborator may throw.
*/
module Errors {

  datatype Error =
    | NotFound                     // ToDoRepositoryError.notFound
    | EmptyTitle                   // ToDoUseCaseError.emptyTitle
    | InvalidURL                   // FeedViewModel.FeedError.invalidURL
    | Other(description: string)   // any foreign error (network, decoding, test stubs)

  /** The text `FeedError.invalidURL` reports as its `errorDescription`. */
  const InvalidURLMessage: string := "Invalid feed URL configuration"

  /**
    `error.localizedDescription`. Only `invalidURL` has a text of its own; the
    texts Foundation generates for the other two enums are stood for by fixed
    placeholders, and a foreign error carries its own text.
  */
  function LocalizedDescription(e: Error): string
  {
    match e
    case NotFound => "ToDoRepositoryError.notFound"
    case EmptyTitle => "ToDoUseCaseError.emptyTitle"
    case InvalidURL => InvalidURLMessage
    case Other(d) => d
  }
}
