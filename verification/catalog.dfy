/** The catalog client, `searchMovies` and `fetchDownloadLinks`
    (index.js:39-62). The HTTP request itself is not modelled: its outcome is
    an input, and only the normalisation the bot applies to it is. */
module Catalog {
  import opened Wrappers

  /** One search result. Every field holds the text JavaScript would
      interpolate for it (a numeric id is held as its decimal text). */
  datatype Movie = Movie(id: string, title: string, kind: string, img: string)

  /** One download link of a record. */
  datatype Link = Link(quality: string, size: string, url: string)

  /** The three link groups of a download record. */
  datatype LinkGroups = LinkGroups(telegramLinks: seq<Link>, driveLinks: seq<Link>, otherLinks: seq<Link>)

  /** The metadata and links of one catalog item. */
  datatype DownloadRecord = DownloadRecord(
    date: string,
    country: string,
    duration: string,
    genres: seq<string>,
    imdb: string,
    tmdb: string,
    links: LinkGroups)

  /** What one catalog request came back with: the nested result field, a
      response whose nested result field is absent (or falsy), or a thrown
      request or parse error. */
  datatype Answer<+T> =
    | Found(value: T)
    | FieldMissing
    | RequestFailed

  /** `searchMovies`: a missing result field becomes the empty list, while a
      failure becomes `null` (`None`), so that callers can tell "no matches"
      from "the request failed". */
  function SearchMovies(answer: Answer<seq<Movie>>): (r: Option<seq<Movie>>)
    ensures r.None? <==> answer.RequestFailed?
    ensures answer.FieldMissing? ==> r == Some([])
    ensures answer.Found? ==> r == Some(answer.value)
  {
    match answer
    case Found(movies) => Some(movies)
    case FieldMissing => Some([])
    case RequestFailed => None
  }

  /** `fetchDownloadLinks`: unlike the search, a missing result field and a
      failure both become `null` (`None`). */
  function FetchDownloadLinks(answer: Answer<DownloadRecord>): (r: Option<DownloadRecord>)
    ensures r.Some? <==> answer.Found?
    ensures r.Some? ==> r.value == answer.value
  {
    match answer
    case Found(record) => Some(record)
    case FieldMissing => None
    case RequestFailed => None
  }
}
