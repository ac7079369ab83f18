/** The exceptions the modelled code raises, as values. */
module Errors {

  datatype Error =
    | ValueError(message: string)
    | IndexError
    | AttributeError
    | ZeroDivisionError
    | RecursionError
    | QueryError(message: string)
    | ProgressHandlerError(message: string)
    /** A lookup of a missing key: a name outside NAME_TO_LEVEL, or a task id rich has removed. */
    | KeyError

  /** Raised by format_query when `{output-ext}` is asked for without an extension. */
  const OutputExtMessage := "file_extension is None, but template contains {output-ext}"

  /**
    Raised by `list.index` when the song is not in the list. Python writes
    the song's repr in front of "is not in list"; the fixed text stands for it.
  */
  const NotInListMessage := "song is not in list"

  /** Raised by the query dispatcher for a malformed `YouTubeURL|SpotifyURL` token. */
  const QueryFormatMessage := "Incorrect format used, please use YouTubeURL|SpotifyURL"
}
