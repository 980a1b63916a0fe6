/** The exceptions the shorten/resolve path can raise, as one datatype. */
module Exceptions {

  /** Why a long URL was rejected as invalid. */
  datatype InvalidReason =
    | MissingScheme
    | MissingDomain
    | UnsupportedScheme(scheme: string)

  datatype Error =
      /** The long URL is empty or only whitespace. */
    | EmptyURLError
      /** The long URL is longer than the maximum allowed length. */
    | URLTooLongError(url_length: nat, max_length: nat)
      /** The long URL has no scheme, no domain, or a scheme other than http/https. */
    | InvalidURLError(url: string, reason: InvalidReason)
      /** No record has the requested short code. */
    | LongURLNotFoundException(short_url: string)
      /** The store refused a commit: a duplicate primary key or short code. */
    | IntegrityError
      /** The store refused a commit: a value longer than its column. */
    | DataError
      /** A query expecting at most one row found several. */
    | MultipleResultsFound
      /** The cache could not be reached. */
    | CacheError

  /** The reason text an InvalidURLError carries; the unsupported-scheme
      text quotes the offending scheme right after its 20-character prefix. */
  function ReasonText(reason: InvalidReason): (text: string)
    ensures reason.UnsupportedScheme? ==>
              |text| > 20 + |reason.scheme| && text[20..20 + |reason.scheme|] == reason.scheme
    ensures reason.MissingScheme? || reason.MissingDomain? ==> |text| > 0
  {
    match reason
    case MissingScheme => "URL must include a scheme (e.g., http:// or https://)"
    case MissingDomain => "URL must include a domain (e.g., example.com)"
    case UnsupportedScheme(scheme) =>
      "Unsupported scheme '" + scheme + "'. Only http and https are allowed"
  }

  const NotFoundPrefix: string := "Long URL not found for short URL: "

  /** The message of a LongURLNotFoundException: a fixed prefix followed by
      the short code that was looked up. */
  function NotFoundMessage(short_url: string): (message: string)
    ensures |message| == |NotFoundPrefix| + |short_url|
    ensures message[..|NotFoundPrefix|] == NotFoundPrefix
    ensures message[|NotFoundPrefix|..] == short_url
  {
    NotFoundPrefix + short_url
  }
}
