/** The messages the search pages show, and the mapping from a failed
    response to its message (src/components/SearchResults.jsx:62-67,
    src/Home.jsx:62-72). */
module Http {
  import opened Wrappers
  import opened Text
  import opened Catalog

  // The long messages are written in pieces only so that the verifier can
  // read single characters of them.
  const TooShortMessage: string := "Please enter " + "at least 3 " + "characters to search."
  const RateLimitMessage: string := "Too many requests. " + "Please wait a moment " + "before trying again."
  const FailurePrefix: string := "Failed to fetch anime: "

  /** `response.statusText || response.status` inside a template literal. */
  function StatusDetail<T>(r: Response<T>): (d: string)
    ensures d != ""
    ensures r.statusText != "" ==> d == r.statusText
    ensures r.statusText == "" ==> ParseInt(d) == Some(r.status as int)
  {
    if r.statusText != "" then r.statusText
    else
      ParseDecimal(r.status);
      DecimalString(r.status)
  }

  /** The error a response that is not ok raises: the rate-limit message
      exactly for status 429, and for every other status the generic failure
      that names the status text, or the status code when there is no text. */
  function FailureMessage<T>(r: Response<T>): (m: string)
    ensures m == RateLimitMessage <==> r.status == 429
    ensures r.status != 429 ==>
      |m| > |FailurePrefix| && m[..|FailurePrefix|] == FailurePrefix && m[|FailurePrefix|..] == StatusDetail(r)
  {
    if r.status == 429 then RateLimitMessage
    else
      var m := FailurePrefix + StatusDetail(r);
      assert m[0] == FailurePrefix[0] == 'F' && RateLimitMessage[0] == 'T';
      m
  }
}
