/** The process configuration that affects outbound calls: the default headers. */
module Config {
  import opened Wrappers
  import opened Json

  /** `DEFAULT_HEADERS`: the JSON content type always, and the two credential
      headers, in that order, only when both credentials are set and non-empty. */
  function DefaultHeaders(appId: Option<string>, apiKey: Option<string>): (h: seq<(string, string)>)
    ensures |h| >= 1 && h[0] == ("Content-Type", "application/json")
    ensures |h| == 3 <==> TruthyText(appId) && TruthyText(apiKey)
    ensures |h| == 1 || |h| == 3
    ensures |h| == 3 ==> h[1] == ("X-Backendless-Application-Id", appId.value)
    ensures |h| == 3 ==> h[2] == ("X-Backendless-API-Key", apiKey.value)
  {
    [("Content-Type", "application/json")]
    + if TruthyText(appId) && TruthyText(apiKey)
      then [("X-Backendless-Application-Id", appId.value), ("X-Backendless-API-Key", apiKey.value)]
      else []
  }
}
