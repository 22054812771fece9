/** The REST API's base URL and endpoint paths (frontend/src/config/api.js). */
module ApiConfig {
  import opened Wrappers

  /** The deployed API Gateway stage used when the build sets no base URL. */
  const DefaultApiBaseUrl: string := "https://1hshn8sqfa.execute-api.us-east-1.amazonaws.com/prod"

  const VideosPath: string := "/videos"
  const UploadInitiatePath: string := "/upload/initiate"
  const SearchPath: string := "/search"
  const ContinueWatchingPath: string := "/continue-watching"

  /** `API_BASE_URL`: the build environment's value when it is a non-empty string, else the default. */
  function ApiBaseUrl(env: Option<string>): (r: string)
    ensures env.Some? && env.value != "" ==> r == env.value
    ensures env.None? || env.value == "" ==> r == DefaultApiBaseUrl
  {
    if env.Some? && env.value != "" then env.value else DefaultApiBaseUrl
  }

  /** `API_ENDPOINTS.VIDEO(id)`. */
  function VideoPath(id: string): (r: string)
    ensures |r| == 8 + |id| && r[..7] == VideosPath && r[7..8] == "/" && r[8..] == id
  {
    "/videos/" + id
  }

  /** `API_ENDPOINTS.PLAY(id)`. */
  function PlayPath(id: string): (r: string)
    ensures |r| == 6 + |id| && r[..6] == "/play/" && r[6..] == id
  {
    "/play/" + id
  }

  /** `getApiUrl(endpoint)`: the base URL with the endpoint path appended. */
  function GetApiUrl(base: string, endpoint: string): (r: string)
    ensures |r| == |base| + |endpoint|
    ensures r[..|base|] == base && r[|base|..] == endpoint
  {
    base + endpoint
  }

  /** Two video ids give the same video URL only when they are the same id. */
  lemma VideoUrlInjective(base: string, a: string, b: string)
    requires GetApiUrl(base, VideoPath(a)) == GetApiUrl(base, VideoPath(b))
    ensures a == b
  {
    var ua := GetApiUrl(base, VideoPath(a));
    assert VideoPath(a) == ua[|base|..];
    assert a == VideoPath(a)[8..];
    assert b == VideoPath(b)[8..];
  }
}
