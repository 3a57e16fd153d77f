/** The base URL of the back end and the helper that joins it with a path. */
module Config {
  import opened Common
  import opened Text

  const DefaultBaseUrl := "http://localhost:3000"

  /** `API_BASE_URL`: the configured value, unless it is absent or empty. */
  function ApiBaseUrl(env: Option<string>): (r: string)
    ensures env.Some? && env.value != "" ==> r == env.value
    ensures env.None? || env.value == "" ==> r == DefaultBaseUrl
    ensures r != ""
  {
    if env.Some? && env.value != "" then env.value else DefaultBaseUrl
  }

  /** `withApi(path)`: the base, then exactly one `/`, then the path without its leading `/`. */
  function WithApi(base: string, path: string): (r: string)
    ensures StartsWith(r, base)
    ensures |r| > |base| && r[|base|] == '/'
    ensures r[|base| + 1..] == if StartsWith(path, "/") then path[1..] else path
  {
    base + if StartsWith(path, "/") then path else "/" + path
  }

  /** A path without a leading slash and the same path with one give the same URL. */
  lemma WithApiSlashInsensitive(base: string, x: string)
    requires !StartsWith(x, "/")
    ensures WithApi(base, x) == WithApi(base, "/" + x)
  {
    assert StartsWith("/" + x, "/");
  }

  /** A path that already starts with a slash is appended unchanged. */
  lemma WithApiKeepsRootedPath(base: string, path: string)
    requires StartsWith(path, "/")
    ensures WithApi(base, path) == base + path
  {
  }
}
