/** Asset URL construction (src/utils/AssetPath.js). */
module AssetPath {
  import opened Strings

  /** The path with one leading slash removed, if it has one. */
  function CleanPath(path: string): (r: string)
    ensures StartsWith(path, "/") ==> "/" + r == path
    ensures !StartsWith(path, "/") ==> r == path
  {
    if StartsWith(path, "/") then path[1..] else path
  }

  /** `import.meta.env.DEV ? '/' : import.meta.env.BASE_URL`; the build mode and
      the configured base are parameters. */
  function Base(dev: bool, baseUrl: string): string {
    if dev then "/" else baseUrl
  }

  /** `getAssetPath(path)`: the base followed by the cleaned path. */
  function GetAssetPath(path: string, dev: bool, baseUrl: string): (r: string)
    ensures StartsWith(r, Base(dev, baseUrl))
    ensures |r| == |Base(dev, baseUrl)| + |path| - (if StartsWith(path, "/") then 1 else 0)
  {
    Base(dev, baseUrl) + CleanPath(path)
  }

  /** With base "/", an absolute path comes back unchanged and a relative one
      gains exactly one leading slash. */
  lemma RootBaseResult(path: string, dev: bool, baseUrl: string)
    requires Base(dev, baseUrl) == "/"
    ensures GetAssetPath(path, dev, baseUrl) == if StartsWith(path, "/") then path else "/" + path
  {
  }

  /** With base "/", applying the function twice gives the same as once. */
  lemma {:induction false} RootBaseIdempotent(path: string, dev: bool, baseUrl: string)
    requires Base(dev, baseUrl) == "/"
    ensures GetAssetPath(GetAssetPath(path, dev, baseUrl), dev, baseUrl) == GetAssetPath(path, dev, baseUrl)
  {
    var once := GetAssetPath(path, dev, baseUrl);
    RootBaseResult(path, dev, baseUrl);
    assert StartsWith(once, "/");
    RootBaseResult(once, dev, baseUrl);
  }

  /** "//x" keeps one slash after cleaning: only the first character is removed. */
  lemma DoubleSlashKeepsOne(rest: string)
    ensures CleanPath("//" + rest) == "/" + rest
  {
    assert StartsWith("//" + rest, "/");
    assert ("//" + rest)[1..] == "/" + rest;
  }
}
