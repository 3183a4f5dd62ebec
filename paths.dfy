/** `get_asset_path`: the site-relative path of a registered asset, or null. */
module Paths {
  import opened Wrappers
  import opened PhpString
  import opened Dependencies

  /** `preg_match('|^(https?:)?//|', $src)`. */
  predicate IsAbsolute(src: string) {
    StartsWith(src, "//") || StartsWith(src, "http://") || StartsWith(src, "https://")
  }

  /** The src with `base_url` put in front unless it is absolute or under `content_url`. */
  function FullSrc(src: string, baseUrl: string, contentUrl: string): string {
    if IsAbsolute(src) || (Truthy(contentUrl) && StartsWith(src, contentUrl)) then src
    else baseUrl + src
  }

  /**
   * The path of `h` relative to the site root: null when `h` is not
   * registered or its full src is not under `home_url`; otherwise the full
   * src with every occurrence of `home_url` removed.
   */
  function AssetPath(registered: map<Handle, Asset>, h: Handle,
                     baseUrl: string, contentUrl: string, homeUrl: string): (r: Option<string>)
    ensures r.None? <==>
      h !in registered || !StartsWith(FullSrc(registered[h].src.GetOr(""), baseUrl, contentUrl), homeUrl)
    ensures r.Some? && |homeUrl| > 0 ==>
      |r.value| <= |FullSrc(registered[h].src.GetOr(""), baseUrl, contentUrl)| - |homeUrl|
  {
    if h !in registered then None
    else
      var src := FullSrc(registered[h].src.GetOr(""), baseUrl, contentUrl);
      if !StartsWith(src, homeUrl) then None
      else
        assert |homeUrl| > 0 ==> |RemoveAll(src, homeUrl)| <= |src| - |homeUrl| by {
          if |homeUrl| > 0 {
            AssetPathStrips(registered, h, baseUrl, contentUrl, homeUrl);
            RemoveAllLength(src[|homeUrl|..], homeUrl);
          }
        }
        Some(RemoveAll(src, homeUrl))
  }

  /**
   * For a local asset, the path is what follows `home_url` with every
   * further occurrence of `home_url` dropped as well: it is exactly that rest
   * when `home_url` does not occur in it again, and strictly shorter when it does.
   */
  lemma AssetPathStrips(registered: map<Handle, Asset>, h: Handle,
                        baseUrl: string, contentUrl: string, homeUrl: string)
    requires h in registered
    requires |homeUrl| > 0
    requires StartsWith(FullSrc(registered[h].src.GetOr(""), baseUrl, contentUrl), homeUrl)
    ensures var src := FullSrc(registered[h].src.GetOr(""), baseUrl, contentUrl);
      var rest := src[|homeUrl|..];
      && RemoveAll(src, homeUrl) == RemoveAll(rest, homeUrl)
      && (|RemoveAll(src, homeUrl)| == |rest| <==> !Occurs(rest, homeUrl))
      && (!Occurs(rest, homeUrl) ==> RemoveAll(src, homeUrl) == rest)
  {
    var src := FullSrc(registered[h].src.GetOr(""), baseUrl, contentUrl);
    var rest := src[|homeUrl|..];
    RemoveAllLength(rest, homeUrl);
    if !Occurs(rest, homeUrl) {
      RemoveAllIdentity(rest, homeUrl);
    }
  }

  /** A src of the form `home_url . path`, with `home_url` not occurring in `path`, yields `path`. */
  lemma LocalAssetPath(registered: map<Handle, Asset>, h: Handle,
                       baseUrl: string, contentUrl: string, homeUrl: string, path: string)
    requires h in registered && |homeUrl| > 0
    requires FullSrc(registered[h].src.GetOr(""), baseUrl, contentUrl) == homeUrl + path
    requires !Occurs(path, homeUrl)
    ensures AssetPath(registered, h, baseUrl, contentUrl, homeUrl) == Some(path)
  {
    assert (homeUrl + path)[..|homeUrl|] == homeUrl;
    assert (homeUrl + path)[|homeUrl|..] == path;
    AssetPathStrips(registered, h, baseUrl, contentUrl, homeUrl);
  }
}
