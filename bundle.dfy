/**
 * The pure parts of `enqueue_minified_assets` and `cache_file`: the cache
 * file name, the bundle handle, the choice of the bundle src and the
 * rewriting of a registered asset's deps.
 */
module Bundle {
  import opened Wrappers
  import opened PhpString
  import opened Dependencies

  /** '.css' for WP_Styles, '.js' for anything else. */
  function Extension(kind: Kind): string {
    if kind == Styles then ".css" else ".js"
  }

  /** The cache file name: the group queue's fingerprint in decimal, then the extension. */
  function Filename(fingerprint: nat, kind: Kind): string {
    Decimal(fingerprint) + Extension(kind)
  }

  /** `'mph-minify-' . get_class($this->class) . '-' . $group`. */
  function BundleHandle(kind: Kind, group: Group): string {
    "mph-minify-" + ClassName(kind) + "-" + Decimal(group)
  }

  /** The fourth character from the end of a file name is '.' exactly for styles. */
  lemma {:induction false} FilenameKind(f: nat, k: Kind)
    ensures var s := Filename(f, k); |s| >= 4 && (s[|s| - 4] == '.' <==> k == Styles)
  {
    var d, s := Decimal(f), Filename(f, k);
    if k == Scripts {
      assert s[|s| - 4] == d[|d| - 1];
    }
  }

  /** A file name determines the fingerprint and the kind it was made from. */
  lemma FilenameInjective(f1: nat, k1: Kind, f2: nat, k2: Kind)
    requires Filename(f1, k1) == Filename(f2, k2)
    ensures f1 == f2 && k1 == k2
  {
    var d1, d2 := Decimal(f1), Decimal(f2);
    var e1, e2 := Extension(k1), Extension(k2);
    var s := d1 + e1;
    FilenameKind(f1, k1);
    FilenameKind(f2, k2);
    assert s[..|d1|] == d1;
    assert (d2 + e2)[..|d2|] == d2;
    DecimalInjective(f1, f2);
  }

  /** Distinct groups (or kinds) get distinct bundle handles. */
  lemma BundleHandleInjective(k1: Kind, g1: Group, k2: Kind, g2: Group)
    requires BundleHandle(k1, g1) == BundleHandle(k2, g2)
    ensures k1 == k2 && g1 == g2
  {
    var s := BundleHandle(k1, g1);
    var p1 := "mph-minify-" + ClassName(k1) + "-";
    var p2 := "mph-minify-" + ClassName(k2) + "-";
    assert s == p1 + Decimal(g1) && s == p2 + Decimal(g2);
    assert s[15] == p1[15] && s[15] == p2[15];
    assert k1 == k2;
    assert s[|p1|..] == Decimal(g1);
    DecimalInjective(g1, g2);
  }

  /** `array_filter($_srcs)`: the paths that are neither null nor empty, in order. */
  function PresentPaths(paths: seq<Option<string>>): (r: seq<string>)
    ensures forall p :: p in r <==> Some(p) in paths && Truthy(p)
    ensures |r| <= |paths|
    ensures |paths| == 1 ==> r == if paths[0].Some? && Truthy(paths[0].value) then [paths[0].value] else []
  {
    if |paths| == 0 then []
    else
      var last := paths[|paths| - 1];
      assert paths == paths[..|paths| - 1] + [last];
      PresentPaths(paths[..|paths| - 1]) + (if last.Some? && Truthy(last.value) then [last.value] else [])
  }

  /**
   * The filter works path by path: filtering a concatenation concatenates
   * the filtered parts, so order and repetitions are kept.
   */
  lemma {:induction false} PresentPathsAppend(a: seq<Option<string>>, b: seq<Option<string>>)
    ensures PresentPaths(a + b) == PresentPaths(a) + PresentPaths(b)
  {
    if |b| > 0 {
      var b', x := b[..|b| - 1], b[|b| - 1];
      assert (a + b)[..|a + b| - 1] == a + b';
      PresentPathsAppend(a, b');
    } else {
      assert a + b == a;
    }
  }

  /** The on-the-fly minify URL: `$minify_url . '/?f=' . implode(',', array_filter($_srcs))`. */
  function OnTheFlyUrl(minifyUrl: string, paths: seq<Option<string>>): string {
    minifyUrl + "/?f=" + Join(PresentPaths(paths), ',')
  }

  /**
   * The `f` parameter of the on-the-fly URL lists exactly the present paths,
   * in order, when none of them contains a comma.
   */
  lemma OnTheFlyFileList(minifyUrl: string, paths: seq<Option<string>>)
    requires |PresentPaths(paths)| > 0
    requires forall p :: p in PresentPaths(paths) ==> ',' !in p
    ensures var url := OnTheFlyUrl(minifyUrl, paths);
      && url[..|minifyUrl| + 4] == minifyUrl + "/?f="
      && Split(url[|minifyUrl| + 4..], ',') == PresentPaths(paths)
  {
    var ps := PresentPaths(paths);
    var url := OnTheFlyUrl(minifyUrl, paths);
    assert url == (minifyUrl + "/?f=") + Join(ps, ',');
    assert url[|minifyUrl| + 4..] == Join(ps, ',');
    SplitJoin(ps, ',');
  }

  /** The src the bundle gets, and the files in the cache directory afterwards. */
  datatype CacheResult = CacheResult(src: Option<string>, files: set<string>)

  /**
   * `cache_file`, the specification of `Minifier.CacheFile`: fetch the
   * on-the-fly URL; when the data is not empty, try to write it as
   * `filename` and return the cache URL (whether or not the write took, as
   * the result of `file_put_contents` is not looked at), otherwise write
   * nothing and return null. `stored(filename)` says whether the write
   * succeeds.
   */
  function CacheFileResult(files: set<string>, cacheUrl: string, filename: string, minifySrc: string,
                           fetch: string -> Option<string>, stored: string -> bool): CacheResult
  {
    var data := fetch(minifySrc);
    if data.Some? && Truthy(data.value) then
      CacheResult(Some(cacheUrl + filename), if stored(filename) then files + {filename} else files)
    else CacheResult(None, files)
  }

  /**
   * The bundle src: the cache URL when `filename` is in the cache directory;
   * otherwise the on-the-fly URL, replaced by what `cache_file` returns when
   * caching is on.
   */
  function BundleSrc(files: set<string>, caching: bool, cacheUrl: string, filename: string,
                     minifyUrl: string, paths: seq<Option<string>>,
                     fetch: string -> Option<string>, stored: string -> bool): (r: CacheResult)
    ensures files <= r.files
    ensures filename in files ==> r == CacheResult(Some(TrailingSlashIt(cacheUrl) + filename), files)
    ensures filename !in files && !caching ==> r == CacheResult(Some(OnTheFlyUrl(minifyUrl, paths)), files)
    ensures filename !in files && caching ==>
      var data := fetch(OnTheFlyUrl(minifyUrl, paths));
      if data.Some? && Truthy(data.value) then
        r.src == Some(cacheUrl + filename) && r.files == (if stored(filename) then files + {filename} else files)
      else r == CacheResult(None, files)
  {
    if filename in files then CacheResult(Some(TrailingSlashIt(cacheUrl) + filename), files)
    else
      var onTheFly := OnTheFlyUrl(minifyUrl, paths);
      if caching then CacheFileResult(files, cacheUrl, filename, onTheFly, fetch, stored)
      else CacheResult(Some(onTheFly), files)
  }

  /**
   * Once a group has a src with caching on and its file was written, asking
   * again for the same file name is a cache hit: no fetch, no write, and the
   * same src.
   */
  lemma CacheIdempotent(files: set<string>, cacheUrl: string, filename: string, minifyUrl: string,
                        paths: seq<Option<string>>, fetch: string -> Option<string>, stored: string -> bool,
                        paths': seq<Option<string>>, fetch': string -> Option<string>, stored': string -> bool)
    requires TrailingSlashIt(cacheUrl) == cacheUrl
    requires stored(filename)
    requires BundleSrc(files, true, cacheUrl, filename, minifyUrl, paths, fetch, stored).src.Some?
    ensures var r := BundleSrc(files, true, cacheUrl, filename, minifyUrl, paths, fetch, stored);
      && filename in r.files
      && BundleSrc(r.files, true, cacheUrl, filename, minifyUrl, paths', fetch', stored') == r
  {
  }

  /**
   * When the fetch gives data but the write fails, the bundle still gets the
   * cache URL although no such file exists, and the next request misses
   * again and fetches anew.
   */
  lemma FailedWriteMissesAgain(files: set<string>, cacheUrl: string, filename: string, minifyUrl: string,
                               paths: seq<Option<string>>, fetch: string -> Option<string>, stored: string -> bool)
    requires filename !in files && !stored(filename)
    requires var data := fetch(OnTheFlyUrl(minifyUrl, paths)); data.Some? && Truthy(data.value)
    ensures var r := BundleSrc(files, true, cacheUrl, filename, minifyUrl, paths, fetch, stored);
      && r.src == Some(cacheUrl + filename)
      && filename !in r.files
      && BundleSrc(r.files, true, cacheUrl, filename, minifyUrl, paths, fetch, stored) == r
  {
  }

  /** The cache directory's name under the content URL. */
  const CacheDirName: string := "mph_minify_cache/"

  /** `trailingslashit(WP_CONTENT_URL) . $cache_dirname` already ends in exactly one slash. */
  lemma CacheUrlSlashed(contentUrl: string)
    ensures TrailingSlashIt(TrailingSlashIt(contentUrl) + CacheDirName) == TrailingSlashIt(contentUrl) + CacheDirName
  {
    var t := TrailingSlashIt(contentUrl) + CacheDirName;
    var u := t[..|t| - 1];
    assert t == u + "/";
    assert u[|u| - 1] == 'e';
    assert Untrailing(u) == u;
  }

  predicate Intersects(deps: seq<Handle>, members: set<Handle>) {
    exists d :: d in deps && d in members
  }

  /**
   * The deps of a registered asset after a group is bundled: the bundle
   * handle is appended when the deps are not empty and name a member.
   */
  function Rewire(a: Asset, members: set<Handle>, bundle: Handle): Asset {
    if |a.deps| > 0 && Intersects(a.deps, members) then a.(deps := a.deps + [bundle]) else a
  }

  /**
   * The registry after the rewrite for one group: exactly the assets whose
   * deps name a member gain one trailing bundle handle; nothing else changes.
   */
  function RewireAll(registered: map<Handle, Asset>, members: set<Handle>, bundle: Handle): (r: map<Handle, Asset>)
    ensures r.Keys == registered.Keys
    ensures forall h :: h in registered ==>
      r[h].deps == if Intersects(registered[h].deps, members) then registered[h].deps + [bundle] else registered[h].deps
    ensures forall h :: h in registered ==> r[h].(deps := registered[h].deps) == registered[h]
  {
    map h | h in registered :: Rewire(registered[h], members, bundle)
  }

  /**
   * The registry after `add($bundle, $src, null, null)` and
   * `add_data($bundle, 'group', $group)`: the bundle is registered with no
   * deps and no version unless it already was, and is tagged with the group.
   */
  function WithBundle(registered: map<Handle, Asset>, bundle: Handle, src: Option<string>, group: Group): (r: map<Handle, Asset>)
    ensures r.Keys == registered.Keys + {bundle}
    ensures forall h :: h in registered && h != bundle ==> r[h] == registered[h]
    ensures bundle !in registered ==> r[bundle] == Asset(src, [], None, "", Some(group))
    ensures bundle in registered ==> r[bundle] == registered[bundle].(group := Some(group))
  {
    var added := if bundle in registered then registered else registered[bundle := Asset(src, [], None, "", None)];
    added[bundle := added[bundle].(group := Some(group))]
  }
}
