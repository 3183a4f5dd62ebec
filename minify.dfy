/** MPH_Minify: bundles one host registry's queued assets, group by group. */
module Minify {
  import opened Wrappers
  import opened PhpString
  import opened Seqs
  import opened PhpArray
  import opened Dependencies
  import opened Queue
  import opened Paths
  import opened Bundle
  import opened Printer

  /** `get_asset_path` of each handle, in order. */
  function PathsOf(registered: map<Handle, Asset>, handles: seq<Handle>,
                   baseUrl: string, contentUrl: string, homeUrl: string): seq<Option<string>>
  {
    seq(|handles|, i requires 0 <= i < |handles| => AssetPath(registered, handles[i], baseUrl, contentUrl, homeUrl))
  }

  /** Every listed group's bundle is registered, tagged with its group, and enqueued. */
  ghost predicate Bundled(registered: map<Handle, Asset>, queue: seq<Handle>, kind: Kind, gs: seq<Group>) {
    forall g :: g in gs ==>
      && BundleHandle(kind, g) in registered
      && registered[BundleHandle(kind, g)].group == Some(g)
      && BundleHandle(kind, g) in queue
  }

  /**
   * Bundling one more group keeps the earlier groups' bundles: any registry
   * that keeps every other handle's group tag and tags the new bundle.
   */
  lemma BundledStep(registered: map<Handle, Asset>, queue: seq<Handle>, kind: Kind, gs: seq<Group>, i: nat,
                    registered': map<Handle, Asset>, queue': seq<Handle>)
    requires i < |gs|
    requires Bundled(registered, queue, kind, gs[..i])
    requires forall h :: h in registered && h != BundleHandle(kind, gs[i]) ==>
      h in registered' && registered'[h].group == registered[h].group
    requires BundleHandle(kind, gs[i]) in registered' && registered'[BundleHandle(kind, gs[i])].group == Some(gs[i])
    requires forall h :: h in queue ==> h in queue'
    requires BundleHandle(kind, gs[i]) in queue'
    ensures Bundled(registered', queue', kind, gs[..i + 1])
  {
    forall g | g in gs[..i + 1]
      ensures BundleHandle(kind, g) in registered' && registered'[BundleHandle(kind, g)].group == Some(g)
      ensures BundleHandle(kind, g) in queue'
    {
      assert gs[..i + 1] == gs[..i] + [gs[i]];
      if g != gs[i] {
        assert g in gs[..i];
        if BundleHandle(kind, g) == BundleHandle(kind, gs[i]) {
          BundleHandleInjective(kind, g, kind, gs[i]);
        }
      }
    }
  }

  /**
   * Every asset registered in `registered0` whose deps named a handle of a
   * listed group has that group's bundle among its deps in `registered`.
   */
  ghost predicate Rewired(registered0: map<Handle, Asset>, registered: map<Handle, Asset>, kind: Kind,
                          aq: AssetQueue, gs: seq<Group>) {
    forall g, h :: g in gs && g in aq.vals && h in registered0 && Intersects(registered0[h].deps, aq.vals[g].vals.Keys) ==>
      h in registered && BundleHandle(kind, g) in registered[h].deps
  }

  /** Every asset of `registered0` is still registered, and its old deps are a prefix of its deps. */
  ghost predicate DepsGrow(registered0: map<Handle, Asset>, registered: map<Handle, Asset>) {
    forall h :: h in registered0 ==> h in registered && registered0[h].deps <= registered[h].deps
  }

  /**
   * Bundling one group only lengthens deps, and every asset whose deps
   * named a member now names the bundle too.
   */
  lemma BundleRewiring(registered: map<Handle, Asset>, members: set<Handle>, bundle: Handle, src: Option<string>, g: Group)
    ensures var r := WithBundle(RewireAll(registered, members, bundle), bundle, src, g);
      && DepsGrow(registered, r)
      && forall h :: h in registered && Intersects(registered[h].deps, members) ==> bundle in r[h].deps
  {
    var rewired := RewireAll(registered, members, bundle);
    var r := WithBundle(rewired, bundle, src, g);
    forall h | h in registered
      ensures h in r && r[h].deps == rewired[h].deps
    {
    }
  }

  /** Rewiring for one more group keeps the earlier groups' rewiring and adds its own. */
  lemma RewiredStep(registered0: map<Handle, Asset>, registered1: map<Handle, Asset>, registered': map<Handle, Asset>,
                    kind: Kind, aq: AssetQueue, gs: seq<Group>, i: nat)
    requires i < |gs|
    requires Rewired(registered0, registered1, kind, aq, gs[..i]) && DepsGrow(registered0, registered1)
    requires DepsGrow(registered1, registered')
    requires gs[i] in aq.vals ==> forall h :: h in registered1 && Intersects(registered1[h].deps, aq.vals[gs[i]].vals.Keys) ==>
      BundleHandle(kind, gs[i]) in registered'[h].deps
    ensures Rewired(registered0, registered', kind, aq, gs[..i + 1]) && DepsGrow(registered0, registered')
  {
    forall g, h | g in gs[..i + 1] && g in aq.vals && h in registered0 && Intersects(registered0[h].deps, aq.vals[g].vals.Keys)
      ensures h in registered' && BundleHandle(kind, g) in registered'[h].deps
    {
      var d :| d in registered0[h].deps && d in aq.vals[g].vals.Keys;
      assert registered0[h].deps <= registered1[h].deps;
      assert d in registered1[h].deps;
      assert gs[..i + 1] == gs[..i] + [gs[i]];
      if g != gs[i] {
        assert g in gs[..i];
        assert registered1[h].deps <= registered'[h].deps;
      }
    }
  }

  class Minifier {
    /** The registry minified (`$this->class`); null when the class name was neither kind. */
    const host: Host?
    const pluginUrl: string
    const minifyUrl: string
    const cacheUrl: string
    /** `home_url()`. */
    const homeUrl: string
    /** `crc32(serialize(...))` of a group queue. */
    const hash: GroupQueue -> nat
    /** `$this->cache`: whether bundles are written to the cache directory. */
    const cache: bool
    var ignoreList: seq<Handle>
    /** Handed to the host's `all_deps` only. */
    var forceList: seq<Handle>
    var assetQueue: AssetQueue
    var scriptLocalization: Localization
    /** The file names present in the cache directory. */
    var cacheFiles: set<string>
    /** Whether `script_localization` is hooked to `wp_head`. */
    var localizationHooked: bool

    ghost predicate Valid()
      reads this`assetQueue, this`scriptLocalization
    {
      WellFormed(assetQueue) && scriptLocalization.Valid()
    }

    /**
     * Picks the registry by class name and derives the minify and cache
     * URLs; with no registry the URLs stay empty.
     */
    constructor (className: string, scripts: Host?, styles: Host?, pluginUrl: string,
                 contentUrl: string, homeUrl: string, hash: GroupQueue -> nat, cacheFiles: set<string>)
      ensures Valid()
      ensures host == if className == "WP_Scripts" then scripts else if className == "WP_Styles" then styles else null
      ensures host != null ==> minifyUrl == TrailingSlashIt(pluginUrl) + "php-minify/min/"
      ensures host != null ==> cacheUrl == TrailingSlashIt(contentUrl) + CacheDirName
      ensures cache && this.homeUrl == homeUrl && this.hash == hash && this.cacheFiles == cacheFiles
      ensures ignoreList == [] && forceList == [] && !localizationHooked
      ensures assetQueue == Empty() && scriptLocalization == Empty()
    {
      var h: Host? := if className == "WP_Scripts" then scripts else if className == "WP_Styles" then styles else null;
      host := h;
      if h != null {
        this.pluginUrl := pluginUrl;
        minifyUrl := TrailingSlashIt(pluginUrl) + "php-minify/min/";
        cacheUrl := TrailingSlashIt(contentUrl) + CacheDirName;
      } else {
        this.pluginUrl, minifyUrl, cacheUrl := "", "", "";
      }
      this.homeUrl, this.hash, cache := homeUrl, hash, true;
      ignoreList, forceList := [], [];
      assetQueue, scriptLocalization := Empty(), Empty();
      this.cacheFiles, localizationHooked := cacheFiles, false;
    }

    /**
     * `minify`: with a registry, builds the queue, bundles every group in
     * queue order and hooks the localization printer when there is data.
     */
    method Minify(fetch: string -> Option<string>, stored: string -> bool)
      requires Valid() && (host != null ==> host.Valid())
      modifies this`assetQueue, this`scriptLocalization, this`cacheFiles, this`localizationHooked, host
      ensures Valid()
      ensures host == null ==>
        && assetQueue == old(assetQueue) && scriptLocalization == old(scriptLocalization)
        && cacheFiles == old(cacheFiles) && localizationHooked == old(localizationHooked)
      ensures host != null ==>
        && host.toDo == old(host.toDo) && host.groups == old(host.groups)
        && assetQueue == BuildQueue(old(assetQueue), host.toDo, ignoreList, host.groups, old(host.registered))
        && scriptLocalization == BuildLocalization(old(scriptLocalization), host.toDo, ignoreList, old(host.registered))
        && host.done == old(host.done) + Flatten(assetQueue.keys, assetQueue)
        && Bundled(host.registered, host.queue, host.kind, assetQueue.keys)
        && DepsGrow(old(host.registered), host.registered)
        && Rewired(old(host.registered), host.registered, host.kind, assetQueue, assetQueue.keys)
        && (forall h :: h in old(host.queue) ==> h in host.queue)
        && old(cacheFiles) <= cacheFiles
        && localizationHooked == (old(localizationHooked) || |scriptLocalization.keys| > 0)
    {
      if host == null {
        return;
      }
      var queue := GetAssetQueue();
      EnqueueGroups(queue.keys, fetch, stored);
      if |scriptLocalization.keys| > 0 {
        localizationHooked := true;
      }
    }

    /** The loop of `minify`: `enqueue_minified_assets` for each group, in order. */
    method EnqueueGroups(groups: seq<Group>, fetch: string -> Option<string>, stored: string -> bool)
      requires Valid() && host != null
      requires forall g :: g in groups ==> g in assetQueue.vals
      modifies this`cacheFiles, host`done, host`registered, host`queue
      ensures host.done == old(host.done) + Flatten(groups, assetQueue)
      ensures DepsGrow(old(host.registered), host.registered)
      ensures Rewired(old(host.registered), host.registered, host.kind, assetQueue, groups)
      ensures Bundled(host.registered, host.queue, host.kind, groups)
      ensures forall h :: h in old(host.queue) ==> h in host.queue
      ensures old(cacheFiles) <= cacheFiles
    {
      ghost var aq := assetQueue;
      var i := 0;
      while i < |groups|
        invariant 0 <= i <= |groups|
        invariant Valid() && assetQueue == aq
        invariant host.done == old(host.done) + Flatten(groups[..i], aq)
        invariant DepsGrow(old(host.registered), host.registered)
        invariant Rewired(old(host.registered), host.registered, host.kind, aq, groups[..i])
        invariant Bundled(host.registered, host.queue, host.kind, groups[..i])
        invariant forall h :: h in old(host.queue) ==> h in host.queue
        invariant old(cacheFiles) <= cacheFiles
      {
        var g := groups[i];
        ghost var registered1, queue1 := host.registered, host.queue;
        EnqueueMinifiedAssets(g, fetch, stored);
        FlattenStep(old(host.done), groups, i, aq);
        BundledStep(registered1, queue1, host.kind, groups, i, host.registered, host.queue);
        RewiredStep(old(host.registered), registered1, host.registered, host.kind, aq, groups, i);
        i := i + 1;
      }
      assert groups[..i] == groups;
    }

    /**
     * `get_asset_queue`: files every non-ignored `to_do` handle under its
     * group with its version, and records its localization data when that
     * is not empty.
     */
    method GetAssetQueue() returns (queue: AssetQueue)
      requires Valid() && host != null && host.Valid()
      modifies this`assetQueue, this`scriptLocalization
      ensures Valid()
      ensures assetQueue == BuildQueue(old(assetQueue), host.toDo, ignoreList, host.groups, host.registered)
      ensures scriptLocalization == BuildLocalization(old(scriptLocalization), host.toDo, ignoreList, host.registered)
      ensures queue == assetQueue
    {
      var toDo, groups, registered, ignore := host.toDo, host.groups, host.registered, ignoreList;
      ghost var aq0, sl0 := assetQueue, scriptLocalization;
      var i := 0;
      while i < |toDo|
        invariant 0 <= i <= |toDo|
        invariant assetQueue == BuildQueue(aq0, toDo[..i], ignore, groups, registered)
        invariant scriptLocalization == BuildLocalization(sl0, toDo[..i], ignore, registered)
        invariant Valid()
      {
        var h := toDo[i];
        BuildQueueStep(aq0, toDo, i, ignore, groups, registered);
        BuildLocalizationStep(sl0, toDo, i, ignore, registered);
        if h !in ignore {
          var asset := registered[h];
          FileWellFormed(assetQueue, h, groups[h], asset.ver);
          assetQueue := File(assetQueue, h, groups[h], asset.ver);
          if Truthy(asset.data) {
            scriptLocalization := scriptLocalization.Put(h, asset.data);
          }
        }
        i := i + 1;
      }
      assert toDo[..i] == toDo;
      queue := assetQueue;
    }

    /**
     * `enqueue_minified_assets`: gives group `group` one bundle. The src is
     * the cached file, the on-the-fly URL or what `cache_file` returned; the
     * group's handles are marked done, every registered asset whose deps name
     * one of them gains the bundle as a dependency, and the bundle is
     * registered with no deps and no version, tagged with the group and enqueued.
     */
    method EnqueueMinifiedAssets(group: Group, fetch: string -> Option<string>, stored: string -> bool)
      requires Valid() && host != null && group in assetQueue.vals
      modifies this`cacheFiles, host`done, host`registered, host`queue
      ensures var gq := assetQueue.vals[group];
        var bundle := BundleHandle(host.kind, group);
        var res := BundleSrc(old(cacheFiles), cache, cacheUrl, Filename(hash(gq), host.kind), minifyUrl,
                             PathsOf(old(host.registered), gq.keys, host.baseUrl, host.contentUrl, homeUrl), fetch, stored);
        && cacheFiles == res.files
        && host.done == old(host.done) + gq.keys
        && host.registered == WithBundle(RewireAll(old(host.registered), gq.vals.Keys, bundle), bundle, res.src, group)
        && host.queue == if bundle in old(host.queue) then old(host.queue) else old(host.queue) + [bundle]
      ensures old(host.registered).Keys <= host.registered.Keys
      ensures forall h :: h in old(host.registered) && h != BundleHandle(host.kind, group) ==>
        host.registered[h].group == old(host.registered)[h].group
      ensures BundleHandle(host.kind, group) in host.registered
      ensures host.registered[BundleHandle(host.kind, group)].group == Some(group)
      ensures forall h :: h in old(host.queue) ==> h in host.queue
      ensures BundleHandle(host.kind, group) in host.queue
      ensures DepsGrow(old(host.registered), host.registered)
      ensures forall h :: h in old(host.registered) && Intersects(old(host.registered)[h].deps, assetQueue.vals[group].vals.Keys) ==>
        BundleHandle(host.kind, group) in host.registered[h].deps
      ensures old(cacheFiles) <= cacheFiles
    {
      var gq := assetQueue.vals[group];
      var filename := Filename(hash(gq), host.kind);
      var src: Option<string> := Some(TrailingSlashIt(cacheUrl) + filename);
      var minifyHandle := BundleHandle(host.kind, group);

      if filename !in cacheFiles {
        var paths := AssetPaths(gq);
        src := Some(OnTheFlyUrl(minifyUrl, paths));
        if cache {
          src := CacheFile(filename, src.value, fetch, stored);
        }
      }

      MarkDone(gq);
      AddBundleDependency(gq.vals.Keys, minifyHandle);

      host.Add(minifyHandle, src, [], None);
      host.AddGroupData(minifyHandle, group);
      host.Enqueue(minifyHandle);
      BundleRewiring(old(host.registered), gq.vals.Keys, minifyHandle, src, group);
    }

    /** Appends the group's handles, in queue order, to the host's `done` list. */
    method MarkDone(gq: GroupQueue)
      requires host != null
      requires forall k :: k in gq.keys ==> k in gq.vals && gq.vals[k].handle == k
      modifies host`done
      ensures host.done == old(host.done) + gq.keys
    {
      var i := 0;
      while i < |gq.keys|
        invariant 0 <= i <= |gq.keys|
        invariant host.done == old(host.done) + gq.keys[..i]
      {
        host.done := host.done + [gq.vals[gq.keys[i]].handle];
        assert gq.keys[..i + 1] == gq.keys[..i] + [gq.keys[i]];
        i := i + 1;
      }
      assert gq.keys[..i] == gq.keys;
    }

    /** Adds `bundle` to the deps of every registered asset whose deps name a member. */
    method AddBundleDependency(members: set<Handle>, bundle: Handle)
      requires host != null
      modifies host`registered
      ensures host.registered == RewireAll(old(host.registered), members, bundle)
    {
      var rest := host.registered.Keys;
      while rest != {}
        invariant rest <= old(host.registered).Keys
        invariant host.registered.Keys == old(host.registered).Keys
        invariant forall h :: h in old(host.registered) ==>
          host.registered[h] == if h in rest then old(host.registered)[h] else Rewire(old(host.registered)[h], members, bundle)
        decreases rest
      {
        var h :| h in rest;
        var asset := host.registered[h];
        if |asset.deps| > 0 && Intersects(asset.deps, members) {
          host.registered := host.registered[h := asset.(deps := asset.deps + [bundle])];
        }
        rest := rest - {h};
      }
    }

    /**
     * `script_localization`: the output echoed, one script tag per recorded
     * handle, in the order the handles were recorded.
     */
    method PrintLocalization() returns (out: string)
      requires Valid()
      ensures out == ScriptLocalization(scriptLocalization)
    {
      out := "";
      var keys := scriptLocalization.keys;
      var i := 0;
      while i < |keys|
        invariant 0 <= i <= |keys|
        invariant out == Tags(keys[..i], scriptLocalization.vals)
      {
        assert keys[..i + 1][..i] == keys[..i];
        out := out + ScriptTag(scriptLocalization.vals[keys[i]]);
        i := i + 1;
      }
      assert keys[..i] == keys;
    }

    /** The `get_asset_path` of each queued asset, in queue order. */
    method AssetPaths(gq: GroupQueue) returns (paths: seq<Option<string>>)
      requires host != null
      requires forall k :: k in gq.keys ==> k in gq.vals && gq.vals[k].handle == k
      ensures paths == PathsOf(host.registered, gq.keys, host.baseUrl, host.contentUrl, homeUrl)
    {
      paths := [];
      var i := 0;
      while i < |gq.keys|
        invariant 0 <= i <= |gq.keys|
        invariant paths == PathsOf(host.registered, gq.keys[..i], host.baseUrl, host.contentUrl, homeUrl)
      {
        paths := paths + [AssetPath(host.registered, gq.vals[gq.keys[i]].handle, host.baseUrl, host.contentUrl, homeUrl)];
        i := i + 1;
      }
      assert gq.keys[..i] == gq.keys;
    }

    /**
     * `cache_file`: fetches the on-the-fly URL; non-empty data is written
     * as `filename` (the file appears when `stored(filename)`) and the cache
     * URL returned, otherwise null.
     */
    method CacheFile(filename: string, minifySrc: string, fetch: string -> Option<string>, stored: string -> bool)
      returns (src: Option<string>)
      modifies this`cacheFiles
      ensures var r := CacheFileResult(old(cacheFiles), cacheUrl, filename, minifySrc, fetch, stored);
        src == r.src && cacheFiles == r.files
    {
      var data := fetch(minifySrc);
      if data.Some? && Truthy(data.value) {
        if stored(filename) {
          cacheFiles := cacheFiles + {filename};
        }
        src := Some(cacheUrl + filename);
      } else {
        src := None;
      }
    }
  }
}
