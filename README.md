# MPH_Minify, modelled in Dafny

This project models the core of the MinQueue WordPress plugin: the class
`MPH_Minify` in `class.mph-minify.php`. One instance serves one WordPress
dependency registry, either `WP_Scripts` or `WP_Styles`. When `minify()`
runs, it does the following:

- It walks the registry's resolved `to_do` list and files every handle
  that is not ignored into an asset queue. The queue maps a group to an
  ordered map from handle to `{handle, version}`.
- It records each such handle's non-empty localization data.
- For every group, it does five things:
  - It derives a cache file name from a fingerprint of the group's queue.
  - It picks the bundle's URL. On a cache hit this is the cached file.
    On a miss it builds the on-the-fly minifier URL from the assets'
    site-relative paths, and with caching on it calls `cache_file`.
  - It marks the group's handles as done.
  - It adds the bundle handle to the deps of every registered asset that
    depends on one of them.
  - It registers, tags and enqueues the bundle.
- Finally, it hooks the localization printer into the page head when there
  is data to print.

## Modules

- `Wrappers`: the `Option` type.
- `PhpString`: the PHP and WordPress string helpers the class relies on.
  These are `empty()` on strings (which is true for `"0"` too),
  `strpos(...) === 0`, `str_replace($home, '', ...)`, `implode`/`explode`
  on one character, `trailingslashit`, and the decimal rendering of
  integers.
- `Seqs` and `PhpArray`: PHP's ordered arrays. `OrdMap` is a map plus its
  key insertion order. `$a[$k] = $v` keeps an existing key in place and
  appends a new key.
- `Dependencies`: the part of the host registry the class reads and
  changes. This is `class Host`, with WordPress's `add`, `add_data` and
  `enqueue` semantics:
  - `add` leaves an already registered handle alone;
  - `add_data` tags only a registered handle;
  - `enqueue` queues a registered handle once.
- `Queue`: what `get_asset_queue` builds, as functions of `to_do`
  (`BuildQueue`, `BuildLocalization`), and what is proved about them.
- `Paths`: `get_asset_path`.
- `Bundle`: the cache file name, the bundle handle, the choice of the
  bundle src including `cache_file`, and the rewiring of deps.
- `Printer`: the output of `script_localization`.
- `Minify`: `class Minifier`, the imperative class itself. Its methods keep
  the loops of the PHP code. Each one is proved against the functions
  above.

Inputs the class takes from its environment become fields or parameters:

- `home_url()` and `WP_CONTENT_URL` are fields.
- The files in the cache directory (what `file_exists` sees) are the field
  `cacheFiles`.
- `file_get_contents` of the on-the-fly URL is the parameter `fetch`.
- Whether `file_put_contents` manages to write a cache file is the
  parameter `stored`. The code does not check it and returns the cache
  URL either way.
- `crc32(serialize(...))` of a group queue is the field `hash`.

### When `cache_file` gets no data

When the fetch yields no data, `cache_file` returns null
(`class.mph-minify.php:214-221`). Line 140 then sets `$src` to that null,
line 156 registers the bundle with it, and lines 145-146 still mark the
group's members done. Nothing falls back to the on-the-fly URL. The model
follows the code: `Bundle.BundleSrc` and `Minify.Minifier.CacheFile` return
`None` in this case.

## Model

| member | source | states |
|---|---|---|
| `Minify.Minifier.constructor` | class.mph-minify.php:30-59 | The registry is `WP_Scripts` or `WP_Styles` by class name and none otherwise. With a registry, the minify URL is `trailingslashit(plugin_url) . 'php-minify/min/'` and the cache URL is `trailingslashit(content_url) . 'mph_minify_cache/'`. Caching is on, and the queue, the localization table and both lists start empty. |
| `Minify.Minifier.Minify` | class.mph-minify.php:67-79 | With no registry, nothing changes. Otherwise the asset queue and the localization table become exactly what the `to_do` walk builds. `done` gains the handles of every group, group after group. Every group's bundle ends up registered, tagged with its group and enqueued. Every asset registered before stays registered, and its old deps are a prefix of its new deps. Every asset whose deps named a handle of group g gains g's bundle handle. Earlier queue entries stay queued, and no cache file disappears. The printer is hooked exactly when the localization table is not empty (or was hooked before). |
| `Minify.Minifier.EnqueueGroups` | class.mph-minify.php:72-73 | Bundling the groups in queue order appends their handles to `done` in that order. Every listed group's bundle is registered, tagged with the group and enqueued. Earlier handles stay registered, and their deps only grow by appending. Every asset whose deps named a member of a listed group gains that group's bundle handle. Earlier queue entries stay queued, and cache files are only added. |
| `Minify.RewiredStep` | class.mph-minify.php:148-153 | Rewiring for one more group keeps the bundle dependencies added for the earlier groups. It adds the new group's bundle to every asset whose original deps named one of its members. |
| `Minify.BundleRewiring` | class.mph-minify.php:148-157 | After one group is bundled, every earlier asset's old deps are a prefix of its new deps. Every asset whose deps named a member has the bundle among its deps. |
| `Minify.BundledStep` | class.mph-minify.php:155-158 | Bundling a further group keeps the earlier groups' bundles registered, tagged and enqueued, because distinct groups have distinct bundle handles. |
| `Minify.Minifier.GetAssetQueue` | class.mph-minify.php:87-112 | The loop over `to_do` leaves the asset queue equal to `BuildQueue` and the localization table equal to `BuildLocalization`, and keeps both well formed. It returns the queue. |
| `Queue.BuildQueueWellFormed` | class.mph-minify.php:92-103 | Filing keeps every level an ordered array. Each entry sits under its own handle, and no existing group is dropped or moved. |
| `Queue.BuildQueueGroup` | class.mph-minify.php:92-103 | Group `g` exists afterwards iff it existed before or one of its non-ignored `to_do` handles was filed. Its content is the old group with those handles put in `to_do` order. |
| `Queue.QueueEntry` | class.mph-minify.php:92-103 | A handle is in group `g` iff it was there before or it is a non-ignored `to_do` handle whose group is `g`. A filed handle carries its registered version, and other entries keep their old value. |
| `Queue.IgnoredNeverQueued` | class.mph-minify.php:94-97 | A handle on the ignore list that was not queued before is never queued. |
| `Queue.QueueOrder` | class.mph-minify.php:92-103 | Within a group, the old handles stay first and in place. The added handles follow in the order of their first appearance in `to_do`. |
| `Queue.BuildQueueAbsorbs` | class.mph-minify.php:100-103 | When every non-ignored `to_do` handle is already filed with its version, filing changes nothing. |
| `Queue.QueueIdempotent` | class.mph-minify.php:87-112 | Building the queue twice from the same `to_do` gives the same queue as building it once. |
| `Queue.LocalizationEntry` | class.mph-minify.php:105-106 | `script_localization[h]` is set iff `h` is a non-ignored `to_do` handle with non-empty data (or was set before), and then to that data. Other entries are unchanged. |
| `Queue.LocalizationOrder` | class.mph-minify.php:105-106 | Newly recorded handles follow the old ones, in order of first appearance in `to_do`. |
| `Queue.LocalizationIdempotent` | class.mph-minify.php:105-106 | Recording the localization data a second time changes nothing. |
| `Queue.FlattenStep` | class.mph-minify.php:144-146 | The handles marked done for one more group are appended after those of the earlier groups. |
| `Queue.FlattenMembers` | class.mph-minify.php:144-146 | Every handle marked done belongs to one of the bundled groups. |
| `Queue.NoIgnoredHandleBundled` | class.mph-minify.php:94-97 | An ignored handle that was not queued before is never marked done by the bundling of any group. |
| `Minify.Minifier.EnqueueMinifiedAssets` | class.mph-minify.php:122-160 | The bundle src is `BundleSrc` of the cache state, the file name and the assets' paths. `done` gains the group's handles in queue order. The registry becomes the rewired registry plus the bundle, and the bundle is enqueued once. Other handles keep their group tags, and the bundle is tagged with the group. |
| `Minify.Minifier.AssetPaths` | class.mph-minify.php:132-134 | The collected paths are `get_asset_path` of each queued handle, in queue order. |
| `Minify.Minifier.MarkDone` | class.mph-minify.php:144-146 | `done` gains the group's handles, in queue order. |
| `Minify.Minifier.AddBundleDependency` | class.mph-minify.php:148-153 | The registry becomes `RewireAll` of the old one: the bundle is appended exactly to the deps that name a member. |
| `Bundle.RewireAll` | class.mph-minify.php:148-153 | The same handles stay registered. Exactly the assets whose deps name a member gain one trailing bundle handle, and nothing else about any asset changes. |
| `Bundle.WithBundle` | class.mph-minify.php:156-157 | The bundle is registered with the src, no deps and no version unless it already was. It is tagged with its group, and every other asset is unchanged. |
| `Dependencies.Host.Add` | class.mph-minify.php:156 | `add` registers a new handle with the given src, deps and version, and leaves an existing one as it was. |
| `Dependencies.Host.AddGroupData` | class.mph-minify.php:157 | `add_data(..., 'group', g)` sets the group of a registered handle only. |
| `Dependencies.Host.Enqueue` | class.mph-minify.php:158 | `enqueue` appends a registered handle that is not queued yet, and otherwise leaves the queue as it was. |
| `Bundle.FilenameKind` | class.mph-minify.php:125 | The extension of a cache file name is `.css` exactly for styles. |
| `Bundle.FilenameInjective` | class.mph-minify.php:125 | A cache file name determines the fingerprint and the kind it was made from. |
| `Bundle.BundleHandleInjective` | class.mph-minify.php:127 | Distinct groups or kinds give distinct bundle handles. |
| `Bundle.PresentPaths` | class.mph-minify.php:137 | `array_filter` keeps exactly the paths that are neither null nor empty (nor `"0"`). A single path is kept iff it is present, and the result is never longer than the input. |
| `Bundle.PresentPathsAppend` | class.mph-minify.php:137 | Filtering works path by path: the filter of a concatenation is the concatenation of the filters. With the single-path case this fixes the order and the repetitions of the kept paths. |
| `Bundle.OnTheFlyFileList` | class.mph-minify.php:137 | The on-the-fly URL is the minify URL, then `/?f=`, then a list whose comma split gives back exactly the present paths, in order. |
| `Bundle.BundleSrc` | class.mph-minify.php:125-142 | On a cache hit, the src is the cache URL plus the file name. On a miss without caching, it is the on-the-fly URL. On a miss with caching, it is the cache URL when the fetch gives non-empty data, and null otherwise. The file appears in the cache directory only when non-empty data was fetched and the write succeeded. No file ever disappears. |
| `Bundle.CacheIdempotent` | class.mph-minify.php:129-142 | Once a bundle got a src with caching on and its file was written, the file is in the cache directory. Asking again is a hit with the same src, whatever the paths, the fetch and the write outcome. |
| `Bundle.FailedWriteMissesAgain` | class.mph-minify.php:212-218 | When the fetch gives data but the write fails, the bundle still gets the cache URL, yet no file was written. The next request misses and fetches again. |
| `Bundle.CacheUrlSlashed` | class.mph-minify.php:55-56 | The cache URL already ends in one slash, so `trailingslashit(cache_url) . $filename` (hit) and `cache_url . $filename` (written) name the same URL. |
| `Minify.Minifier.CacheFile` | class.mph-minify.php:206-222 | With non-empty fetched data, the cache URL plus the file name is returned, and the file is added to the cache directory when the write succeeds. Otherwise nothing is written and the result is null. |
| `Paths.AssetPath` | class.mph-minify.php:181-197 | The result is null iff the handle is unregistered or its full src does not start with `home_url`. Otherwise it is no longer than the full src minus `home_url`. |
| `Paths.AssetPathStrips` | class.mph-minify.php:192-195 | For a local asset, the path is what follows `home_url`, with further occurrences removed. It equals that rest exactly when `home_url` does not occur in it again. |
| `Paths.LocalAssetPath` | class.mph-minify.php:181-197 | A src `home_url . path`, where `home_url` does not occur in `path`, yields exactly `path`. |
| `PhpString.RemoveAllLength` | class.mph-minify.php:195 | `str_replace` with a non-empty needle never lengthens a string. It shortens it exactly when the needle occurs. |
| `PhpString.RemoveAllIdentity` | class.mph-minify.php:195 | A string without the needle comes back unchanged. |
| `PhpString.TrailingSlashItIdempotent` | class.mph-minify.php:53-56 | `trailingslashit` applied twice is the same as once. |
| `PhpString.DecimalInjective` | class.mph-minify.php:125-127 | Distinct numbers have distinct decimal renderings. |
| `PhpString.SplitJoin` | class.mph-minify.php:137 | `explode` undoes `implode` when no part contains the separator. |
| `PhpArray.PutAllContents` | class.mph-minify.php:100-106 | After the assignments, the array holds the old keys and the assigned ones. Assigned keys hold their new values and the others keep theirs. The old key order is a prefix of the new one. |
| `PhpArray.PutAllOrder` | class.mph-minify.php:100-106 | Keys new to the array follow the old ones, in order of first assignment. |
| `PhpArray.PutAllAbsorbs` | class.mph-minify.php:100-106 | Re-assigning keys to the values they already hold changes nothing. |
| `Seqs.SelectOrder` | class.mph-minify.php:92-97 | Skipping handles keeps the relative order of the others. |
| `Minify.Minifier.PrintLocalization` | class.mph-minify.php:168-172 | The echoed output is one `<script>` tag per recorded handle, in insertion order. |
| `Printer.ScriptLocalizationAt` | class.mph-minify.php:168-172 | The tag of the i-th recorded handle's data comes after the tags of the handles recorded before it and before those recorded after it. |

## Left out

- `all_deps` (WordPress's dependency resolution, `class.mph-minify.php:90`) is not part of this model. `to_do` and `groups` are given in the host's state. The host invariant requires only that every `to_do` handle is registered and has a group. That `to_do` is in dependency order is not modelled, and `force_list` only feeds `all_deps`.
- The constructor's `die` when the registry does not extend `WP_Dependencies` is left out. The model's registry has that type by construction.
- `cache_dir`, `is_dir`/`mkdir` and the bytes written by `file_put_contents` are left out. The cache directory is the set of file names present in it. A failing `mkdir` or write is covered only through `stored`.
- `crc32(serialize(...))` is a function parameter (`hash`). Its 32-bit width and possible collisions are not modelled. Two different group queues can therefore share a cache file, as in PHP.
- The network fetch and `file_get_contents` are a parameter function that may fail (`None`).
- `add_action('wp_head', ..., 2)` is modelled as a flag, `localizationHooked`. The hook's priority and its later invocation are not modelled. `Minify.Minifier.PrintLocalization` gives the output the hook produces.
- `delete_cache` has an empty body in the source and is not modelled.
- `debugger.php` is not part of this model.
- `in_array`'s loose comparison is modelled as string equality. PHP's `false` and `null` versions are one value (`None`), and a null src is read as the empty string.
- `Paths.AssetPath`: `strpos` with an empty `home_url` follows PHP 8 (a match at position 0). Under PHP 7, `strpos` with an empty needle returns false and so does not match.
- The script tags are built as strings and are not written to any output stream.
- PHP strings are byte strings. The model works on `string` (sequences of characters) and models no encoding.
- Minify.Minifier.Minify: does not state the src of each group's bundle over the whole run. `Minify.Minifier.EnqueueMinifiedAssets` states it per group, in terms of the cache state at that group's turn.
- Minify.Minifier.EnqueueGroups: does not state the src of each group's bundle, for the same reason.
