/**
 * The host's dependency registry (WordPress's WP_Scripts / WP_Styles, both
 * WP_Dependencies), reduced to the state the minifier reads and changes.
 */
module Dependencies {
  import opened Wrappers

  type Handle = string

  /** Render position of an asset (0 = head, 1 = footer in WordPress). */
  type Group = nat

  /** `ver`: a version string, or none (PHP false / null). */
  type Version = Option<string>

  /** Which WP_Dependencies subclass the registry is. */
  datatype Kind = Scripts | Styles

  /** `get_class()` of the registry. */
  function ClassName(kind: Kind): string {
    match kind
    case Scripts => "WP_Scripts"
    case Styles => "WP_Styles"
  }

  /**
   * A registered asset (`_WP_Dependency`): its src (none for PHP null), its
   * deps, its ver, `extra['data']` ("" when unset) and `extra['group']`.
   */
  datatype Asset = Asset(src: Option<string>, deps: seq<Handle>, ver: Version, data: string, group: Option<Group>)

  class Host {
    const kind: Kind
    /** `base_url` and `content_url` of the registry. */
    const baseUrl: string
    const contentUrl: string
    var registered: map<Handle, Asset>
    var queue: seq<Handle>
    /** The traversal `all_deps` produced: dependencies before dependents. */
    var toDo: seq<Handle>
    var done: seq<Handle>
    var groups: map<Handle, Group>

    /** `all_deps` puts only registered handles in `to_do`, each with a group. */
    ghost predicate Valid()
      reads this
    {
      forall h :: h in toDo ==> h in registered && h in groups
    }

    constructor (kind: Kind, baseUrl: string, contentUrl: string, registered: map<Handle, Asset>,
                 queue: seq<Handle>, toDo: seq<Handle>, groups: map<Handle, Group>)
      ensures this.kind == kind && this.baseUrl == baseUrl && this.contentUrl == contentUrl
      ensures this.registered == registered && this.queue == queue && this.toDo == toDo
      ensures this.groups == groups && done == []
    {
      this.kind, this.baseUrl, this.contentUrl := kind, baseUrl, contentUrl;
      this.registered, this.queue, this.toDo, this.groups := registered, queue, toDo, groups;
      done := [];
    }

    /** `add($handle, $src, $deps, $ver)`: a handle already registered is left as it is. */
    method Add(h: Handle, src: Option<string>, deps: seq<Handle>, ver: Version)
      modifies this`registered
      ensures registered == if h in old(registered) then old(registered)
                            else old(registered)[h := Asset(src, deps, ver, "", None)]
    {
      if h !in registered {
        registered := registered[h := Asset(src, deps, ver, "", None)];
      }
    }

    /** `add_data($handle, 'group', $group)`: only a registered handle is tagged. */
    method AddGroupData(h: Handle, group: Group)
      modifies this`registered
      ensures registered == if h in old(registered) then old(registered)[h := old(registered)[h].(group := Some(group))]
                            else old(registered)
    {
      if h in registered {
        registered := registered[h := registered[h].(group := Some(group))];
      }
    }

    /** `enqueue($handle)`: a registered handle joins the queue once. */
    method Enqueue(h: Handle)
      modifies this`queue
      ensures queue == if h in old(queue) || h !in registered then old(queue) else old(queue) + [h]
    {
      if h !in queue && h in registered {
        queue := queue + [h];
      }
    }
  }
}
