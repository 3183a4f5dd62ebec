/**
 * What `get_asset_queue` builds: the asset queue (group => ordered
 * handle => {handle, version}) and the script localization table
 * (handle => `extra['data']`), as functions of the host's `to_do`.
 */
module Queue {
  import opened Wrappers
  import opened PhpString
  import opened Seqs
  import opened PhpArray
  import opened Dependencies

  /** `array('handle' => $handle, 'version' => $ver)`. */
  datatype Entry = Entry(handle: Handle, version: Version)

  type GroupQueue = OrdMap<Handle, Entry>
  type AssetQueue = OrdMap<Group, GroupQueue>
  type Localization = OrdMap<Handle, string>

  /** Every level is a proper ordered array, and each entry is filed under its own handle. */
  ghost predicate WellFormed(aq: AssetQueue) {
    && aq.Valid()
    && (forall g :: g in aq.vals ==> aq.vals[g].Valid())
    && (forall g, h :: g in aq.vals && h in aq.vals[g].vals ==> aq.vals[g].vals[h].handle == h)
  }

  /** Every handle of `to_do` is registered and has a group. */
  ghost predicate Resolved(toDo: seq<Handle>, groups: map<Handle, Group>, registered: map<Handle, Asset>) {
    forall h :: h in toDo ==> h in registered && h in groups
  }

  ghost predicate InQueue(aq: AssetQueue, g: Group, h: Handle) {
    g in aq.vals && h in aq.vals[g].vals
  }

  /** `$this->asset_queue[$g]`, empty when the group has no entry yet. */
  function GroupOf(aq: AssetQueue, g: Group): GroupQueue {
    if g in aq.vals then aq.vals[g] else Empty()
  }

  /** `$this->asset_queue[$g][$h] = array('handle' => $h, 'version' => $ver)`. */
  function File(aq: AssetQueue, h: Handle, g: Group, ver: Version): AssetQueue {
    aq.Put(g, GroupOf(aq, g).Put(h, Entry(h, ver)))
  }

  /** The asset queue after the `foreach` over `to_do`, starting from `aq`. */
  function BuildQueue(aq: AssetQueue, toDo: seq<Handle>, ignore: seq<Handle>,
                      groups: map<Handle, Group>, registered: map<Handle, Asset>): AssetQueue
    requires Resolved(toDo, groups, registered)
  {
    if |toDo| == 0 then aq
    else
      var prev := BuildQueue(aq, toDo[..|toDo| - 1], ignore, groups, registered);
      var h := toDo[|toDo| - 1];
      if h in ignore then prev else File(prev, h, groups[h], registered[h].ver)
  }

  /** Filing keeps the queue well formed. */
  lemma FileWellFormed(aq: AssetQueue, h: Handle, g: Group, ver: Version)
    requires WellFormed(aq)
    ensures WellFormed(File(aq, h, g, ver))
  {
  }

  /** One more `to_do` handle: skipped when ignored, filed otherwise. */
  lemma BuildQueueStep(aq: AssetQueue, toDo: seq<Handle>, i: nat, ignore: seq<Handle>,
                       groups: map<Handle, Group>, registered: map<Handle, Asset>)
    requires Resolved(toDo, groups, registered) && i < |toDo|
    ensures Resolved(toDo[..i], groups, registered) && Resolved(toDo[..i + 1], groups, registered)
    ensures BuildQueue(aq, toDo[..i + 1], ignore, groups, registered)
      == if toDo[i] in ignore then BuildQueue(aq, toDo[..i], ignore, groups, registered)
         else File(BuildQueue(aq, toDo[..i], ignore, groups, registered), toDo[i], groups[toDo[i]], registered[toDo[i]].ver)
  {
    assert toDo[..i + 1][..i] == toDo[..i];
  }

  /** The non-ignored handles of group `g`. */
  function Members(ignore: seq<Handle>, groups: map<Handle, Group>, g: Group): set<Handle> {
    set h | h in groups && groups[h] == g && h !in ignore
  }

  /** The queue entry of every registered handle. */
  function Entries(registered: map<Handle, Asset>): map<Handle, Entry> {
    map h | h in registered :: Entry(h, registered[h].ver)
  }

  /** The non-ignored handles whose `extra['data']` is not empty. */
  function Localizable(registered: map<Handle, Asset>, ignore: seq<Handle>): set<Handle> {
    set h | h in registered && h !in ignore && Truthy(registered[h].data)
  }

  function Payloads(registered: map<Handle, Asset>): map<Handle, string> {
    map h | h in registered :: registered[h].data
  }

  /** The localization table after the `foreach` over `to_do`, starting from `sl`. */
  function BuildLocalization(sl: Localization, toDo: seq<Handle>, ignore: seq<Handle>,
                             registered: map<Handle, Asset>): Localization
    requires forall h :: h in toDo ==> h in registered
  {
    PutAll(sl, Select(toDo, Localizable(registered, ignore)), Payloads(registered))
  }

  /** Building keeps the queue well formed and never reorders or drops its groups. */
  lemma {:induction false} BuildQueueWellFormed(aq: AssetQueue, toDo: seq<Handle>, ignore: seq<Handle>,
                                                groups: map<Handle, Group>, registered: map<Handle, Asset>)
    requires Resolved(toDo, groups, registered)
    requires WellFormed(aq)
    ensures WellFormed(BuildQueue(aq, toDo, ignore, groups, registered))
    ensures aq.keys <= BuildQueue(aq, toDo, ignore, groups, registered).keys
  {
    if |toDo| > 0 {
      var t', x := toDo[..|toDo| - 1], toDo[|toDo| - 1];
      BuildQueueWellFormed(aq, t', ignore, groups, registered);
    }
  }

  /** One more `to_do` handle: its data is recorded when it is not ignored and not empty. */
  lemma BuildLocalizationStep(sl: Localization, toDo: seq<Handle>, i: nat, ignore: seq<Handle>,
                              registered: map<Handle, Asset>)
    requires (forall h :: h in toDo ==> h in registered) && i < |toDo|
    ensures forall h :: h in toDo[..i + 1] ==> h in registered
    ensures BuildLocalization(sl, toDo[..i + 1], ignore, registered)
      == if toDo[i] !in ignore && Truthy(registered[toDo[i]].data)
         then BuildLocalization(sl, toDo[..i], ignore, registered).Put(toDo[i], registered[toDo[i]].data)
         else BuildLocalization(sl, toDo[..i], ignore, registered)
  {
    var keep := Localizable(registered, ignore);
    var sel := Select(toDo[..i], keep);
    assert toDo[..i + 1][..i] == toDo[..i];
    if toDo[i] in keep {
      assert Select(toDo[..i + 1], keep) == sel + [toDo[i]];
      assert (sel + [toDo[i]])[..|sel|] == sel;
    } else {
      assert Select(toDo[..i + 1], keep) == sel;
    }
  }

  /**
   * Group `g` of the built queue is the old group with the group's
   * non-ignored `to_do` handles put in `to_do` order; it exists afterwards
   * exactly when it did before or one of its handles was queued.
   */
  lemma {:induction false} BuildQueueGroup(aq: AssetQueue, toDo: seq<Handle>, ignore: seq<Handle>,
                                           groups: map<Handle, Group>, registered: map<Handle, Asset>, g: Group)
    requires Resolved(toDo, groups, registered)
    ensures g in BuildQueue(aq, toDo, ignore, groups, registered).vals <==>
      g in aq.vals || |Select(toDo, Members(ignore, groups, g))| > 0
    ensures g in BuildQueue(aq, toDo, ignore, groups, registered).vals ==>
      BuildQueue(aq, toDo, ignore, groups, registered).vals[g]
        == PutAll(GroupOf(aq, g), Select(toDo, Members(ignore, groups, g)), Entries(registered))
  {
    if |toDo| > 0 {
      var t', x := toDo[..|toDo| - 1], toDo[|toDo| - 1];
      BuildQueueGroup(aq, t', ignore, groups, registered, g);
      var prev := BuildQueue(aq, t', ignore, groups, registered);
      var sel' := Select(t', Members(ignore, groups, g));
      assert toDo[..|toDo| - 1] == t';
      if x in Members(ignore, groups, g) {
        assert Select(toDo, Members(ignore, groups, g)) == sel' + [x];
        StepInGroup(aq, prev, sel', x, groups[x], registered[x].ver, Entries(registered), g);
      } else {
        assert Select(toDo, Members(ignore, groups, g)) == sel';
        var r := BuildQueue(aq, toDo, ignore, groups, registered);
        if x !in ignore {
          assert groups[x] != g;
          assert r == File(prev, x, groups[x], registered[x].ver);
        }
        assert g in r.vals <==> g in prev.vals;
        assert g in r.vals ==> r.vals[g] == prev.vals[g];
      }
    }
  }

  /** One filing step into group `g`, in terms of PutAll. */
  lemma {:induction false} StepInGroup(aq: AssetQueue, prev: AssetQueue, sel': seq<Handle>, x: Handle, gx: Group, ver: Version,
                    src: map<Handle, Entry>, g: Group)
    requires forall h :: h in sel' ==> h in src
    requires x in src && src[x] == Entry(x, ver) && gx == g
    requires g in prev.vals <==> g in aq.vals || |sel'| > 0
    requires g in prev.vals ==> prev.vals[g] == PutAll(GroupOf(aq, g), sel', src)
    ensures g in File(prev, x, gx, ver).vals
    ensures File(prev, x, gx, ver).vals[g] == PutAll(GroupOf(aq, g), sel' + [x], src)
  {
    var sel := sel' + [x];
    assert sel[..|sel| - 1] == sel';
    if g !in prev.vals {
      assert sel' == [];
    }
  }

  /**
   * A handle is in group `g` of the built queue exactly when it was there
   * before or it is a non-ignored `to_do` handle of group `g`; queued handles
   * carry their registered version, other entries keep their old value.
   */
  lemma {:induction false} QueueEntry(aq: AssetQueue, toDo: seq<Handle>, ignore: seq<Handle>,
                   groups: map<Handle, Group>, registered: map<Handle, Asset>, g: Group, h: Handle)
    requires Resolved(toDo, groups, registered)
    requires WellFormed(aq)
    ensures InQueue(BuildQueue(aq, toDo, ignore, groups, registered), g, h)
      <==> InQueue(aq, g, h) || (h in toDo && h !in ignore && groups[h] == g)
    ensures h in toDo && h !in ignore && groups[h] == g ==>
      BuildQueue(aq, toDo, ignore, groups, registered).vals[g].vals[h] == Entry(h, registered[h].ver)
    ensures InQueue(aq, g, h) && !(h in toDo && h !in ignore && groups[h] == g) ==>
      BuildQueue(aq, toDo, ignore, groups, registered).vals[g].vals[h] == aq.vals[g].vals[h]
  {
    BuildQueueGroup(aq, toDo, ignore, groups, registered, g);
    PutAllContents(GroupOf(aq, g), Select(toDo, Members(ignore, groups, g)), Entries(registered));
    if h in toDo && h !in ignore && groups[h] == g {
      assert h in toDo && h in Members(ignore, groups, g);
    }
  }

  /** An ignored handle not already queued is never added to the queue. */
  lemma {:induction false} IgnoredNeverQueued(aq: AssetQueue, toDo: seq<Handle>, ignore: seq<Handle>,
                           groups: map<Handle, Group>, registered: map<Handle, Asset>, g: Group, h: Handle)
    requires Resolved(toDo, groups, registered)
    requires WellFormed(aq)
    requires h in ignore && !InQueue(aq, g, h)
    ensures !InQueue(BuildQueue(aq, toDo, ignore, groups, registered), g, h)
  {
    QueueEntry(aq, toDo, ignore, groups, registered, g, h);
  }

  /**
   * Within a group, the old handles stay first and in place; the handles
   * added follow in the order of their first appearance in `to_do`.
   */
  lemma QueueOrder(aq: AssetQueue, toDo: seq<Handle>, ignore: seq<Handle>,
                   groups: map<Handle, Group>, registered: map<Handle, Asset>, g: Group)
    requires Resolved(toDo, groups, registered)
    requires WellFormed(aq)
    requires g in BuildQueue(aq, toDo, ignore, groups, registered).vals
    ensures var ks := BuildQueue(aq, toDo, ignore, groups, registered).vals[g].keys;
      && GroupOf(aq, g).keys <= ks
      && forall i, j :: 0 <= i < j < |ks| && ks[i] !in GroupOf(aq, g).vals ==>
           ks[j] !in GroupOf(aq, g).vals && FirstIndex(toDo, ks[i]) < FirstIndex(toDo, ks[j])
  {
    BuildQueueGroup(aq, toDo, ignore, groups, registered, g);
    var old_ := GroupOf(aq, g);
    var sel := Select(toDo, Members(ignore, groups, g));
    PutAllContents(old_, sel, Entries(registered));
    PutAllOrder(old_, sel, Entries(registered));
    var ks := PutAll(old_, sel, Entries(registered)).keys;
    forall i, j | 0 <= i < j < |ks| && ks[i] !in old_.vals
      ensures FirstIndex(toDo, ks[i]) < FirstIndex(toDo, ks[j])
    {
      SelectOrder(toDo, Members(ignore, groups, g), ks[i], ks[j]);
    }
  }

  /** Filing handles that are already filed with their versions changes nothing. */
  lemma {:induction false} BuildQueueAbsorbs(aq: AssetQueue, toDo: seq<Handle>, ignore: seq<Handle>,
                                             groups: map<Handle, Group>, registered: map<Handle, Asset>)
    requires Resolved(toDo, groups, registered)
    requires forall h :: h in toDo && h !in ignore ==>
      InQueue(aq, groups[h], h) && aq.vals[groups[h]].vals[h] == Entry(h, registered[h].ver)
    ensures BuildQueue(aq, toDo, ignore, groups, registered) == aq
  {
    if |toDo| > 0 {
      var t', x := toDo[..|toDo| - 1], toDo[|toDo| - 1];
      BuildQueueAbsorbs(aq, t', ignore, groups, registered);
      if x !in ignore {
        var gq := aq.vals[groups[x]];
        assert gq.vals[x := Entry(x, registered[x].ver)] == gq.vals;
        assert aq.vals[groups[x] := gq] == aq.vals;
      }
    }
  }

  /** Building the queue a second time from the same `to_do` yields the same queue. */
  lemma QueueIdempotent(aq: AssetQueue, toDo: seq<Handle>, ignore: seq<Handle>,
                        groups: map<Handle, Group>, registered: map<Handle, Asset>)
    requires Resolved(toDo, groups, registered)
    requires WellFormed(aq)
    ensures var r := BuildQueue(aq, toDo, ignore, groups, registered);
      BuildQueue(r, toDo, ignore, groups, registered) == r
  {
    var r := BuildQueue(aq, toDo, ignore, groups, registered);
    forall h | h in toDo && h !in ignore
      ensures InQueue(r, groups[h], h) && r.vals[groups[h]].vals[h] == Entry(h, registered[h].ver)
    {
      QueueEntry(aq, toDo, ignore, groups, registered, groups[h], h);
    }
    BuildQueueAbsorbs(r, toDo, ignore, groups, registered);
  }

  /**
   * `script_localization[h]` is set exactly for the non-ignored `to_do`
   * handles whose data is not empty, to that data; other entries are kept.
   */
  lemma LocalizationEntry(sl: Localization, toDo: seq<Handle>, ignore: seq<Handle>,
                          registered: map<Handle, Asset>, h: Handle)
    requires forall k :: k in toDo ==> k in registered
    requires sl.Valid()
    ensures BuildLocalization(sl, toDo, ignore, registered).Valid()
    ensures h in BuildLocalization(sl, toDo, ignore, registered).vals
      <==> h in sl.vals || (h in toDo && h !in ignore && Truthy(registered[h].data))
    ensures h in toDo && h !in ignore && Truthy(registered[h].data) ==>
      BuildLocalization(sl, toDo, ignore, registered).vals[h] == registered[h].data
    ensures h in sl.vals && !(h in toDo && h !in ignore && Truthy(registered[h].data)) ==>
      BuildLocalization(sl, toDo, ignore, registered).vals[h] == sl.vals[h]
  {
    PutAllContents(sl, Select(toDo, Localizable(registered, ignore)), Payloads(registered));
  }

  /** Newly recorded handles follow the old ones in order of first appearance in `to_do`. */
  lemma LocalizationOrder(sl: Localization, toDo: seq<Handle>, ignore: seq<Handle>,
                          registered: map<Handle, Asset>)
    requires forall k :: k in toDo ==> k in registered
    requires sl.Valid()
    ensures var ks := BuildLocalization(sl, toDo, ignore, registered).keys;
      && sl.keys <= ks
      && forall i, j :: 0 <= i < j < |ks| && ks[i] !in sl.vals ==>
           ks[j] !in sl.vals && FirstIndex(toDo, ks[i]) < FirstIndex(toDo, ks[j])
  {
    var sel := Select(toDo, Localizable(registered, ignore));
    PutAllContents(sl, sel, Payloads(registered));
    PutAllOrder(sl, sel, Payloads(registered));
    var ks := PutAll(sl, sel, Payloads(registered)).keys;
    forall i, j | 0 <= i < j < |ks| && ks[i] !in sl.vals
      ensures FirstIndex(toDo, ks[i]) < FirstIndex(toDo, ks[j])
    {
      SelectOrder(toDo, Localizable(registered, ignore), ks[i], ks[j]);
    }
  }

  /** Recording the localization data a second time changes nothing. */
  lemma LocalizationIdempotent(sl: Localization, toDo: seq<Handle>, ignore: seq<Handle>,
                               registered: map<Handle, Asset>)
    requires forall k :: k in toDo ==> k in registered
    requires sl.Valid()
    ensures var r := BuildLocalization(sl, toDo, ignore, registered);
      BuildLocalization(r, toDo, ignore, registered) == r
  {
    var sel := Select(toDo, Localizable(registered, ignore));
    PutAllContents(sl, sel, Payloads(registered));
    PutAllAbsorbs(BuildLocalization(sl, toDo, ignore, registered), sel, Payloads(registered));
  }

  /** The handles of one group, in queue order (none for a group not in the queue). */
  function GroupHandles(aq: AssetQueue, g: Group): seq<Handle> {
    if g in aq.vals then aq.vals[g].keys else []
  }

  /** The handles of the listed groups, group after group, each in queue order. */
  function Flatten(gs: seq<Group>, aq: AssetQueue): seq<Handle> {
    if |gs| == 0 then []
    else Flatten(gs[..|gs| - 1], aq) + GroupHandles(aq, gs[|gs| - 1])
  }

  /**
   * Flattening one more group of a list appends that group's handles, also
   * after a common prefix `done` (the list the handles are appended to).
   */
  lemma FlattenStep(done: seq<Handle>, gs: seq<Group>, i: nat, aq: AssetQueue)
    requires i < |gs|
    ensures done + Flatten(gs[..i + 1], aq) == done + Flatten(gs[..i], aq) + GroupHandles(aq, gs[i])
  {
    assert gs[..i + 1][..i] == gs[..i];
    assert done + (Flatten(gs[..i], aq) + GroupHandles(aq, gs[i])) == done + Flatten(gs[..i], aq) + GroupHandles(aq, gs[i]);
  }

  lemma {:induction false} FlattenMembers(gs: seq<Group>, aq: AssetQueue, h: Handle)
    requires WellFormed(aq)
    requires h in Flatten(gs, aq)
    ensures exists g :: g in gs && InQueue(aq, g, h)
  {
    var gs', g := gs[..|gs| - 1], gs[|gs| - 1];
    if h in GroupHandles(aq, g) {
      assert g in gs && InQueue(aq, g, h);
    } else {
      FlattenMembers(gs', aq, h);
      var g' :| g' in gs' && InQueue(aq, g', h);
      assert g' in gs;
    }
  }

  /** An ignored handle not queued before is in none of the built queue's groups. */
  lemma NoIgnoredHandleBundled(aq: AssetQueue, toDo: seq<Handle>, ignore: seq<Handle>,
                               groups: map<Handle, Group>, registered: map<Handle, Asset>, h: Handle)
    requires Resolved(toDo, groups, registered)
    requires WellFormed(aq)
    requires h in ignore && forall g :: !InQueue(aq, g, h)
    ensures WellFormed(BuildQueue(aq, toDo, ignore, groups, registered))
    ensures var r := BuildQueue(aq, toDo, ignore, groups, registered);
      h !in Flatten(r.keys, r)
  {
    var r := BuildQueue(aq, toDo, ignore, groups, registered);
    BuildQueueWellFormed(aq, toDo, ignore, groups, registered);
    if h in Flatten(r.keys, r) {
      FlattenMembers(r.keys, r, h);
      var g :| g in r.keys && InQueue(r, g, h);
      IgnoredNeverQueued(aq, toDo, ignore, groups, registered, g, h);
    }
  }
}
