/** `script_localization()`: the localization data as inline script tags. */
module Printer {
  import opened PhpArray
  import opened Queue

  /** `'<script>' . $data . '</script>'`. */
  function ScriptTag(data: string): string {
    "<script>" + data + "</script>"
  }

  /** The tags of the listed handles' data, in list order. */
  function Tags(keys: seq<string>, vals: map<string, string>): string
    requires forall k :: k in keys ==> k in vals
  {
    if |keys| == 0 then ""
    else Tags(keys[..|keys| - 1], vals) + ScriptTag(vals[keys[|keys| - 1]])
  }

  /** The echoed output, one tag per recorded handle in insertion order. */
  function ScriptLocalization(sl: Localization): string
    requires sl.Valid()
  {
    Tags(sl.keys, sl.vals)
  }

  lemma {:induction false} TagsAppend(k1: seq<string>, k2: seq<string>, vals: map<string, string>)
    requires forall k :: k in k1 + k2 ==> k in vals
    ensures Tags(k1 + k2, vals) == Tags(k1, vals) + Tags(k2, vals)
  {
    if |k2| > 0 {
      var k2', x := k2[..|k2| - 1], k2[|k2| - 1];
      assert (k1 + k2)[..|k1 + k2| - 1] == k1 + k2';
      TagsAppend(k1, k2', vals);
    } else {
      assert k1 + k2 == k1;
    }
  }

  /**
   * The tag of the `i`-th recorded handle's data stands between the tags of
   * the handles recorded before it and those recorded after it.
   */
  lemma ScriptLocalizationAt(sl: Localization, i: nat)
    requires sl.Valid() && i < |sl.keys|
    ensures ScriptLocalization(sl)
      == Tags(sl.keys[..i], sl.vals) + ScriptTag(sl.vals[sl.keys[i]]) + Tags(sl.keys[i + 1..], sl.vals)
  {
    var ks := sl.keys;
    assert ks == ks[..i] + [ks[i]] + ks[i + 1..];
    TagsAppend(ks[..i] + [ks[i]], ks[i + 1..], sl.vals);
    TagsAppend(ks[..i], [ks[i]], sl.vals);
    assert Tags([ks[i]], sl.vals) == Tags([], sl.vals) + ScriptTag(sl.vals[ks[i]]);
  }
}
