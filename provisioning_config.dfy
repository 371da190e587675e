/**
 * A parsed provisioning document: the `name`/value pairs of its `<entry>`
 * elements, in document order, folded into a map so that a later entry with
 * the same name replaces an earlier one.
 */
module ProvisioningConfig {
  import opened Wrappers

  /** One `<entry name="key">value</entry>`. */
  datatype Entry = Entry(key: string, value: string)

  /** The parsed configuration. */
  datatype Config = Config(entries: map<string, string>) {
    /** `get`: the mapped value, or nothing for an absent key. */
    function Get(key: string): (r: Option<string>)
      ensures r.Some? <==> key in entries
      ensures r.Some? ==> r.value == entries[key]
    {
      if key in entries then Some(entries[key]) else None
    }
  }

  /** The map filled by assigning each entry in order. */
  function ToMap(es: seq<Entry>): map<string, string>
    decreases |es|
  {
    if es == [] then map[] else ToMap(es[..|es| - 1])[es[|es| - 1].key := es[|es| - 1].value]
  }

  /** Entry `i` is the last one with its key. */
  predicate LastWithKey(es: seq<Entry>, i: int) {
    0 <= i < |es| && forall j :: i < j < |es| ==> es[j].key != es[i].key
  }

  /**
   * A key is mapped exactly when some entry has it, and it is mapped to the
   * value of the last entry that has it.
   */
  lemma {:induction false} LastEntryWins(es: seq<Entry>, k: string)
    ensures k in ToMap(es) <==> exists i :: 0 <= i < |es| && es[i].key == k
    ensures forall i :: LastWithKey(es, i) && es[i].key == k ==> ToMap(es)[k] == es[i].value
    decreases |es|
  {
    if es != [] {
      var init := es[..|es| - 1];
      var last := es[|es| - 1];
      LastEntryWins(init, k);
      if k in ToMap(es) && k != last.key {
        var i :| 0 <= i < |init| && init[i].key == k;
        assert es[i].key == k;
      }
      forall i | LastWithKey(es, i) && es[i].key == k
        ensures ToMap(es)[k] == es[i].value
      {
        if i < |es| - 1 {
          assert last.key != k;
          assert LastWithKey(init, i) && init[i] == es[i];
        }
      }
    }
  }

  /** A pair appended last is read back by `get`. */
  lemma GetLastAppended(es: seq<Entry>, e: Entry)
    ensures Config(ToMap(es + [e])).Get(e.key) == Some(e.value)
    ensures forall k :: k != e.key ==> Config(ToMap(es + [e])).Get(k) == Config(ToMap(es)).Get(k)
  {
    assert (es + [e])[..|es|] == es;
  }
}
