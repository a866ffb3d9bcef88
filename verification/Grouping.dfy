/** Grouping the positions of a list by key, as the Python code does with `defaultdict(list)`. */
module Grouping {
  import opened Common

  /** The positions of a key. */
  function Where(keys: seq<Option<string>>, key: string): (r: seq<nat>)
    ensures forall i | i in r :: i < |keys| && keys[i] == Some(key)
    ensures forall i | 0 <= i < |keys| && keys[i] == Some(key) :: i in r
  {
    if keys == [] then []
    else
      var before := Where(keys[..|keys| - 1], key);
      if keys[|keys| - 1] == Some(key) then before + [|keys| - 1] else before
  }

  /** A single position: no other one has the key. */
  lemma {:induction false} WhereOnce(keys: seq<Option<string>>, key: string, i: nat)
    requires i < |keys| && keys[i] == Some(key)
    ensures |Where(keys, key)| == 1 <==> forall j | 0 <= j < |keys| && keys[j] == Some(key) :: j == i
    ensures |Where(keys, key)| == 1 ==> Where(keys, key) == [i]
  {
    var last := |keys| - 1;
    var before := keys[..last];
    if i < last {
      WhereOnce(before, key, i);
      assert forall j | 0 <= j < last :: before[j] == keys[j];
      assert i in Where(before, key);
    } else if Where(before, key) != [] {
      var j := Where(before, key)[0];
      assert j in Where(before, key) && before[j] == keys[j];
    } else {
      forall j | 0 <= j < last ensures keys[j] != Some(key) {
        assert before[j] == keys[j];
      }
    }
  }

  /** The positions of each key, in order; keys without a position are absent. */
  ghost predicate Groups(groups: map<string, seq<nat>>, keys: seq<Option<string>>) {
    forall k :: (k in groups <==> Where(keys, k) != []) && (k in groups ==> groups[k] == Where(keys, k))
  }

  method Group(keys: seq<Option<string>>) returns (groups: map<string, seq<nat>>)
    ensures Groups(groups, keys)
  {
    groups := map[];
    for i := 0 to |keys|
      invariant Groups(groups, keys[..i])
    {
      assert keys[..i + 1][..i] == keys[..i];
      if keys[i].Some? {
        var k := keys[i].value;
        groups := groups[k := (if k in groups then groups[k] else []) + [i]];
      }
    }
    assert keys[..|keys|] == keys;
  }

  function Found(groups: map<string, seq<nat>>, key: string): seq<nat> {
    if key in groups then groups[key] else []
  }

  lemma FoundIsWhere(groups: map<string, seq<nat>>, keys: seq<Option<string>>, key: string)
    requires Groups(groups, keys)
    ensures Found(groups, key) == Where(keys, key)
  {
    hide Where;
  }
}
