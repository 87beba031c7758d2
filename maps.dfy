/**
 * The two ways the interpreter fills a map in a loop over parallel sequences of keys and values:
 * by assignment (`m[k] = v`, the last write to a key wins) and by `emplace` (the first insertion
 * of a key wins, later ones are ignored).
 */
module Maps {

  /** The map a loop `for i: m[keys[i]] = vals[i]` builds from an empty map. */
  function Assigned<K, V>(keys: seq<K>, vals: seq<V>): map<K, V>
    requires |keys| == |vals|
    decreases |keys|
  {
    if |keys| == 0 then map[]
    else Assigned(keys[..|keys| - 1], vals[..|vals| - 1])[keys[|keys| - 1] := vals[|vals| - 1]]
  }

  /** The map a loop `for i: m.emplace(keys[i], vals[i])` builds from an empty map. */
  function Emplaced<K, V>(keys: seq<K>, vals: seq<V>): map<K, V>
    requires |keys| == |vals|
    decreases |keys|
  {
    if |keys| == 0 then map[]
    else
      var m := Emplaced(keys[..|keys| - 1], vals[..|vals| - 1]);
      if keys[|keys| - 1] in m then m else m[keys[|keys| - 1] := vals[|vals| - 1]]
  }

  /** Either loop holds exactly the keys it was given. */
  lemma {:induction false} AssignedKeys<K, V>(keys: seq<K>, vals: seq<V>)
    requires |keys| == |vals|
    ensures forall k :: k in Assigned(keys, vals) <==> k in keys
  {
    if |keys| > 0 {
      var n := |keys| - 1;
      AssignedKeys(keys[..n], vals[..n]);
      assert keys == keys[..n] + [keys[n]];
    }
  }

  lemma {:induction false} EmplacedKeys<K, V>(keys: seq<K>, vals: seq<V>)
    requires |keys| == |vals|
    ensures forall k :: k in Emplaced(keys, vals) <==> k in keys
  {
    if |keys| > 0 {
      var n := |keys| - 1;
      EmplacedKeys(keys[..n], vals[..n]);
      assert keys == keys[..n] + [keys[n]];
    }
  }

  /** Under assignment a key holds the value of its last occurrence. */
  lemma {:induction false} AssignedAt<K, V>(keys: seq<K>, vals: seq<V>, i: nat)
    requires |keys| == |vals| && i < |keys|
    requires forall j :: i < j < |keys| ==> keys[j] != keys[i]
    ensures keys[i] in Assigned(keys, vals) && Assigned(keys, vals)[keys[i]] == vals[i]
  {
    AssignedKeys(keys, vals);
    var n := |keys| - 1;
    if i < n {
      AssignedAt(keys[..n], vals[..n], i);
    }
  }

  /** Under assignment every value held is the value of some occurrence of its key. */
  lemma {:induction false} AssignedFrom<K, V>(keys: seq<K>, vals: seq<V>, k: K)
    requires |keys| == |vals| && k in keys
    ensures k in Assigned(keys, vals)
    ensures exists i :: 0 <= i < |keys| && keys[i] == k && Assigned(keys, vals)[k] == vals[i]
  {
    AssignedKeys(keys, vals);
    var n := |keys| - 1;
    if keys[n] != k {
      assert k in keys[..n] by {
        var j :| 0 <= j < |keys| && keys[j] == k;
        assert j < n && keys[..n][j] == k;
      }
      AssignedFrom(keys[..n], vals[..n], k);
      var i :| 0 <= i < n && keys[..n][i] == k && Assigned(keys[..n], vals[..n])[k] == vals[..n][i];
      assert keys[i] == k && Assigned(keys, vals)[k] == vals[i];
    }
  }

  /** Under emplace a key holds the value of its first occurrence. */
  lemma {:induction false} EmplacedAt<K, V>(keys: seq<K>, vals: seq<V>, i: nat)
    requires |keys| == |vals| && i < |keys|
    requires forall j :: 0 <= j < i ==> keys[j] != keys[i]
    ensures keys[i] in Emplaced(keys, vals) && Emplaced(keys, vals)[keys[i]] == vals[i]
  {
    var n := |keys| - 1;
    if i < n {
      EmplacedAt(keys[..n], vals[..n], i);
    } else {
      EmplacedKeys(keys[..n], vals[..n]);
      assert keys[i] !in keys[..n];
    }
  }

  /** Extending the key and value sequences by one pair is one more loop step. */
  lemma AssignedSnoc<K, V>(keys: seq<K>, vals: seq<V>, k: K, v: V)
    requires |keys| == |vals|
    ensures Assigned(keys + [k], vals + [v]) == Assigned(keys, vals)[k := v]
  {
    assert (keys + [k])[..|keys|] == keys;
    assert (vals + [v])[..|vals|] == vals;
  }

  lemma EmplacedSnoc<K, V>(keys: seq<K>, vals: seq<V>, k: K, v: V)
    requires |keys| == |vals|
    ensures Emplaced(keys + [k], vals + [v])
         == (var m := Emplaced(keys, vals); if k in m then m else m[k := v])
  {
    assert (keys + [k])[..|keys|] == keys;
    assert (vals + [v])[..|vals|] == vals;
  }
}
