/** Value types shared by every module of the model. */
module Common {

  /** Python's `None` or a present value. */
  datatype Option<T> = None | Some(value: T)

  /** A Python float as it comes out of `float(...)`: a finite value, or one of
      `inf`, `-inf`, `nan`. Floats are modelled as exact reals; the non-finite
      values only matter because every range check rejects them. */
  datatype Num = Finite(r: real) | NonFinite

  /** Python's chained comparison `lo <= x <= hi` on a float with finite bounds:
      false for `inf`, `-inf` and `nan`. */
  predicate InClosed(x: Num, lo: real, hi: real)
  {
    x.Finite? && lo <= x.r <= hi
  }

  /** `keys[i]` does not occur again after position `i`. */
  predicate IsLastOf<K(==)>(keys: seq<K>, i: int)
  {
    0 <= i < |keys| && forall j :: i < j < |keys| ==> keys[j] != keys[i]
  }

  /** The dict built by `d[keys[i]] = vals[i]` for each `i` in order, starting
      from an empty dict: exactly the keys occur, each holding the value of its
      last assignment. */
  function AssignAll<K(==,!new), V>(keys: seq<K>, vals: seq<V>): (m: map<K, V>)
    requires |keys| == |vals|
    ensures forall x :: x in m <==> x in keys
    ensures forall i :: IsLastOf(keys, i) ==> m[keys[i]] == vals[i]
  {
    if |keys| == 0 then map[]
    else
      var n := |keys| - 1;
      var init := keys[..n];
      assert keys == init + [keys[n]];
      var m := AssignAll(init, vals[..n])[keys[n] := vals[n]];
      forall i | IsLastOf(keys, i) ensures m[keys[i]] == vals[i] {
        if i < n {
          assert IsLastOf(init, i);
        }
      }
      m
  }

  /** Appending the next element of `all` to `base + all[..i]` gives
      `base + all[..i + 1]`. */
  lemma AppendNext<T>(base: seq<T>, all: seq<T>, i: nat)
    requires i < |all|
    ensures base + all[..i] + [all[i]] == base + all[..i + 1]
  {
    assert all[..i + 1] == all[..i] + [all[i]];
  }

  /** One more assignment extends the dict built from a prefix. */
  lemma AssignAllStep<K(!new), V>(keys: seq<K>, vals: seq<V>, i: nat)
    requires |keys| == |vals| && i < |keys|
    ensures AssignAll(keys[..i + 1], vals[..i + 1]) == AssignAll(keys[..i], vals[..i])[keys[i] := vals[i]]
  {
    assert keys[..i + 1][..i] == keys[..i];
    assert vals[..i + 1][..i] == vals[..i];
  }
}
