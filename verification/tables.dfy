/** Filling a Python dict from a sequence of key/value pairs. */
module Tables {

  /** `for (k, v) in pairs: acc[k] = v`: later pairs overwrite earlier ones. */
  function Assign<K, V>(pairs: seq<(K, V)>, acc: map<K, V>): (filled: map<K, V>)
    ensures acc.Keys <= filled.Keys
    ensures |pairs| == 0 ==> filled == acc
    ensures |pairs| > 0 ==> pairs[|pairs| - 1].0 in filled && filled[pairs[|pairs| - 1].0] == pairs[|pairs| - 1].1
  {
    if |pairs| == 0 then acc
    else Assign(pairs[1..], acc[pairs[0].0 := pairs[0].1])
  }

  /** Every key of the pairs is present, nothing else is added, and the last pair with a key wins. */
  lemma {:induction false} AssignLastWins<K, V>(pairs: seq<(K, V)>, acc: map<K, V>)
    ensures acc.Keys <= Assign(pairs, acc).Keys
    ensures forall i :: 0 <= i < |pairs| ==> pairs[i].0 in Assign(pairs, acc)
    ensures forall k :: k in Assign(pairs, acc) ==>
              k in acc || exists i :: 0 <= i < |pairs| && pairs[i].0 == k
    ensures forall i :: 0 <= i < |pairs| && (forall j :: i < j < |pairs| ==> pairs[j].0 != pairs[i].0) ==>
              Assign(pairs, acc)[pairs[i].0] == pairs[i].1
    ensures forall k :: k in acc && (forall j :: 0 <= j < |pairs| ==> pairs[j].0 != k) ==>
              Assign(pairs, acc)[k] == acc[k]
  {
    if |pairs| > 0 {
      var rest := pairs[1..];
      var acc' := acc[pairs[0].0 := pairs[0].1];
      AssignLastWins(rest, acc');
      forall i | 0 <= i < |pairs| ensures pairs[i].0 in Assign(pairs, acc) {
        if i > 0 { assert pairs[i] == rest[i - 1]; }
      }
      forall k | k in Assign(pairs, acc)
        ensures k in acc || exists i :: 0 <= i < |pairs| && pairs[i].0 == k
      {
        if k !in acc' {
          var i :| 0 <= i < |rest| && rest[i].0 == k;
          assert pairs[i + 1].0 == k;
        } else if k !in acc {
          assert pairs[0].0 == k;
        }
      }
      forall i | 0 <= i < |pairs| && (forall j :: i < j < |pairs| ==> pairs[j].0 != pairs[i].0)
        ensures Assign(pairs, acc)[pairs[i].0] == pairs[i].1
      {
        if i > 0 {
          assert pairs[i] == rest[i - 1];
          forall j | i - 1 < j < |rest| ensures rest[j].0 != rest[i - 1].0 {
            assert rest[j] == pairs[j + 1];
          }
        } else {
          forall j | 0 <= j < |rest| ensures rest[j].0 != pairs[0].0 {
            assert rest[j] == pairs[j + 1];
          }
        }
      }
      forall k | k in acc && (forall j :: 0 <= j < |pairs| ==> pairs[j].0 != k)
        ensures Assign(pairs, acc)[k] == acc[k]
      {
        assert pairs[0].0 != k;
        forall j | 0 <= j < |rest| ensures rest[j].0 != k {
          assert rest[j] == pairs[j + 1];
        }
      }
    }
  }
}
