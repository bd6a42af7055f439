/** Python dict comprehensions over a list of key/value pairs, where a later duplicate key
    overwrites an earlier one. */
module Dicts {

  /** `{k: v for (k, v) in ps}`. */
  function FromPairs<K, V>(ps: seq<(K, V)>): map<K, V>
    decreases |ps|
  {
    if ps == [] then map[] else FromPairs(ps[..|ps| - 1])[ps[|ps| - 1].0 := ps[|ps| - 1].1]
  }

  /** The map holds exactly the keys of the pairs, each with the value of its LAST pair. */
  lemma {:induction false} FromPairsLastWins<K, V>(ps: seq<(K, V)>)
    ensures forall k :: k in FromPairs(ps) <==> exists i | 0 <= i < |ps| :: ps[i].0 == k
    ensures forall i | 0 <= i < |ps| :: (forall j | i < j < |ps| :: ps[j].0 != ps[i].0) ==> FromPairs(ps)[ps[i].0] == ps[i].1
    decreases |ps|
  {
    if ps != [] {
      var init := ps[..|ps| - 1];
      FromPairsLastWins(init);
      forall k
        ensures k in FromPairs(ps) <==> exists i | 0 <= i < |ps| :: ps[i].0 == k
      {
        if k in FromPairs(init) {
          var i :| 0 <= i < |init| && init[i].0 == k;
          assert ps[i].0 == k;
        }
        if exists i | 0 <= i < |ps| :: ps[i].0 == k {
          var i :| 0 <= i < |ps| && ps[i].0 == k;
          if i < |init| { assert init[i].0 == k; }
        }
      }
      forall i | 0 <= i < |ps| && (forall j | i < j < |ps| :: ps[j].0 != ps[i].0)
        ensures FromPairs(ps)[ps[i].0] == ps[i].1
      {
        if i < |init| {
          assert forall j | i < j < |init| :: init[j].0 != init[i].0 by {
            forall j | i < j < |init| ensures init[j].0 != init[i].0 {
              assert init[j] == ps[j];
            }
          }
          assert ps[|ps| - 1].0 != ps[i].0;
        }
      }
    }
  }
}
