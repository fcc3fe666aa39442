/** Integer primary keys: the order in which a table's rows are listed and the id
    the storage engine gives to an inserted row. */
module Keys {

  /** A non-empty set has a member. */
  lemma HasMember(ks: set<int>)
    requires ks != {}
    ensures exists k :: k in ks
  {
    if forall k :: k !in ks {
      assert false;
    }
  }

  /** m is the least id of ks. */
  predicate IsLeast(m: int, ks: set<int>) {
    m in ks && forall k :: k in ks ==> m <= k
  }

  /** Every non-empty finite set of ids has a least element. */
  lemma {:induction false} HasLeast(ks: set<int>)
    requires ks != {}
    ensures exists m :: IsLeast(m, ks)
  {
    HasMember(ks);
    var x :| x in ks;
    if ks == {x} {
      assert IsLeast(x, ks);
    } else {
      var rest := ks - {x};
      HasLeast(rest);
      var m :| IsLeast(m, rest);
      var least := if x < m then x else m;
      forall k | k in ks ensures least <= k {
        if k != x { assert k in rest; }
      }
      assert IsLeast(least, ks);
    }
  }

  /** The least id of a non-empty set. */
  function Least(ks: set<int>): (m: int)
    requires ks != {}
    ensures m in ks
    ensures forall k :: k in ks ==> m <= k
  {
    HasLeast(ks);
    var m :| IsLeast(m, ks);
    m
  }

  /** The ids of a table in ascending order: each id exactly once. */
  function Ascending(ks: set<int>): (r: seq<int>)
    ensures |r| == |ks|
    ensures forall i :: 0 <= i < |r| ==> r[i] in ks
    ensures forall k :: k in ks ==> k in r
    ensures forall i, j :: 0 <= i < j < |r| ==> r[i] < r[j]
    decreases |ks|
  {
    if ks == {} then []
    else
      var m := Least(ks);
      [m] + Ascending(ks - {m})
  }

  /** The id an INTEGER PRIMARY KEY column gives a new row: one more than the
      largest id in use, or 1 in an empty table. */
  function NextId(ks: set<int>): (n: int)
    ensures n !in ks
    ensures forall k :: k in ks ==> k < n
    ensures ks == {} ==> n == 1
    ensures ks != {} ==> n - 1 in ks
  {
    if ks == {} then 1
    else
      var r := Ascending(ks);
      assert forall k :: k in ks ==> k <= r[|r| - 1] by {
        forall k | k in ks ensures k <= r[|r| - 1] {
          var i :| 0 <= i < |r| && r[i] == k;
          assert i == |r| - 1 || r[i] < r[|r| - 1];
        }
      }
      r[|r| - 1] + 1
  }
}
