/** A caller id nobody uses yet. */
module FreshIds {

  lemma {:induction false} FreshId(ids: set<nat>) returns (c: nat)
    ensures forall d :: d in ids ==> d < c
  {
    if ids == {} {
      c := 0;
    } else {
      var d :| d in ids;
      var e := FreshId(ids - {d});
      c := if d < e then e else d + 1;
      forall x | x in ids ensures x < c {
        assert x == d || x in ids - {d};
      }
    }
  }
}
