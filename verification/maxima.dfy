/**
 * Largest elements of finite sets, used for `max(...)` over the mapped
 * Telegram ids and over the health timestamps.
 */
module Maxima {
  /** A largest element of a finite set of reals, found from any of its elements. */
  lemma {:induction false} MaxFrom(keys: set<real>, x: real) returns (k: real)
    requires x in keys
    ensures k in keys && forall j :: j in keys ==> j <= k
    decreases |keys|
  {
    var rest := keys - {x};
    if !exists y :: y in rest {
      assert forall j :: j in keys ==> j == x;
      k := x;
    } else {
      var y :| y in rest;
      var m := MaxFrom(rest, y);
      k := if x <= m then m else x;
      assert forall j :: j in keys ==> j == x || j in rest;
    }
  }

  /** Every finite set of reals with an element has a largest element. */
  lemma MaxExists(keys: set<real>)
    requires exists w :: w in keys
    ensures exists k :: k in keys && forall j :: j in keys ==> j <= k
  {
    var x :| x in keys;
    var k := MaxFrom(keys, x);
  }

  /** The same for integers, through their embedding in the reals. */
  lemma IntMaxExists(keys: set<int>)
    requires exists w :: w in keys
    ensures exists k :: k in keys && forall j :: j in keys ==> j <= k
  {
    var x :| x in keys;
    var asReal := set i | i in keys :: i as real;
    assert x as real in asReal;
    var m := MaxFrom(asReal, x as real);
    var k :| k in keys && k as real == m;
    assert forall j :: j in keys ==> j as real in asReal;
  }
}
