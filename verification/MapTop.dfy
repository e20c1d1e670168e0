/** The greatest key of a finite map. */
module MapTop {

  predicate IsTop<V>(m: map<nat, V>, k: nat) {
    k in m && forall j | j in m :: j <= k
  }

  lemma {:induction false} TopExists<V>(m: map<nat, V>) returns (k: nat)
    requires m != map[]
    ensures IsTop(m, k)
    decreases |m|
  {
    k :| k in m;
    var rest := m - {k};
    assert |rest| < |m| by {
      assert rest.Keys == m.Keys - {k};
    }
    if rest != map[] {
      var j := TopExists(rest);
      assert forall i | i in m && i != k :: i in rest;
      if j > k {
        k := j;
      }
    }
  }

  ghost function Top<V>(m: map<nat, V>): (k: nat)
    requires m != map[]
    ensures IsTop(m, k)
  {
    assert exists k :: IsTop(m, k) by {
      var k := TopExists(m);
    }
    var k :| IsTop(m, k);
    k
  }

  lemma TopIs<V>(m: map<nat, V>, k: nat)
    requires IsTop(m, k)
    ensures m != map[] && Top(m) == k
  {
  }
}
