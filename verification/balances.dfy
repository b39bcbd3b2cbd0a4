/** The sum of all stored balances, and how single-row writes change it. */
module Balances {
  import opened Usuarios

  /** Sum of `saldo` over every stored user. */
  ghost function Total(us: map<string, Usuario>): real
    decreases |us|
  {
    if us == map[] then 0.0
    else
      var c :| c in us;
      us[c].saldo + Total(us - {c})
  }

  /** Any stored user can be split off the sum, not only the one `Total` picks. */
  lemma {:induction false} TotalRemove(us: map<string, Usuario>, c: string)
    requires c in us
    ensures Total(us) == us[c].saldo + Total(us - {c})
    decreases |us|
  {
    var d :| d in us && Total(us) == us[d].saldo + Total(us - {d});
    if d != c {
      var rest := us - {d};
      assert c in rest;
      TotalRemove(rest, c);
      var smaller := us - {c};
      assert d in smaller;
      TotalRemove(smaller, d);
      assert rest - {c} == smaller - {d};
    }
  }

  /** Overwriting one user changes the sum by the difference of the two balances. */
  lemma TotalUpdate(us: map<string, Usuario>, c: string, u: Usuario)
    requires c in us
    ensures Total(us[c := u]) == Total(us) - us[c].saldo + u.saldo
  {
    TotalRemove(us, c);
    TotalRemove(us[c := u], c);
    assert us[c := u] - {c} == us - {c};
  }

  /** Adding a new user adds its balance to the sum. */
  lemma TotalInsert(us: map<string, Usuario>, c: string, u: Usuario)
    requires c !in us
    ensures Total(us[c := u]) == Total(us) + u.saldo
  {
    TotalRemove(us[c := u], c);
    assert us[c := u] - {c} == us;
  }
}
