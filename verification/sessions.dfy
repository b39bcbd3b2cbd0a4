/**
 * The session store (`autenticador.Token`): a map from token to its owner's
 * cpf and an `ativo` flag. Entries are deactivated, never removed. The
 * random UUID of a new token is supplied by the caller.
 */
module Sessions {
  import opened Wrappers

  datatype TokenInfo = TokenInfo(cpf: string, ativo: bool)

  type Store = map<string, TokenInfo>

  /** `s.trim().isEmpty()`: every character is a space or a control character. */
  predicate IsBlank(s: string)
  {
    forall i :: 0 <= i < |s| ==> s[i] <= ' '
  }

  /** The tokens of `cpf` that are still active. */
  function ActiveTokensOf(m: Store, cpf: string): set<string>
  {
    set t | t in m && m[t].cpf == cpf && m[t].ativo
  }

  /** All active tokens, whoever owns them. */
  function ActiveTokens(m: Store): set<string>
  {
    set t | t in m && m[t].ativo
  }

  /** The single-session discipline: no cpf owns two active tokens. */
  predicate SingleSession(m: Store)
  {
    forall t1, t2 :: t1 in m && t2 in m && m[t1].ativo && m[t2].ativo && m[t1].cpf == m[t2].cpf ==> t1 == t2
  }

  /** A value `UUID.randomUUID().toString()` may take: unused so far, and not blank. */
  predicate FreshToken(m: Store, t: string)
  {
    t !in m && !IsBlank(t)
  }

  /** `invalidarTokensPorCpf`: every active token of `cpf` is switched off. */
  function InvalidateByCpf(m: Store, cpf: string): (m': Store)
    ensures m'.Keys == m.Keys
    ensures forall t :: t in m ==> m'[t].cpf == m[t].cpf
    ensures forall t :: t in m && m[t].cpf != cpf ==> m'[t] == m[t]
    ensures ActiveTokensOf(m', cpf) == {}
    ensures forall t :: t in m && m[t].cpf == cpf ==> !m'[t].ativo
  {
    map t | t in m :: if m[t].cpf == cpf && m[t].ativo then m[t].(ativo := false) else m[t]
  }

  datatype Issued = Issued(token: string, store: Store)

  /**
   * `gerarToken`: the previous sessions of `cpf` end, and `uuid` becomes its
   * one active token; nobody else's tokens change.
   */
  function Generate(m: Store, cpf: string, uuid: string): (r: Issued)
    requires FreshToken(m, uuid)
    ensures r.token == uuid
    ensures r.store.Keys == m.Keys + {uuid}
    ensures r.store[uuid] == TokenInfo(cpf, true)
    ensures ActiveTokensOf(r.store, cpf) == {uuid}
    ensures forall t :: t in m && m[t].cpf != cpf ==> r.store[t] == m[t]
    ensures forall t :: t in m ==> r.store[t].cpf == m[t].cpf
  {
    var cleared := InvalidateByCpf(m, cpf);
    Issued(uuid, cleared[uuid := TokenInfo(cpf, true)])
  }

  /** `validarToken`: total; the owner of an existing active token, otherwise nothing. */
  function Validate(m: Store, token: string): (r: Option<string>)
    ensures r.Some? <==> !IsBlank(token) && token in ActiveTokens(m)
    ensures r.Some? ==> token in ActiveTokensOf(m, r.value)
  {
    if IsBlank(token) then None
    else if token !in m then None
    else if !m[token].ativo then None
    else Some(m[token].cpf)
  }

  /** `cpfTemTokenAtivo`. */
  function CpfHasActiveToken(m: Store, cpf: string): (r: bool)
    ensures r <==> ActiveTokensOf(m, cpf) != {}
  {
    var found := exists t :: t in m && m[t].cpf == cpf && m[t].ativo;
    assert ActiveTokensOf(m, cpf) != {} ==> found by {
      if ActiveTokensOf(m, cpf) != {} {
        var t :| t in ActiveTokensOf(m, cpf);
      }
    }
    assert found ==> ActiveTokensOf(m, cpf) != {} by {
      if found {
        var t :| t in m && m[t].cpf == cpf && m[t].ativo;
        assert t in ActiveTokensOf(m, cpf);
      }
    }
    found
  }

  datatype Revoked = Revoked(changed: bool, store: Store)

  /** `invalidarToken`: reports whether the token was active, and leaves it inactive. */
  function Invalidate(m: Store, token: string): (r: Revoked)
    ensures r.changed <==> token in ActiveTokens(m)
    ensures r.store.Keys == m.Keys
    ensures token in m ==> r.store[token] == m[token].(ativo := false)
    ensures forall t :: t in m && t != token ==> r.store[t] == m[t]
    ensures !r.changed ==> r.store == m
  {
    if token in m && m[token].ativo then Revoked(true, m[token := m[token].(ativo := false)])
    else Revoked(false, m)
  }

  /** `contarTokensAtivos`: walks the store and counts the active entries. */
  method CountActive(m: Store) returns (n: nat)
    ensures n == |ActiveTokens(m)|
  {
    var rest := m.Keys;
    n := 0;
    while rest != {}
      invariant rest <= m.Keys
      invariant n == |set t | t in m.Keys - rest && m[t].ativo|
      decreases rest
    {
      var t :| t in rest;
      ghost var before := set u | u in m.Keys - rest && m[u].ativo;
      ghost var after := set u | u in m.Keys - (rest - {t}) && m[u].ativo;
      if m[t].ativo {
        assert after == before + {t};
        n := n + 1;
      } else {
        assert after == before;
      }
      rest := rest - {t};
    }
    assert (set t | t in m.Keys - {} && m[t].ativo) == ActiveTokens(m);
  }

  /** After `gerarToken(cpf)` the new token validates to `cpf`. */
  lemma GenerateThenValidate(m: Store, cpf: string, uuid: string)
    requires FreshToken(m, uuid)
    ensures Validate(Generate(m, cpf, uuid).store, uuid) == Some(cpf)
    ensures CpfHasActiveToken(Generate(m, cpf, uuid).store, cpf)
  {
    assert uuid in ActiveTokensOf(Generate(m, cpf, uuid).store, cpf);
  }

  /** After `invalidarTokensPorCpf(cpf)` no token of `cpf` validates. */
  lemma InvalidateByCpfEndsSessions(m: Store, cpf: string, t: string)
    ensures !CpfHasActiveToken(InvalidateByCpf(m, cpf), cpf)
    ensures t in m && m[t].cpf == cpf ==> Validate(InvalidateByCpf(m, cpf), t).None?
  {
  }

  /** Logging in again ends the earlier session: its token no longer validates. */
  lemma SecondLoginSupersedesFirst(m: Store, cpf: string, first: string, second: string)
    requires FreshToken(m, first)
    requires FreshToken(Generate(m, cpf, first).store, second)
    ensures Validate(Generate(Generate(m, cpf, first).store, cpf, second).store, first).None?
    ensures Validate(Generate(Generate(m, cpf, first).store, cpf, second).store, second) == Some(cpf)
  {
    var m1 := Generate(m, cpf, first).store;
    var m2 := Generate(m1, cpf, second).store;
    assert first in m1 && m1[first].cpf == cpf;
    assert first !in ActiveTokensOf(m2, cpf);
    GenerateThenValidate(m1, cpf, second);
  }

  /** A second logout of the same token reports no change and changes nothing. */
  lemma InvalidateIdempotent(m: Store, token: string)
    ensures !Invalidate(Invalidate(m, token).store, token).changed
    ensures Invalidate(Invalidate(m, token).store, token).store == Invalidate(m, token).store
    ensures Validate(Invalidate(m, token).store, token).None?
  {
  }

  /** Issuing and revoking keep the single-session discipline. */
  lemma SingleSessionPreserved(m: Store, cpf: string, uuid: string, token: string)
    requires SingleSession(m)
    ensures FreshToken(m, uuid) ==> SingleSession(Generate(m, cpf, uuid).store)
    ensures SingleSession(Invalidate(m, token).store)
  {
    if FreshToken(m, uuid) {
      var m' := Generate(m, cpf, uuid).store;
      forall t1, t2 | t1 in m' && t2 in m' && m'[t1].ativo && m'[t2].ativo && m'[t1].cpf == m'[t2].cpf
        ensures t1 == t2
      {
        if m'[t1].cpf == cpf {
          assert t1 in ActiveTokensOf(m', cpf) && t2 in ActiveTokensOf(m', cpf);
        }
      }
    }
  }
}
