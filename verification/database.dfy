/**
 * The two tables (`usuarios`, `transacoes`) as an abstract store, with the
 * constraints the schema declares: cpf primary key, foreign keys from each
 * ledger entry to both users with ON DELETE CASCADE, and AUTOINCREMENT ids.
 */
module Database {
  import opened Usuarios

  /** One row of `transacoes`. */
  datatype Transacao = Transacao(
    id: int,
    valorEnviado: real,
    cpfEnviador: string,
    cpfRecebedor: string,
    criadoEm: string,
    atualizadoEm: string)

  /**
   * The database: `usuarios` keyed by its primary key, `transacoes` in
   * insertion order, and `lastId`, the AUTOINCREMENT counter (the largest id
   * ever handed out, deleted rows included).
   */
  datatype Db = Db(usuarios: map<string, Usuario>, transacoes: seq<Transacao>, lastId: nat)

  /** An empty database, as the schema creates it. */
  const Empty: Db := Db(map[], [], 0)

  /** Whether the entry mentions `cpf` as sender or receiver. */
  predicate References(e: Transacao, cpf: string)
  {
    e.cpfEnviador == cpf || e.cpfRecebedor == cpf
  }

  /** The row stored under a key carries that key in its `cpf` column. */
  predicate KeysMatch(us: map<string, Usuario>)
  {
    forall c :: c in us ==> us[c].cpf == c
  }

  /** Both cpfs of every ledger entry name stored users. */
  predicate ForeignKeysHold(us: map<string, Usuario>, tx: seq<Transacao>)
  {
    forall i :: 0 <= i < |tx| ==> tx[i].cpfEnviador in us && tx[i].cpfRecebedor in us
  }

  /** Ids are positive, strictly increasing in insertion order, and never above the counter. */
  predicate IdsIncreasing(tx: seq<Transacao>)
  {
    forall i, j :: 0 <= i < j < |tx| ==> tx[i].id < tx[j].id
  }

  predicate IdsBelow(tx: seq<Transacao>, lastId: nat)
  {
    forall i :: 0 <= i < |tx| ==> 0 < tx[i].id <= lastId
  }

  /** The schema's constraints hold. */
  predicate Consistent(db: Db)
  {
    && KeysMatch(db.usuarios)
    && ForeignKeysHold(db.usuarios, db.transacoes)
    && IdsIncreasing(db.transacoes)
    && IdsBelow(db.transacoes, db.lastId)
  }

  lemma EmptyIsConsistent()
    ensures Consistent(Empty)
  {
  }

  /**
   * The entries that survive deleting user `cpf` under ON DELETE CASCADE:
   * those that do not mention it, in their original order.
   */
  function Cascade(tx: seq<Transacao>, cpf: string): (r: seq<Transacao>)
    ensures |r| <= |tx|
    ensures forall e :: e in r <==> e in tx && !References(e, cpf)
    ensures IdsIncreasing(tx) ==> IdsIncreasing(r)
  {
    if tx == [] then []
    else
      var rest := Cascade(tx[1..], cpf);
      assert forall e :: e in tx[1..] ==> e in tx;
      if References(tx[0], cpf) then rest
      else
        assert IdsIncreasing(tx) ==> forall e :: e in tx[1..] ==> tx[0].id < e.id;
        [tx[0]] + rest
  }
}
