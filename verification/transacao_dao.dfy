/** `dao.TransacaoDAO`: appending one ledger entry. */
module TransacaoDao {
  import opened Database
  import UsuarioDao

  /**
   * `criarTransacao`: appends one entry with the given amount and cpfs, both
   * timestamps set to the one instant `now`, and the next AUTOINCREMENT id.
   * Fails, adding nothing, when the statement throws or when a cpf violates
   * its foreign key.
   */
  function CriarTransacao(db: Db, cpfEnviador: string, cpfRecebedor: string, valor: real, now: string, fault: bool)
    : (r: UsuarioDao.Written)
    ensures r.ok <==> !fault && cpfEnviador in db.usuarios && cpfRecebedor in db.usuarios
    ensures !r.ok ==> r.db == db
    ensures r.db.usuarios == db.usuarios
    ensures r.ok ==> |r.db.transacoes| == |db.transacoes| + 1
    ensures r.ok ==> r.db.transacoes[..|db.transacoes|] == db.transacoes
    ensures r.ok ==> var e := r.db.transacoes[|db.transacoes|];
                     && e.valorEnviado == valor
                     && e.cpfEnviador == cpfEnviador && e.cpfRecebedor == cpfRecebedor
                     && e.criadoEm == now && e.atualizadoEm == now
                     && (forall i :: 0 <= i < |db.transacoes| && IdsBelow(db.transacoes, db.lastId) ==> db.transacoes[i].id < e.id)
  {
    if fault || cpfEnviador !in db.usuarios || cpfRecebedor !in db.usuarios then UsuarioDao.Written(false, db)
    else
      var id := db.lastId + 1;
      var entry := Transacao(id, valor, cpfEnviador, cpfRecebedor, now, now);
      UsuarioDao.Written(true, db.(transacoes := db.transacoes + [entry], lastId := id))
  }

  /** Appending keeps the schema's constraints. */
  lemma CriarTransacaoKeepsConsistency(db: Db, cpfEnviador: string, cpfRecebedor: string, valor: real, now: string, fault: bool)
    requires Consistent(db)
    ensures Consistent(CriarTransacao(db, cpfEnviador, cpfRecebedor, valor, now, fault).db)
  {
  }
}
