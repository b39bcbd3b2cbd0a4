/**
 * `dao.UsuarioDAO` over the abstract database. Every write takes a `fault`
 * flag: true when the underlying SQL statement throws, in which case the DAO
 * reports false and the tables are as before. Reads are assumed not to fail.
 */
module UsuarioDao {
  import opened Wrappers
  import opened JsonTree
  import opened Usuarios
  import opened Database

  /** What a write returns: the DAO's boolean, and the database afterwards. */
  datatype Written = Written(ok: bool, db: Db)

  /** `buscarPorCpf`: the stored row rebuilt with the queried cpf, or null. */
  function BuscarPorCpf(db: Db, cpf: string): (r: Option<Usuario>)
    ensures r.Some? <==> cpf in db.usuarios
    ensures KeysMatch(db.usuarios) && r.Some? ==> r.value == db.usuarios[cpf]
  {
    if cpf in db.usuarios then
      var row := db.usuarios[cpf];
      Some(LoadedUsuario(row.nome, cpf, row.senha, row.saldo))
    else None
  }

  /** `cpfExiste`: agrees with `buscarPorCpf` finding a row. */
  function CpfExiste(db: Db, cpf: string): (r: bool)
    ensures r <==> BuscarPorCpf(db, cpf).Some?
  {
    cpf in db.usuarios
  }

  /** `validarLogin`: the cpf is stored and its password equals the given one exactly. */
  function ValidarLogin(db: Db, cpf: string, senha: string): (r: bool)
    ensures r <==> BuscarPorCpf(db, cpf).Some? && BuscarPorCpf(db, cpf).value.senha == senha
  {
    if cpf in db.usuarios then db.usuarios[cpf].senha == senha else false
  }

  /**
   * `salvar`: inserts the user; the primary key makes a second row with the
   * same cpf fail, leaving the table as it was.
   */
  function Salvar(db: Db, u: Usuario, fault: bool): (r: Written)
    ensures r.ok <==> !fault && u.cpf !in db.usuarios
    ensures !r.ok ==> r.db == db
    ensures r.ok ==> r.db.usuarios.Keys == db.usuarios.Keys + {u.cpf}
    ensures r.ok ==> BuscarPorCpf(r.db, u.cpf) == Some(u)
    ensures forall c :: c != u.cpf ==> BuscarPorCpf(r.db, c) == BuscarPorCpf(db, c)
    ensures r.db.transacoes == db.transacoes && r.db.lastId == db.lastId
  {
    if fault || u.cpf in db.usuarios then Written(false, db)
    else Written(true, db.(usuarios := db.usuarios[u.cpf := u]))
  }

  /**
   * `atualizar`: for a stored cpf, overwrites `nome` and/or `senha` with the
   * text of the fields present in `dados`; cpf and saldo never change. With
   * neither field the generated UPDATE has an empty SET list and fails.
   */
  function Atualizar(db: Db, cpf: string, dados: Json, fault: bool): (r: Written)
    ensures r.ok <==> !fault && cpf in db.usuarios && (Has(dados, "nome") || Has(dados, "senha"))
    ensures !r.ok ==> r.db == db
    ensures r.db.usuarios.Keys == db.usuarios.Keys
    ensures r.ok ==> r.db.usuarios[cpf].cpf == db.usuarios[cpf].cpf
    ensures r.ok ==> r.db.usuarios[cpf].saldo == db.usuarios[cpf].saldo
    ensures r.ok ==> r.db.usuarios[cpf].nome == (if Has(dados, "nome") then AsText(dados.fields["nome"]) else db.usuarios[cpf].nome)
    ensures r.ok ==> r.db.usuarios[cpf].senha == (if Has(dados, "senha") then AsText(dados.fields["senha"]) else db.usuarios[cpf].senha)
    ensures forall c :: c in db.usuarios && c != cpf ==> r.db.usuarios[c] == db.usuarios[c]
    ensures r.db.transacoes == db.transacoes && r.db.lastId == db.lastId
  {
    if BuscarPorCpf(db, cpf).None? then Written(false, db)
    else if !Has(dados, "nome") && !Has(dados, "senha") then Written(false, db)
    else if fault then Written(false, db)
    else
      var row := db.usuarios[cpf];
      var named := if Has(dados, "nome") then SetNome(row, AsText(dados.fields["nome"])) else row;
      var updated := if Has(dados, "senha") then SetSenha(named, AsText(dados.fields["senha"])) else named;
      Written(true, db.(usuarios := db.usuarios[cpf := updated]))
  }

  /** `atualizarSaldo`: sets the balance of the row with that cpf, and nothing else. */
  function AtualizarSaldo(db: Db, cpf: string, novoSaldo: real, fault: bool): (r: Written)
    ensures r.ok <==> !fault && cpf in db.usuarios
    ensures !r.ok ==> r.db == db
    ensures r.db.usuarios.Keys == db.usuarios.Keys
    ensures r.ok ==> r.db.usuarios[cpf] == db.usuarios[cpf].(saldo := novoSaldo)
    ensures forall c :: c in db.usuarios && c != cpf ==> r.db.usuarios[c] == db.usuarios[c]
    ensures r.db.transacoes == db.transacoes && r.db.lastId == db.lastId
  {
    if fault || cpf !in db.usuarios then Written(false, db)
    else Written(true, db.(usuarios := db.usuarios[cpf := SetSaldo(db.usuarios[cpf], novoSaldo)]))
  }

  /**
   * `deletar`: removes the row; the foreign keys' ON DELETE CASCADE removes
   * every ledger entry that mentions the cpf. True iff a row was removed.
   */
  function Deletar(db: Db, cpf: string, fault: bool): (r: Written)
    ensures r.ok <==> !fault && cpf in db.usuarios
    ensures !r.ok ==> r.db == db
    ensures r.ok ==> !CpfExiste(r.db, cpf)
    ensures r.ok ==> r.db.usuarios == db.usuarios - {cpf}
    ensures r.ok ==> forall e :: e in r.db.transacoes <==> e in db.transacoes && !References(e, cpf)
    ensures r.db.lastId == db.lastId
  {
    if fault || cpf !in db.usuarios then Written(false, db)
    else Written(true, Db(db.usuarios - {cpf}, Cascade(db.transacoes, cpf), db.lastId))
  }

  /** Every write keeps the schema's constraints. */
  lemma WritesKeepConsistency(db: Db, u: Usuario, cpf: string, dados: Json, saldo: real, fault: bool)
    requires Consistent(db)
    ensures Consistent(Salvar(db, NewUsuario(u.nome, u.cpf, u.senha), fault).db)
    ensures Consistent(Atualizar(db, cpf, dados, fault).db)
    ensures Consistent(AtualizarSaldo(db, cpf, saldo, fault).db)
    ensures Consistent(Deletar(db, cpf, fault).db)
  {
    var d := Deletar(db, cpf, fault);
    if d.ok {
      forall i | 0 <= i < |d.db.transacoes|
        ensures d.db.transacoes[i].cpfEnviador in d.db.usuarios && d.db.transacoes[i].cpfRecebedor in d.db.usuarios
      {
        var e := d.db.transacoes[i];
        assert e in db.transacoes;
      }
      forall i | 0 <= i < |d.db.transacoes|
        ensures 0 < d.db.transacoes[i].id <= d.db.lastId
      {
        assert d.db.transacoes[i] in db.transacoes;
      }
    }
  }
}
