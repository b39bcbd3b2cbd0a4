/**
 * `servidor.ProcessadorMensagens`: one request in, one reply out, as a pure
 * step over the session store and the database. The UUID of a new token, the
 * clock and the failures of SQL writes come in through `Env`.
 */
module Dispatcher {
  import opened Wrappers
  import opened JsonTree
  import opened Usuarios
  import opened Database
  import Sessions
  import UsuarioDao
  import TransacaoDao
  import Validator
  import Money

  /**
   * What the surroundings decide for one request: the next `UUID.randomUUID()`,
   * the next `Instant.now()` text, and the positions (0 for the first) of the
   * DAO writes of this request whose SQL statement throws.
   */
  datatype Env = Env(uuid: string, now: string, faults: set<nat>)

  /** The server's whole state: the session store and the database. */
  datatype State = State(sessions: Sessions.Store, db: Db)

  /** A reply, and the state it leaves behind. */
  datatype Handled = Handled(reply: Json, st: State)

  /** The UUID of this request could be the one a login would issue. */
  predicate Ready(st: State, env: Env)
  {
    Sessions.FreshToken(st.sessions, env.uuid)
  }

  // ---------------------------------------------------------------------------
  // Replies

  /** Operation-specific payload of a successful reply. */
  datatype Extra = NoExtra | TokenExtra(token: string) | UsuarioExtra(u: Usuario)

  /** The payload as JSON fields: never the password. */
  function ExtraFields(x: Extra): (m: map<string, Json>)
    ensures m.Keys !! {"operacao", "status", "info"}
    ensures x.UsuarioExtra? ==> "usuario" in m && m["usuario"].JObj? && "senha" !in m["usuario"].fields
  {
    match x
    case NoExtra => map[]
    case TokenExtra(t) => map["token" := JStr(t)]
    case UsuarioExtra(u) =>
      map["usuario" := JObj(map["nome" := JStr(u.nome), "cpf" := JStr(u.cpf), "saldo" := JNum(u.saldo)])]
  }

  /** Every reply: an object with string `operacao`, boolean `status` and string `info`. */
  predicate Envelope(j: Json)
  {
    && j.JObj?
    && "operacao" in j.fields && j.fields["operacao"].JStr?
    && "status" in j.fields && j.fields["status"].JBool?
    && "info" in j.fields && j.fields["info"].JStr?
  }

  function OperacaoOf(j: Json): string requires Envelope(j) { j.fields["operacao"].s }
  function StatusOf(j: Json): bool requires Envelope(j) { j.fields["status"].b }
  function InfoOf(j: Json): string requires Envelope(j) { j.fields["info"].s }

  /** `criarRespostaSucesso`: the envelope with `status` true, plus the payload. */
  function RespostaSucesso(op: string, info: string, extra: Extra): (r: Json)
    ensures Envelope(r) && OperacaoOf(r) == op && StatusOf(r) && InfoOf(r) == info
    ensures r.fields.Keys == {"operacao", "status", "info"} + ExtraFields(extra).Keys
    ensures forall k :: k in ExtraFields(extra) ==> r.fields[k] == ExtraFields(extra)[k]
  {
    JObj(map["operacao" := JStr(op), "status" := JBool(true), "info" := JStr(info)] + ExtraFields(extra))
  }

  /** `criarRespostaErro`: the envelope with `status` false and nothing else. */
  function RespostaErro(op: string, info: string): (r: Json)
    ensures Envelope(r) && OperacaoOf(r) == op && !StatusOf(r) && InfoOf(r) == info
    ensures r.fields.Keys == {"operacao", "status", "info"}
  {
    JObj(map["operacao" := JStr(op), "status" := JBool(false), "info" := JStr(info)])
  }

  const TokenInvalido := "Token inválido ou expirado"
  const DuasCasas := "Valor deve ter no máximo 2 casas decimais"

  /** The text of the request's `token` field, if it has one. */
  function TokenText(node: Json): Option<string>
  {
    if Has(node, "token") then Some(AsText(node.fields["token"])) else None
  }

  /** Which session, if any, the request's token opens. */
  function Caller(node: Json, st: State): Option<string>
  {
    match TokenText(node)
    case None => None
    case Some(t) => Sessions.Validate(st.sessions, t)
  }

  // ---------------------------------------------------------------------------
  // Handlers without a session

  /** `processarConexao`. */
  function Conectar(st: State): (h: Handled)
    ensures Envelope(h.reply) && OperacaoOf(h.reply) == "conectar" && StatusOf(h.reply)
    ensures h.st == st
  {
    Handled(RespostaSucesso("conectar", "Servidor conectado com sucesso", NoExtra), st)
  }

  /**
   * `processarCadastroUsuario`: a known cpf is refused; otherwise the user is
   * saved with balance zero.
   */
  function Cadastrar(node: Json, st: State, env: Env): (h: Handled)
    ensures Envelope(h.reply) && OperacaoOf(h.reply) == "usuario_criar"
    ensures h.st.sessions == st.sessions
    ensures !StatusOf(h.reply) ==> h.st == st
    ensures StatusOf(h.reply) <==>
      && Has(node, "nome") && Has(node, "cpf") && Has(node, "senha")
      && AsText(node.fields["cpf"]) !in st.db.usuarios && 0 !in env.faults
  {
    var op := "usuario_criar";
    if !Has(node, "nome") || !Has(node, "cpf") || !Has(node, "senha") then
      Handled(RespostaErro(op, "Erro ao processar dados do usuário"), st)
    else
      var nome := AsText(node.fields["nome"]);
      var cpf := AsText(node.fields["cpf"]);
      var senha := AsText(node.fields["senha"]);
      if UsuarioDao.CpfExiste(st.db, cpf) then Handled(RespostaErro(op, "CPF já cadastrado"), st)
      else
        var w := UsuarioDao.Salvar(st.db, NewUsuario(nome, cpf, senha), 0 in env.faults);
        if w.ok then Handled(RespostaSucesso(op, "Usuário criado com sucesso", NoExtra), st.(db := w.db))
        else Handled(RespostaErro(op, "Ocorreu um erro ao criar usuário"), st.(db := w.db))
  }

  /** `processarLogin`: a token is issued, and returned, only for valid credentials. */
  function Login(node: Json, st: State, env: Env): (h: Handled)
    requires Ready(st, env)
    ensures Envelope(h.reply) && OperacaoOf(h.reply) == "usuario_login"
    ensures h.st.db == st.db
    ensures !StatusOf(h.reply) ==> h.st == st
    ensures StatusOf(h.reply) <==>
      Has(node, "cpf") && Has(node, "senha")
      && UsuarioDao.ValidarLogin(st.db, AsText(node.fields["cpf"]), AsText(node.fields["senha"]))
    ensures StatusOf(h.reply) ==>
      && "token" in h.reply.fields && h.reply.fields["token"] == JStr(env.uuid)
      && h.st.sessions == Sessions.Generate(st.sessions, AsText(node.fields["cpf"]), env.uuid).store
  {
    var op := "usuario_login";
    if !Has(node, "cpf") || !Has(node, "senha") then Handled(RespostaErro(op, "Erro ao processar login"), st)
    else
      var cpf := AsText(node.fields["cpf"]);
      var senha := AsText(node.fields["senha"]);
      if UsuarioDao.ValidarLogin(st.db, cpf, senha) then
        var issued := Sessions.Generate(st.sessions, cpf, env.uuid);
        Handled(RespostaSucesso(op, "Login realizado com sucesso", TokenExtra(issued.token)),
                st.(sessions := issued.store))
      else Handled(RespostaErro(op, "Login inválido"), st)
  }

  // ---------------------------------------------------------------------------
  // Handlers behind a session

  /** `processarLogout`: the caller's token stops validating. */
  function Logout(node: Json, st: State): (h: Handled)
    ensures Envelope(h.reply) && OperacaoOf(h.reply) == "usuario_logout"
    ensures h.st.db == st.db
    ensures StatusOf(h.reply) <==> Caller(node, st).Some?
    ensures !StatusOf(h.reply) ==> h.st == st
    ensures StatusOf(h.reply) ==>
      && h.st.sessions == Sessions.Invalidate(st.sessions, TokenText(node).value).store
      && Sessions.Validate(h.st.sessions, TokenText(node).value).None?
  {
    var op := "usuario_logout";
    if !Has(node, "token") then Handled(RespostaErro(op, "Erro ao processar logout"), st)
    else
      var token := AsText(node.fields["token"]);
      match Sessions.Validate(st.sessions, token)
      case None => Handled(RespostaErro(op, TokenInvalido), st)
      case Some(_) =>
        var revoked := Sessions.Invalidate(st.sessions, token);
        Handled(RespostaSucesso(op, "Logout realizado com sucesso", NoExtra), st.(sessions := revoked.store))
  }

  /** `processarLeituraUsuario`: the caller's name, cpf and balance, never the password. */
  function Ler(node: Json, st: State): (h: Handled)
    ensures Envelope(h.reply) && OperacaoOf(h.reply) == "usuario_ler"
    ensures h.st == st
    ensures StatusOf(h.reply) <==> Caller(node, st).Some? && Caller(node, st).value in st.db.usuarios
    ensures StatusOf(h.reply) ==>
      var row := st.db.usuarios[Caller(node, st).value];
      "usuario" in h.reply.fields &&
      h.reply.fields["usuario"] == JObj(map["nome" := JStr(row.nome), "cpf" := JStr(Caller(node, st).value), "saldo" := JNum(row.saldo)])
  {
    var op := "usuario_ler";
    if !Has(node, "token") then Handled(RespostaErro(op, "Erro ao buscar dados do usuário"), st)
    else
      match Sessions.Validate(st.sessions, AsText(node.fields["token"]))
      case None => Handled(RespostaErro(op, TokenInvalido), st)
      case Some(cpf) =>
        match UsuarioDao.BuscarPorCpf(st.db, cpf)
        case None => Handled(RespostaErro(op, "Usuário não encontrado"), st)
        case Some(u) => Handled(RespostaSucesso(op, "Dados do usuário recuperados com sucesso", UsuarioExtra(u)), st)
  }

  /** `processarAtualizarUsuario`: only the supplied `nome`/`senha` of the caller change. */
  function Atualizar(node: Json, st: State, env: Env): (h: Handled)
    ensures Envelope(h.reply) && OperacaoOf(h.reply) == "usuario_atualizar"
    ensures h.st.sessions == st.sessions
    ensures !StatusOf(h.reply) ==> h.st == st
    ensures StatusOf(h.reply) <==>
      && Caller(node, st).Some? && Caller(node, st).value in st.db.usuarios
      && Has(node, "usuario") && node.fields["usuario"].JObj?
      && (Has(node.fields["usuario"], "nome") || Has(node.fields["usuario"], "senha"))
      && 0 !in env.faults
    ensures StatusOf(h.reply) ==>
      && Caller(node, st).Some? && Has(node, "usuario")
      && h.st.db == UsuarioDao.Atualizar(st.db, Caller(node, st).value, node.fields["usuario"], false).db
  {
    var op := "usuario_atualizar";
    if !Has(node, "token") then Handled(RespostaErro(op, "Erro ao processar dados do usuário"), st)
    else
      match Sessions.Validate(st.sessions, AsText(node.fields["token"]))
      case None => Handled(RespostaErro(op, TokenInvalido), st)
      case Some(cpf) =>
        if !Has(node, "usuario") || !IsObject(node.fields["usuario"]) then
          Handled(RespostaErro(op, "Dados do usuário não fornecidos"), st)
        else
          var dados := node.fields["usuario"];
          if !Has(dados, "nome") && !Has(dados, "senha") then
            Handled(RespostaErro(op, "Pelo menos um campo deve ser fornecido para atualização"), st)
          else
            var w := UsuarioDao.Atualizar(st.db, cpf, dados, 0 in env.faults);
            if w.ok then Handled(RespostaSucesso(op, "Usuário atualizado com sucesso", NoExtra), st.(db := w.db))
            else Handled(RespostaErro(op, "Erro ao atualizar usuário"), st.(db := w.db))
  }

  /**
   * `processarDeletarUsuario`: the caller's row goes, with the ledger entries
   * that mention it; the session store is not touched.
   */
  function Deletar(node: Json, st: State, env: Env): (h: Handled)
    ensures Envelope(h.reply) && OperacaoOf(h.reply) == "usuario_deletar"
    ensures h.st.sessions == st.sessions
    ensures !StatusOf(h.reply) ==> h.st == st
    ensures StatusOf(h.reply) <==>
      Caller(node, st).Some? && Caller(node, st).value in st.db.usuarios && 0 !in env.faults
    ensures StatusOf(h.reply) ==> h.st.db == UsuarioDao.Deletar(st.db, Caller(node, st).value, false).db
  {
    var op := "usuario_deletar";
    if !Has(node, "token") then Handled(RespostaErro(op, "Erro ao processar dados do usuário"), st)
    else
      match Sessions.Validate(st.sessions, AsText(node.fields["token"]))
      case None => Handled(RespostaErro(op, TokenInvalido), st)
      case Some(cpf) =>
        var w := UsuarioDao.Deletar(st.db, cpf, 0 in env.faults);
        if w.ok then Handled(RespostaSucesso(op, "Usuário deletado com sucesso", NoExtra), st.(db := w.db))
        else Handled(RespostaErro(op, "Erro ao deletar usuário"), st.(db := w.db))
  }

  // ---------------------------------------------------------------------------
  // Deposit

  /** A deposit that passed every check: the caller, its row, and the amount. */
  datatype DepositPlan = DepositPlan(cpf: string, usuario: Usuario, valor: real)

  /** The checks of `processarDeposito` before any write, in the order the code runs them. */
  function DepositGuards(node: Json, st: State): (r: Result<DepositPlan>)
    ensures r.Ok? ==>
      && Caller(node, st) == Some(r.value.cpf)
      && Has(node, "valor_enviado") && r.value.valor == AsDouble(node.fields["valor_enviado"])
      && r.value.valor > 0.0 && Money.AtMostTwoDecimals(r.value.valor)
      && UsuarioDao.BuscarPorCpf(st.db, r.value.cpf) == Some(r.value.usuario)
    ensures
      && Caller(node, st).Some? && Caller(node, st).value in st.db.usuarios
      && Has(node, "valor_enviado")
      && AsDouble(node.fields["valor_enviado"]) > 0.0
      && Money.AtMostTwoDecimals(AsDouble(node.fields["valor_enviado"]))
      ==> r.Ok?
  {
    if !Has(node, "token") then Err("Erro ao processar depósito")
    else
      match Sessions.Validate(st.sessions, AsText(node.fields["token"]))
      case None => Err(TokenInvalido)
      case Some(cpf) =>
        if !Has(node, "valor_enviado") then Err("Campo valor_enviado é obrigatório")
        else
          var valor := AsDouble(node.fields["valor_enviado"]);
          if valor <= 0.0 then Err("Valor do depósito deve ser positivo")
          else if !Money.AtMostTwoDecimals(valor) then Err(DuasCasas)
          else
            match UsuarioDao.BuscarPorCpf(st.db, cpf)
            case None => Err("Usuário não encontrado")
            case Some(u) => Ok(DepositPlan(cpf, u, valor))
  }

  /** `processarDeposito`: credits the caller; it writes no ledger entry. */
  function Depositar(node: Json, st: State, env: Env): (h: Handled)
    ensures Envelope(h.reply) && OperacaoOf(h.reply) == "depositar"
    ensures h.st.sessions == st.sessions
    ensures h.st.db.transacoes == st.db.transacoes && h.st.db.lastId == st.db.lastId
    ensures !StatusOf(h.reply) ==> h.st == st
    ensures StatusOf(h.reply) <==> DepositGuards(node, st).Ok? && 0 !in env.faults
  {
    var op := "depositar";
    match DepositGuards(node, st)
    case Err(m) => Handled(RespostaErro(op, m), st)
    case Ok(p) =>
      var w := UsuarioDao.AtualizarSaldo(st.db, p.cpf, p.usuario.saldo + p.valor, 0 in env.faults);
      if w.ok then Handled(RespostaSucesso(op, "Deposito realizado com sucesso", NoExtra), st.(db := w.db))
      else Handled(RespostaErro(op, "Erro ao depositar"), st.(db := w.db))
  }

  // ---------------------------------------------------------------------------
  // Transfer

  /** A transfer that passed every check. */
  datatype TransferPlan = TransferPlan(
    cpfEnviador: string, cpfRecebedor: string, enviador: Usuario, recebedor: Usuario, valor: real)

  /** The checks of `processarTransacao` before any write, in the order the code runs them. */
  function TransferGuards(node: Json, st: State): (r: Result<TransferPlan>)
    ensures r.Ok? ==>
      && Caller(node, st) == Some(r.value.cpfEnviador)
      && Has(node, "valor") && r.value.valor == AsDouble(node.fields["valor"])
      && Has(node, "cpf_destino") && r.value.cpfRecebedor == AsText(node.fields["cpf_destino"])
      && r.value.valor > 0.0 && Money.AtMostTwoDecimals(r.value.valor)
      && r.value.cpfEnviador != r.value.cpfRecebedor
      && UsuarioDao.BuscarPorCpf(st.db, r.value.cpfEnviador) == Some(r.value.enviador)
      && r.value.enviador.saldo >= r.value.valor
      && UsuarioDao.BuscarPorCpf(st.db, r.value.cpfRecebedor) == Some(r.value.recebedor)
    ensures
      && Caller(node, st).Some? && Caller(node, st).value in st.db.usuarios
      && Has(node, "valor") && Has(node, "cpf_destino")
      && AsDouble(node.fields["valor"]) > 0.0 && Money.AtMostTwoDecimals(AsDouble(node.fields["valor"]))
      && AsText(node.fields["cpf_destino"]) != Caller(node, st).value
      && AsText(node.fields["cpf_destino"]) in st.db.usuarios
      && st.db.usuarios[Caller(node, st).value].saldo >= AsDouble(node.fields["valor"])
      ==> r.Ok?
  {
    if !Has(node, "token") then Err("Erro ao processar dados da transação")
    else
      match Sessions.Validate(st.sessions, AsText(node.fields["token"]))
      case None => Err(TokenInvalido)
      case Some(cpfEnviador) =>
        if !Has(node, "valor") || !Has(node, "cpf_destino") then Err("Campos valor e cpf_destino são obrigatórios")
        else
          var valor := AsDouble(node.fields["valor"]);
          var cpfRecebedor := AsText(node.fields["cpf_destino"]);
          if valor <= 0.0 then Err("Valor da transação deve ser positivo")
          else if !Money.AtMostTwoDecimals(valor) then Err(DuasCasas)
          else if cpfEnviador == cpfRecebedor then Err("Não é possível enviar dinheiro para si mesmo")
          else
            match UsuarioDao.BuscarPorCpf(st.db, cpfEnviador)
            case None => Err("Usuário enviador não encontrado")
            case Some(enviador) =>
              if enviador.saldo < valor then Err("Saldo insuficiente")
              else
                match UsuarioDao.BuscarPorCpf(st.db, cpfRecebedor)
                case None => Err("CPF de destino não encontrado")
                case Some(recebedor) => Ok(TransferPlan(cpfEnviador, cpfRecebedor, enviador, recebedor, valor))
  }

  /**
   * Step 6 of `processarTransacao` as written: debit, credit, ledger append,
   * each through its own DAO connection. The `rollback` calls act on a
   * connection none of these writes used, so a failure after the debit keeps
   * the writes already made.
   */
  function ExecuteTransfer(st: State, p: TransferPlan, env: Env): (h: Handled)
    ensures Envelope(h.reply) && OperacaoOf(h.reply) == "transacao_criar"
    ensures h.st.sessions == st.sessions
  {
    var op := "transacao_criar";
    var debit := UsuarioDao.AtualizarSaldo(st.db, p.cpfEnviador, p.enviador.saldo - p.valor, 0 in env.faults);
    if !debit.ok then Handled(RespostaErro(op, "Erro ao debitar valor do enviador"), st.(db := debit.db))
    else
      var credit := UsuarioDao.AtualizarSaldo(debit.db, p.cpfRecebedor, p.recebedor.saldo + p.valor, 1 in env.faults);
      if !credit.ok then Handled(RespostaErro(op, "Erro ao creditar valor ao recebedor"), st.(db := credit.db))
      else
        var rec := TransacaoDao.CriarTransacao(credit.db, p.cpfEnviador, p.cpfRecebedor, p.valor, env.now, 2 in env.faults);
        if !rec.ok then Handled(RespostaErro(op, "Erro ao registrar transação"), st.(db := rec.db))
        else Handled(RespostaSucesso(op, "Transação realizada com sucesso", NoExtra), st.(db := rec.db))
  }

  /** `processarTransacao`. */
  function Transferir(node: Json, st: State, env: Env): (h: Handled)
    ensures Envelope(h.reply) && OperacaoOf(h.reply) == "transacao_criar"
    ensures h.st.sessions == st.sessions
    ensures TransferGuards(node, st).Err? ==> h.st == st
    ensures StatusOf(h.reply) <==>
      TransferGuards(node, st).Ok? && 0 !in env.faults && 1 !in env.faults && 2 !in env.faults
  {
    match TransferGuards(node, st)
    case Err(m) => Handled(RespostaErro("transacao_criar", m), st)
    case Ok(p) => ExecuteTransfer(st, p, env)
  }

  // ---------------------------------------------------------------------------
  // Dispatch

  /** `processarOperacao`: the handler the operation name selects. */
  function ProcessarOperacao(node: Json, op: string, st: State, env: Env): (h: Handled)
    requires Ready(st, env)
    ensures Envelope(h.reply) && OperacaoOf(h.reply) == op
    ensures h.st.sessions != st.sessions ==> op == "usuario_login" || op == "usuario_logout"
    ensures h.st.db != st.db ==>
      || op == "usuario_criar" || op == "usuario_atualizar" || op == "usuario_deletar"
      || op == "depositar" || op == "transacao_criar"
  {
    match op
    case "usuario_criar" => Cadastrar(node, st, env)
    case "usuario_login" => Login(node, st, env)
    case "usuario_ler" => Ler(node, st)
    case "usuario_atualizar" => Atualizar(node, st, env)
    case "usuario_deletar" => Deletar(node, st, env)
    case "usuario_logout" => Logout(node, st)
    case "conectar" => Conectar(st)
    case "depositar" => Depositar(node, st, env)
    case "transacao_criar" => Transferir(node, st, env)
    case _ => Handled(RespostaErro(op, "Operação ainda não implementada"), st)
  }

  /** The operation name echoed in every reply: `operacao` as text, or "erro" when absent. */
  function EchoedOperacao(root: Json): string
  {
    if Has(root, "operacao") then AsText(root.fields["operacao"]) else "erro"
  }

  const SintaxeInvalida := "Erro de sintaxe. A mensagem não é um JSON válido."

  /**
   * `processarMensagem`: `input` is the parsed request, `None` when the text is
   * not JSON. The request is checked, dispatched, and the reply checked in turn;
   * a failed check becomes an error reply that echoes the operation name.
   */
  function Step(input: Option<Json>, st: State, env: Env): (h: Handled)
    requires Ready(st, env)
    ensures Envelope(h.reply)
    ensures OperacaoOf(h.reply) == if input.Some? then EchoedOperacao(input.value) else "erro"
    ensures input.None? ==> h.st == st
  {
    match input
    case None => Handled(RespostaErro("erro", SintaxeInvalida), st)
    case Some(root) =>
      var op := EchoedOperacao(root);
      match Validator.ValidateClient(root)
      case Fail(m) => Handled(RespostaErro(op, m), st)
      case Pass =>
        var h := ProcessarOperacao(root, op, st, env);
        match Validator.ValidateServer(h.reply)
        case Fail(m) => Handled(RespostaErro(op, m), h.st)
        case Pass => h
  }
}
