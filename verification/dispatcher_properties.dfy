/**
 * What the request dispatcher guarantees: the session and schema invariants
 * every step keeps, the authentication guard, the guard chains of deposit
 * and transfer, and conservation of money by a successful transfer.
 */
module DispatcherProperties {
  import opened Wrappers
  import opened JsonTree
  import opened Usuarios
  import opened Database
  import opened Dispatcher
  import Sessions
  import UsuarioDao
  import TransacaoDao
  import Validator
  import Money
  import Balances

  /** Every stored balance is a non-negative whole number of cents. */
  predicate BalancesSane(us: map<string, Usuario>)
  {
    forall c :: c in us ==> us[c].saldo >= 0.0 && Money.AtMostTwoDecimals(us[c].saldo)
  }

  /** What holds of the server's state between any two requests. */
  predicate Invariant(st: State)
  {
    && Consistent(st.db)
    && BalancesSane(st.db.usuarios)
    && Sessions.SingleSession(st.sessions)
  }

  lemma InitialStateIsSane()
    ensures Invariant(State(map[], Empty))
  {
  }

  // ---------------------------------------------------------------------------
  // Invariant preservation

  /** A balance write of a sane amount keeps the database sane. */
  lemma SaldoWriteKeepsSanity(db: Db, cpf: string, novo: real, fault: bool)
    requires Consistent(db) && BalancesSane(db.usuarios)
    requires novo >= 0.0 && Money.AtMostTwoDecimals(novo)
    ensures Consistent(UsuarioDao.AtualizarSaldo(db, cpf, novo, fault).db)
    ensures BalancesSane(UsuarioDao.AtualizarSaldo(db, cpf, novo, fault).db.usuarios)
  {
    UsuarioDao.WritesKeepConsistency(db, NewUsuario("", "", ""), cpf, JNull, novo, fault);
  }

  /** The facts `TransferGuards` establishes about the plan it returns. */
  predicate PlanFits(db: Db, p: TransferPlan)
  {
    && p.cpfEnviador in db.usuarios && db.usuarios[p.cpfEnviador] == p.enviador
    && p.cpfRecebedor in db.usuarios && db.usuarios[p.cpfRecebedor] == p.recebedor
    && p.cpfEnviador != p.cpfRecebedor
    && p.valor > 0.0 && Money.AtMostTwoDecimals(p.valor)
    && p.enviador.saldo >= p.valor
  }

  lemma GuardsYieldFittingPlan(node: Json, st: State)
    requires KeysMatch(st.db.usuarios)
    requires TransferGuards(node, st).Ok?
    ensures PlanFits(st.db, TransferGuards(node, st).value)
  {
  }

  /** The database `ExecuteTransfer` leaves: that of the first write that fails, else that of the last. */
  lemma ExecuteTransferStages(st: State, p: TransferPlan, env: Env)
    ensures var debit := UsuarioDao.AtualizarSaldo(st.db, p.cpfEnviador, p.enviador.saldo - p.valor, 0 in env.faults);
            var credit := UsuarioDao.AtualizarSaldo(debit.db, p.cpfRecebedor, p.recebedor.saldo + p.valor, 1 in env.faults);
            var rec := TransacaoDao.CriarTransacao(credit.db, p.cpfEnviador, p.cpfRecebedor, p.valor, env.now, 2 in env.faults);
            && ExecuteTransfer(st, p, env).st.db == (if !debit.ok then debit.db else if !credit.ok then credit.db else rec.db)
            && (StatusOf(ExecuteTransfer(st, p, env).reply) <==> debit.ok && credit.ok && rec.ok)
  {
  }

  /**
   * What each failing write of the as-written transfer leaves behind: nothing
   * when the debit fails; the sender debited when the credit fails; both
   * balances moved and no ledger entry when the append fails. Only when no
   * write fails does the reply report success.
   */
  lemma ExecuteTransferEffects(st: State, p: TransferPlan, env: Env)
    requires PlanFits(st.db, p)
    ensures var h := ExecuteTransfer(st, p, env);
            0 in env.faults ==> !StatusOf(h.reply) && h.st == st
    ensures var h := ExecuteTransfer(st, p, env);
            var us := st.db.usuarios;
            var s := p.cpfEnviador;
            0 !in env.faults && 1 in env.faults ==>
              && !StatusOf(h.reply) && h.st.db.transacoes == st.db.transacoes
              && h.st.db.usuarios == us[s := us[s].(saldo := us[s].saldo - p.valor)]
    ensures var h := ExecuteTransfer(st, p, env);
            var us := st.db.usuarios;
            var s, r := p.cpfEnviador, p.cpfRecebedor;
            0 !in env.faults && 1 !in env.faults && 2 in env.faults ==>
              && !StatusOf(h.reply) && h.st.db.transacoes == st.db.transacoes
              && h.st.db.usuarios == us[s := us[s].(saldo := us[s].saldo - p.valor)][r := us[r].(saldo := us[r].saldo + p.valor)]
    ensures 0 !in env.faults && 1 !in env.faults && 2 !in env.faults ==> StatusOf(ExecuteTransfer(st, p, env).reply)
  {
    ExecuteTransferStages(st, p, env);
  }

  /** Debiting a fitting plan's sender keeps the database sane. */
  lemma DebitKeepsSanity(db: Db, p: TransferPlan, fault: bool)
    requires Consistent(db) && BalancesSane(db.usuarios) && PlanFits(db, p)
    ensures var w := UsuarioDao.AtualizarSaldo(db, p.cpfEnviador, p.enviador.saldo - p.valor, fault);
            Consistent(w.db) && BalancesSane(w.db.usuarios)
  {
    Money.TwoDecimalsClosed(p.enviador.saldo, p.valor);
    SaldoWriteKeepsSanity(db, p.cpfEnviador, p.enviador.saldo - p.valor, fault);
  }

  /** Crediting a receiver whose old balance was sane keeps the database sane. */
  lemma CreditKeepsSanity(db: Db, p: TransferPlan, fault: bool)
    requires Consistent(db) && BalancesSane(db.usuarios)
    requires p.recebedor.saldo >= 0.0 && Money.AtMostTwoDecimals(p.recebedor.saldo)
    requires p.valor > 0.0 && Money.AtMostTwoDecimals(p.valor)
    ensures var w := UsuarioDao.AtualizarSaldo(db, p.cpfRecebedor, p.recebedor.saldo + p.valor, fault);
            Consistent(w.db) && BalancesSane(w.db.usuarios)
  {
    Money.TwoDecimalsClosed(p.recebedor.saldo, p.valor);
    SaldoWriteKeepsSanity(db, p.cpfRecebedor, p.recebedor.saldo + p.valor, fault);
  }

  /** The as-written transfer, wherever it stops, leaves a sane database. */
  lemma ExecuteTransferKeepsSanity(st: State, p: TransferPlan, env: Env)
    requires Consistent(st.db) && BalancesSane(st.db.usuarios) && PlanFits(st.db, p)
    ensures Consistent(ExecuteTransfer(st, p, env).st.db)
    ensures BalancesSane(ExecuteTransfer(st, p, env).st.db.usuarios)
  {
    ExecuteTransferStages(st, p, env);
    var debit := UsuarioDao.AtualizarSaldo(st.db, p.cpfEnviador, p.enviador.saldo - p.valor, 0 in env.faults);
    DebitKeepsSanity(st.db, p, 0 in env.faults);
    var credit := UsuarioDao.AtualizarSaldo(debit.db, p.cpfRecebedor, p.recebedor.saldo + p.valor, 1 in env.faults);
    CreditKeepsSanity(debit.db, p, 1 in env.faults);
    TransacaoDao.CriarTransacaoKeepsConsistency(credit.db, p.cpfEnviador, p.cpfRecebedor, p.valor, env.now, 2 in env.faults);
  }

  lemma TransferKeepsInvariant(node: Json, st: State, env: Env)
    requires Invariant(st)
    ensures Invariant(Transferir(node, st, env).st)
  {
    if TransferGuards(node, st).Ok? {
      GuardsYieldFittingPlan(node, st);
      ExecuteTransferKeepsSanity(st, TransferGuards(node, st).value, env);
    }
  }

  lemma DepositKeepsInvariant(node: Json, st: State, env: Env)
    requires Invariant(st)
    ensures Invariant(Depositar(node, st, env).st)
  {
    if DepositGuards(node, st).Ok? {
      var p := DepositGuards(node, st).value;
      assert p.usuario == st.db.usuarios[p.cpf];
      Money.TwoDecimalsClosed(p.usuario.saldo, p.valor);
      SaldoWriteKeepsSanity(st.db, p.cpf, p.usuario.saldo + p.valor, 0 in env.faults);
    }
  }

  lemma RegisterKeepsInvariant(node: Json, st: State, env: Env)
    requires Invariant(st)
    ensures Invariant(Cadastrar(node, st, env).st)
  {
    if Has(node, "nome") && Has(node, "cpf") && Has(node, "senha") {
      Money.PrecisionBoundary();
      var u := NewUsuario(AsText(node.fields["nome"]), AsText(node.fields["cpf"]), AsText(node.fields["senha"]));
      UsuarioDao.WritesKeepConsistency(st.db, u, "", JNull, 0.0, 0 in env.faults);
    }
  }

  lemma UpdateKeepsInvariant(node: Json, st: State, env: Env)
    requires Invariant(st)
    ensures Invariant(Atualizar(node, st, env).st)
  {
    if Caller(node, st).Some? && Has(node, "usuario") {
      var cpf := Caller(node, st).value;
      UsuarioDao.WritesKeepConsistency(st.db, NewUsuario("", "", ""), cpf, node.fields["usuario"], 0.0, 0 in env.faults);
    }
  }

  lemma DeleteKeepsInvariant(node: Json, st: State, env: Env)
    requires Invariant(st)
    ensures Invariant(Deletar(node, st, env).st)
  {
    if Caller(node, st).Some? {
      var cpf := Caller(node, st).value;
      UsuarioDao.WritesKeepConsistency(st.db, NewUsuario("", "", ""), cpf, JNull, 0.0, 0 in env.faults);
    }
  }

  lemma SessionHandlersKeepInvariant(node: Json, st: State, env: Env)
    requires Invariant(st) && Ready(st, env)
    ensures Invariant(Login(node, st, env).st)
    ensures Invariant(Logout(node, st).st)
  {
    var t := if Has(node, "token") then AsText(node.fields["token"]) else "";
    var cpf := if Has(node, "cpf") then AsText(node.fields["cpf"]) else "";
    Sessions.SingleSessionPreserved(st.sessions, cpf, env.uuid, t);
  }

  /** Every handler the dispatcher can select keeps the invariant. */
  lemma ProcessarOperacaoKeepsInvariant(root: Json, op: string, st: State, env: Env)
    requires Invariant(st) && Ready(st, env)
    ensures Invariant(ProcessarOperacao(root, op, st, env).st)
  {
    match op
    case "usuario_criar" => RegisterKeepsInvariant(root, st, env);
    case "usuario_login" => SessionHandlersKeepInvariant(root, st, env);
    case "usuario_logout" => SessionHandlersKeepInvariant(root, st, env);
    case "usuario_atualizar" => UpdateKeepsInvariant(root, st, env);
    case "usuario_deletar" => DeleteKeepsInvariant(root, st, env);
    case "depositar" => DepositKeepsInvariant(root, st, env);
    case "transacao_criar" => TransferKeepsInvariant(root, st, env);
    case _ =>
  }

  /**
   * Every request, whatever it holds and however the writes fail, leaves a
   * state where the schema's constraints hold, balances are non-negative
   * whole cents, and no cpf has two active sessions.
   */
  lemma StepKeepsInvariant(input: Option<Json>, st: State, env: Env)
    requires Invariant(st) && Ready(st, env)
    ensures Invariant(Step(input, st, env).st)
  {
    if input.Some? && Validator.ValidateClient(input.value).Pass? {
      ProcessarOperacaoKeepsInvariant(input.value, EchoedOperacao(input.value), st, env);
    }
  }

  // ---------------------------------------------------------------------------
  // Envelope and request checking

  /** Text that is not JSON gets a failure reply for operation "erro" and changes nothing. */
  lemma UnparseableInput(st: State, env: Env)
    requires Ready(st, env)
    ensures var h := Step(None, st, env);
            && OperacaoOf(h.reply) == "erro" && !StatusOf(h.reply)
            && InfoOf(h.reply) == SintaxeInvalida && h.st == st
  {
  }

  /** A request the schema check refuses gets a failure reply echoing its operation and changes nothing. */
  lemma RejectedRequestChangesNothing(root: Json, st: State, env: Env)
    requires Ready(st, env)
    requires Validator.ValidateClient(root).Fail?
    ensures var h := Step(Some(root), st, env);
            && !StatusOf(h.reply) && OperacaoOf(h.reply) == EchoedOperacao(root)
            && InfoOf(h.reply) == Validator.ValidateClient(root).msg
            && h.st == st
  {
  }

  lemma ErrorReplyPassesServerCheck(op: string, info: string)
    ensures Validator.ValidateServer(RespostaErro(op, info)).Pass?
  {
  }

  /**
   * The reply check never rejects what the handlers produce for an accepted
   * request, so the step's result is the handler's.
   */
  lemma ServerCheckAcceptsHandlerReplies(root: Json, st: State, env: Env)
    requires Ready(st, env)
    requires Validator.ValidateClient(root).Pass?
    ensures Validator.ValidateServer(ProcessarOperacao(root, EchoedOperacao(root), st, env).reply).Pass?
    ensures Step(Some(root), st, env) == ProcessarOperacao(root, EchoedOperacao(root), st, env)
  {
    assert EchoedOperacao(root) == root.fields["operacao"].s;
    HandlerReplyPasses(root, EchoedOperacao(root), st, env);
  }

  /**
   * The reply check accepts every handler's reply, failed ones of every
   * operation included, except a successful "depositar" or "conectar" reply,
   * for which it has no rule (see `SuccessfulDepositReplyIsRejected`).
   */
  lemma HandlerReplyPasses(root: Json, op: string, st: State, env: Env)
    requires Ready(st, env)
    requires op == "depositar" || op == "conectar" ==> !StatusOf(ProcessarOperacao(root, op, st, env).reply)
    ensures Validator.ValidateServer(ProcessarOperacao(root, op, st, env).reply).Pass?
  {
    var r := ProcessarOperacao(root, op, st, env).reply;
    if !StatusOf(r) {
      EnvelopePasses(r);
    } else if op == "usuario_login" {
      assert r == Login(root, st, env).reply;
      assert Validator.GetRequiredString(r, "token").Pass?;
      EnvelopePasses(r);
    } else if op == "usuario_ler" {
      assert r == Ler(root, st).reply;
      var u := r.fields["usuario"];
      assert Validator.GetRequiredObject(r, "usuario") == Ok(u);
      assert Validator.GetRequiredString(u, "cpf").Pass?;
      assert Validator.GetRequiredString(u, "nome").Pass?;
      assert Validator.GetRequiredNumber(u, "saldo").Pass?;
      EnvelopePasses(r);
    } else {
      EnvelopePasses(r);
    }
  }

  /** The reply check has no rule for a successful deposit or handshake reply. */
  lemma SuccessfulDepositReplyIsRejected(info: string)
    ensures Validator.ValidateServer(RespostaSucesso("depositar", info, NoExtra)).Fail?
    ensures Validator.ValidateServer(RespostaSucesso("conectar", info, NoExtra)).Fail?
  {
    assert Validator.RuleOf("depositar").None? && Validator.RuleOf("conectar").None?;
  }

  /**
   * On an envelope the reply check reduces to its per-operation rule, which
   * only a successful reply reaches.
   */
  lemma EnvelopePasses(r: Json)
    requires Envelope(r)
    requires StatusOf(r) ==> OperacaoOf(r) != "depositar" && OperacaoOf(r) != "conectar"
    requires StatusOf(r) && OperacaoOf(r) == "usuario_login" ==> Validator.GetRequiredString(r, "token").Pass?
    requires StatusOf(r) && OperacaoOf(r) == "usuario_ler" ==> Validator.ValidateUsuarioLerServer(r).Pass?
    requires StatusOf(r) ==> Validator.RuleOf(OperacaoOf(r)).Some? && OperacaoOf(r) != "transacao_ler"
    ensures Validator.ValidateServer(r).Pass?
  {
  }

  /**
   * The request check has no rule for "depositar" or "conectar", so through
   * the full step both are always refused and change nothing.
   */
  lemma DepositAndConnectAreRefused(root: Json, st: State, env: Env)
    requires Ready(st, env)
    requires Has(root, "operacao") && root.fields["operacao"] in {JStr("depositar"), JStr("conectar")}
    ensures var h := Step(Some(root), st, env);
            && !StatusOf(h.reply) && h.st == st
            && InfoOf(h.reply) == "Operação do cliente desconhecida ou não suportada: " + root.fields["operacao"].s
  {
  }

  // ---------------------------------------------------------------------------
  // Registration and login

  /** Registering a cpf that is already stored fails with "CPF já cadastrado" and writes nothing. */
  lemma RegisterDuplicateRejected(node: Json, st: State, env: Env)
    requires Has(node, "nome") && Has(node, "cpf") && Has(node, "senha")
    requires AsText(node.fields["cpf"]) in st.db.usuarios
    ensures var h := Cadastrar(node, st, env);
            !StatusOf(h.reply) && InfoOf(h.reply) == "CPF já cadastrado" && h.st == st
  {
  }

  /** A successful registration stores exactly the new user, with balance zero. */
  lemma RegisterStoresNewUser(node: Json, st: State, env: Env)
    requires StatusOf(Cadastrar(node, st, env).reply)
    ensures var h := Cadastrar(node, st, env);
            var cpf := AsText(node.fields["cpf"]);
            && h.st.db.usuarios == st.db.usuarios[cpf := Usuario(AsText(node.fields["nome"]), cpf, AsText(node.fields["senha"]), 0.0)]
            && h.st.db.transacoes == st.db.transacoes
            && Balances.Total(h.st.db.usuarios) == Balances.Total(st.db.usuarios)
  {
    var cpf := AsText(node.fields["cpf"]);
    Balances.TotalInsert(st.db.usuarios, cpf, NewUsuario(AsText(node.fields["nome"]), cpf, AsText(node.fields["senha"])));
  }

  /**
   * A successful login returns a token that validates to the cpf and is that
   * cpf's only active session; nobody else's sessions change.
   */
  lemma LoginIssuesSoleSession(node: Json, st: State, env: Env)
    requires Ready(st, env)
    requires StatusOf(Login(node, st, env).reply)
    ensures var h := Login(node, st, env);
            var cpf := AsText(node.fields["cpf"]);
            && Sessions.Validate(h.st.sessions, env.uuid) == Some(cpf)
            && Sessions.ActiveTokensOf(h.st.sessions, cpf) == {env.uuid}
            && (forall t :: t in st.sessions && st.sessions[t].cpf != cpf ==> h.st.sessions[t] == st.sessions[t])
  {
    Sessions.GenerateThenValidate(st.sessions, AsText(node.fields["cpf"]), env.uuid);
  }

  // ---------------------------------------------------------------------------
  // Authentication guard

  /** The operations that need a session. */
  predicate Guarded(op: string)
  {
    op in {"usuario_logout", "usuario_ler", "usuario_atualizar", "usuario_deletar", "depositar", "transacao_criar"}
  }

  /**
   * A token that does not validate gets "Token inválido ou expirado" from
   * every guarded operation, and users, ledger and sessions stay as they were.
   */
  lemma InvalidTokenChangesNothing(node: Json, op: string, st: State, env: Env)
    requires Ready(st, env) && Guarded(op)
    requires Has(node, "token") && Caller(node, st).None?
    ensures var h := ProcessarOperacao(node, op, st, env);
            && !StatusOf(h.reply) && InfoOf(h.reply) == TokenInvalido && h.st == st
  {
  }

  /** Deleting an account leaves its session active; reading the profile afterwards finds no user. */
  lemma DeletionKeepsSession(node: Json, st: State, env: Env)
    requires KeysMatch(st.db.usuarios)
    requires StatusOf(Deletar(node, st, env).reply)
    ensures var h := Deletar(node, st, env);
            && Caller(node, h.st) == Caller(node, st)
            && InfoOf(Ler(node, h.st).reply) == "Usuário não encontrado"
  {
  }

  // ---------------------------------------------------------------------------
  // Deposit

  /** Deposits reject non-positive amounts and amounts with more than two decimals, writing nothing. */
  lemma DepositRejectsBadAmounts(node: Json, st: State, env: Env)
    requires Caller(node, st).Some? && Has(node, "valor_enviado")
    requires var v := AsDouble(node.fields["valor_enviado"]); v <= 0.0 || !Money.AtMostTwoDecimals(v)
    ensures var h := Depositar(node, st, env);
            && !StatusOf(h.reply) && h.st == st
            && InfoOf(h.reply) == (if AsDouble(node.fields["valor_enviado"]) <= 0.0
                                   then "Valor do depósito deve ser positivo" else DuasCasas)
  {
  }

  /**
   * A successful deposit changes only the caller's balance, to the old
   * balance plus the amount; the total grows by exactly the amount and no
   * ledger entry is written.
   */
  lemma DepositCreditsCaller(node: Json, st: State, env: Env)
    requires KeysMatch(st.db.usuarios)
    requires StatusOf(Depositar(node, st, env).reply)
    ensures var h := Depositar(node, st, env);
            var cpf := Caller(node, st).value;
            var v := AsDouble(node.fields["valor_enviado"]);
            && cpf in st.db.usuarios
            && h.st.db.usuarios == st.db.usuarios[cpf := st.db.usuarios[cpf].(saldo := st.db.usuarios[cpf].saldo + v)]
            && Balances.Total(h.st.db.usuarios) == Balances.Total(st.db.usuarios) + v
            && h.st.db.transacoes == st.db.transacoes
  {
    var p := DepositGuards(node, st).value;
    var us := st.db.usuarios;
    var h := Depositar(node, st, env);
    assert h.st.db.usuarios == us[p.cpf := us[p.cpf].(saldo := us[p.cpf].saldo + p.valor)];
    Balances.TotalUpdate(us, p.cpf, us[p.cpf].(saldo := us[p.cpf].saldo + p.valor));
  }

  // ---------------------------------------------------------------------------
  // Transfer

  /** Every rejected transfer leaves balances, ledger and sessions unchanged. */
  lemma TransferRejectionsChangeNothing(node: Json, st: State, env: Env)
    requires TransferGuards(node, st).Err?
    ensures var h := Transferir(node, st, env);
            !StatusOf(h.reply) && InfoOf(h.reply) == TransferGuards(node, st).msg && h.st == st
  {
  }

  /**
   * The guards of a transfer, in order: a bad token wins over everything,
   * a non-positive amount over a self-transfer, a self-transfer over an
   * unknown sender, and insufficient funds over an unknown receiver.
   */
  lemma TransferGuardOrder(node: Json, st: State)
    requires Has(node, "token")
    ensures Caller(node, st).None? ==> TransferGuards(node, st) == Err(TokenInvalido)
    ensures Caller(node, st).Some? && Has(node, "valor") && Has(node, "cpf_destino")
            && AsDouble(node.fields["valor"]) <= 0.0
            ==> TransferGuards(node, st) == Err("Valor da transação deve ser positivo")
    ensures Caller(node, st).Some? && Has(node, "valor") && Has(node, "cpf_destino")
            && AsDouble(node.fields["valor"]) > 0.0 && Money.AtMostTwoDecimals(AsDouble(node.fields["valor"]))
            && AsText(node.fields["cpf_destino"]) == Caller(node, st).value
            ==> TransferGuards(node, st) == Err("Não é possível enviar dinheiro para si mesmo")
    ensures (&& Caller(node, st).Some? && Has(node, "valor") && Has(node, "cpf_destino")
             && AsDouble(node.fields["valor"]) > 0.0 && Money.AtMostTwoDecimals(AsDouble(node.fields["valor"]))
             && AsText(node.fields["cpf_destino"]) != Caller(node, st).value
             && Caller(node, st).value in st.db.usuarios
             && st.db.usuarios[Caller(node, st).value].saldo < AsDouble(node.fields["valor"]))
            ==> TransferGuards(node, st) == Err("Saldo insuficiente")
    ensures Caller(node, st).Some? && !(Has(node, "valor") && Has(node, "cpf_destino"))
            ==> TransferGuards(node, st) == Err("Campos valor e cpf_destino são obrigatórios")
    ensures Caller(node, st).Some? && Has(node, "valor") && Has(node, "cpf_destino")
            && AsDouble(node.fields["valor"]) > 0.0 && !Money.AtMostTwoDecimals(AsDouble(node.fields["valor"]))
            ==> TransferGuards(node, st) == Err(DuasCasas)
    ensures (&& Caller(node, st).Some? && Has(node, "valor") && Has(node, "cpf_destino")
             && AsDouble(node.fields["valor"]) > 0.0 && Money.AtMostTwoDecimals(AsDouble(node.fields["valor"]))
             && AsText(node.fields["cpf_destino"]) != Caller(node, st).value
             && Caller(node, st).value !in st.db.usuarios)
            ==> TransferGuards(node, st) == Err("Usuário enviador não encontrado")
    ensures (&& Caller(node, st).Some? && Has(node, "valor") && Has(node, "cpf_destino")
             && AsDouble(node.fields["valor"]) > 0.0 && Money.AtMostTwoDecimals(AsDouble(node.fields["valor"]))
             && AsText(node.fields["cpf_destino"]) != Caller(node, st).value
             && Caller(node, st).value in st.db.usuarios
             && st.db.usuarios[Caller(node, st).value].saldo >= AsDouble(node.fields["valor"])
             && AsText(node.fields["cpf_destino"]) !in st.db.usuarios)
            ==> TransferGuards(node, st) == Err("CPF de destino não encontrado")
  {
  }

  /**
   * A fitting plan, once all three writes succeed, moves exactly the amount
   * from sender to receiver and appends one matching ledger entry.
   */
  lemma ExecuteTransferSuccess(st: State, p: TransferPlan, env: Env)
    requires PlanFits(st.db, p)
    requires StatusOf(ExecuteTransfer(st, p, env).reply)
    ensures var h := ExecuteTransfer(st, p, env);
            var us := st.db.usuarios;
            var s, r := p.cpfEnviador, p.cpfRecebedor;
            && h.st.db.usuarios == us[s := us[s].(saldo := us[s].saldo - p.valor)][r := us[r].(saldo := us[r].saldo + p.valor)]
            && Balances.Total(h.st.db.usuarios) == Balances.Total(us)
            && |h.st.db.transacoes| == |st.db.transacoes| + 1
            && h.st.db.transacoes[..|st.db.transacoes|] == st.db.transacoes
            && var e := h.st.db.transacoes[|st.db.transacoes|];
               e.cpfEnviador == s && e.cpfRecebedor == r && e.valorEnviado == p.valor
               && e.criadoEm == env.now && e.atualizadoEm == env.now
  {
    ExecuteTransferStages(st, p, env);
    var us := st.db.usuarios;
    var s, r, v := p.cpfEnviador, p.cpfRecebedor, p.valor;
    var us1 := us[s := us[s].(saldo := us[s].saldo - v)];
    var us2 := us1[r := us[r].(saldo := us[r].saldo + v)];
    var debit := UsuarioDao.AtualizarSaldo(st.db, s, p.enviador.saldo - v, 0 in env.faults);
    assert debit.db.usuarios == us1;
    var credit := UsuarioDao.AtualizarSaldo(debit.db, r, p.recebedor.saldo + v, 1 in env.faults);
    assert credit.db.usuarios == us2;
    Balances.TotalUpdate(us, s, us1[s]);
    Balances.TotalUpdate(us1, r, us2[r]);
  }

  /**
   * A successful transfer debits the sender and credits the receiver by the
   * amount, changes no other user, preserves the sum of all balances, and
   * appends exactly one ledger entry (sender, receiver, amount).
   */
  lemma TransferConservesMoney(node: Json, st: State, env: Env)
    requires KeysMatch(st.db.usuarios)
    requires StatusOf(Transferir(node, st, env).reply)
    ensures TransferGuards(node, st).Ok?
    ensures var h := Transferir(node, st, env);
            var p := TransferGuards(node, st).value;
            var us := st.db.usuarios;
            && p.cpfEnviador in us && p.cpfRecebedor in us
            && h.st.db.usuarios[p.cpfEnviador].saldo == us[p.cpfEnviador].saldo - p.valor
            && h.st.db.usuarios[p.cpfRecebedor].saldo == us[p.cpfRecebedor].saldo + p.valor
            && (forall c :: c in us && c != p.cpfEnviador && c != p.cpfRecebedor ==> h.st.db.usuarios[c] == us[c])
            && h.st.db.usuarios.Keys == us.Keys
            && Balances.Total(h.st.db.usuarios) == Balances.Total(us)
            && |h.st.db.transacoes| == |st.db.transacoes| + 1
            && h.st.db.transacoes[..|st.db.transacoes|] == st.db.transacoes
            && var e := h.st.db.transacoes[|st.db.transacoes|];
               e.cpfEnviador == p.cpfEnviador && e.cpfRecebedor == p.cpfRecebedor && e.valorEnviado == p.valor
  {
    var p := TransferGuards(node, st).value;
    GuardsYieldFittingPlan(node, st);
    ExecuteTransferSuccess(st, p, env);
  }

  /** Transferring exactly the whole balance is accepted (the check is strict) and leaves the sender at zero. */
  lemma TransferWholeBalance(node: Json, st: State, env: Env)
    requires KeysMatch(st.db.usuarios) && env.faults == {}
    requires Caller(node, st).Some? && Caller(node, st).value in st.db.usuarios
    requires Has(node, "valor") && Has(node, "cpf_destino")
    requires var s := Caller(node, st).value;
             var r := AsText(node.fields["cpf_destino"]);
             && AsDouble(node.fields["valor"]) == st.db.usuarios[s].saldo
             && st.db.usuarios[s].saldo > 0.0 && Money.AtMostTwoDecimals(st.db.usuarios[s].saldo)
             && r != s && r in st.db.usuarios
    ensures var h := Transferir(node, st, env);
            StatusOf(h.reply) && h.st.db.usuarios[Caller(node, st).value].saldo == 0.0
  {
    assert TransferGuards(node, st).Ok?;
    TransferConservesMoney(node, st, env);
  }

  /** One cent more than the whole balance is refused for insufficient funds. */
  lemma TransferOneCentTooMuch(node: Json, st: State, env: Env)
    requires Caller(node, st).Some? && Caller(node, st).value in st.db.usuarios
    requires Has(node, "valor") && Has(node, "cpf_destino")
    requires var s := Caller(node, st).value;
             && AsDouble(node.fields["valor"]) == st.db.usuarios[s].saldo + 0.01
             && Money.AtMostTwoDecimals(st.db.usuarios[s].saldo)
             && st.db.usuarios[s].saldo >= 0.0
             && AsText(node.fields["cpf_destino"]) != s
    ensures var h := Transferir(node, st, env);
            !StatusOf(h.reply) && InfoOf(h.reply) == "Saldo insuficiente" && h.st == st
  {
    var s := Caller(node, st).value;
    Money.TwoDecimalsAreCents(0.01);
    Money.TwoDecimalsClosed(st.db.usuarios[s].saldo, 0.01);
  }

  /**
   * Through the full step a transfer can only succeed when the request
   * carries both the string `cpf` the request check demands and the
   * `cpf_destino` the handler reads; when it does, money is conserved.
   */
  lemma StepTransferConservesMoney(root: Json, st: State, env: Env)
    requires Ready(st, env) && KeysMatch(st.db.usuarios)
    requires Has(root, "operacao") && root.fields["operacao"] == JStr("transacao_criar")
    requires StatusOf(Step(Some(root), st, env).reply)
    ensures Has(root, "cpf") && root.fields["cpf"].JStr? && Has(root, "cpf_destino")
    ensures Balances.Total(Step(Some(root), st, env).st.db.usuarios) == Balances.Total(st.db.usuarios)
    ensures |Step(Some(root), st, env).st.db.transacoes| == |st.db.transacoes| + 1
  {
    assert Validator.ValidateClient(root).Pass?;
    ServerCheckAcceptsHandlerReplies(root, st, env);
    TransferConservesMoney(root, st, env);
  }
}
