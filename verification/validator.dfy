/**
 * `Validator`: declarative shape checks on the JSON tree of a client request
 * and of a server reply. A check passes, or fails with the message of the
 * IllegalArgumentException the Java code throws.
 */
module Validator {
  import opened Wrappers
  import opened JsonTree

  /** The operations `RulesEnum` names in the validator's switches. */
  datatype Rule =
    | UsuarioLogin | UsuarioLogout | UsuarioCriar | UsuarioLer
    | UsuarioAtualizar | UsuarioDeletar | TransacaoCriar | TransacaoLer

  /** The wire name of each operation. */
  function RuleName(r: Rule): string
  {
    match r
    case UsuarioLogin => "usuario_login"
    case UsuarioLogout => "usuario_logout"
    case UsuarioCriar => "usuario_criar"
    case UsuarioLer => "usuario_ler"
    case UsuarioAtualizar => "usuario_atualizar"
    case UsuarioDeletar => "usuario_deletar"
    case TransacaoCriar => "transacao_criar"
    case TransacaoLer => "transacao_ler"
  }

  /** `RulesEnum.getEnum`: the operation with that wire name, if any. */
  function RuleOf(name: string): (r: Option<Rule>)
    ensures r.Some? ==> RuleName(r.value) == name
  {
    match name
    case "usuario_login" => Some(UsuarioLogin)
    case "usuario_logout" => Some(UsuarioLogout)
    case "usuario_criar" => Some(UsuarioCriar)
    case "usuario_ler" => Some(UsuarioLer)
    case "usuario_atualizar" => Some(UsuarioAtualizar)
    case "usuario_deletar" => Some(UsuarioDeletar)
    case "transacao_criar" => Some(TransacaoCriar)
    case "transacao_ler" => Some(TransacaoLer)
    case _ => None
  }

  /** Name and lookup are inverse: every operation is found under its own name. */
  lemma RuleNameRoundTrip(r: Rule)
    ensures RuleOf(RuleName(r)) == Some(r)
  {
  }

  // ---------------------------------------------------------------------------
  // Helpers

  /** `getRequiredField`: present and not JSON null. */
  function GetRequiredField(parent: Json, name: string): (r: Result<Json>)
    ensures r.Ok? <==> Has(parent, name) && !IsNull(parent.fields[name])
    ensures r.Ok? ==> r.value == parent.fields[name]
  {
    if Has(parent, name) && !IsNull(parent.fields[name]) then Ok(parent.fields[name])
    else Err("O campo obrigatório '" + name + "' não foi encontrado ou é nulo.")
  }

  /** `getRequiredString`: present and a string (so a JSON null counts as missing). */
  function GetRequiredString(parent: Json, name: string): (r: Outcome)
    ensures r.Pass? <==> Has(parent, name) && parent.fields[name].JStr?
  {
    match GetRequiredField(parent, name)
    case Err(m) => Fail(m)
    case Ok(f) => if IsTextual(f) then Pass else Fail("O campo '" + name + "' deve ser do tipo String.")
  }

  /** `getRequiredNumber`: present and numeric, integer or not. */
  function GetRequiredNumber(parent: Json, name: string): (r: Outcome)
    ensures r.Pass? <==> Has(parent, name) && (parent.fields[name].JInt? || parent.fields[name].JNum?)
  {
    match GetRequiredField(parent, name)
    case Err(m) => Fail(m)
    case Ok(f) => if IsNumber(f) then Pass else Fail("O campo '" + name + "' deve ser do tipo numérico (int, double, etc).")
  }

  /** `getRequiredInt`: present and an integer literal within Java's `int` range. */
  function GetRequiredInt(parent: Json, name: string): (r: Outcome)
    ensures r.Pass? <==> Has(parent, name) && parent.fields[name].JInt?
                         && IntMin <= parent.fields[name].i <= IntMax
  {
    match GetRequiredField(parent, name)
    case Err(m) => Fail(m)
    case Ok(f) => if IsInt(f) then Pass else Fail("O campo '" + name + "' deve ser do tipo int.")
  }

  /** `getRequiredObject`: present and an object, which is returned. */
  function GetRequiredObject(parent: Json, name: string): (r: Result<Json>)
    ensures r.Ok? <==> Has(parent, name) && parent.fields[name].JObj?
    ensures r.Ok? ==> r.value == parent.fields[name]
  {
    match GetRequiredField(parent, name)
    case Err(m) => Err(m)
    case Ok(f) => if IsObject(f) then Ok(f) else Err("O campo '" + name + "' deve ser um objeto JSON (ex: { ... }).")
  }

  /** `getRequiredArray`: present and an array, which is returned. */
  function GetRequiredArray(parent: Json, name: string): (r: Result<Json>)
    ensures r.Ok? <==> Has(parent, name) && parent.fields[name].JArr?
    ensures r.Ok? ==> r.value == parent.fields[name]
  {
    match GetRequiredField(parent, name)
    case Err(m) => Err(m)
    case Ok(f) => if IsArray(f) then Ok(f) else Err("O campo '" + name + "' deve ser um array JSON (ex: [ ... ]).")
  }

  // ---------------------------------------------------------------------------
  // Client -> server

  /** `validateUsuarioAtualizarClient`: a string token and a non-empty `usuario` object. */
  function ValidateUsuarioAtualizarClient(node: Json): (r: Outcome)
    ensures r.Pass? <==>
      && Has(node, "token") && node.fields["token"].JStr?
      && Has(node, "usuario") && node.fields["usuario"].JObj?
      && (Has(node.fields["usuario"], "nome") || Has(node.fields["usuario"], "senha"))
  {
    Then(GetRequiredString(node, "token"),
      match GetRequiredObject(node, "usuario")
      case Err(m) => Fail(m)
      case Ok(u) =>
        if !Has(u, "nome") && !Has(u, "senha") then
          Fail("O objeto 'usuario' para atualização deve conter pelo menos o campo 'nome' ou 'senha'.")
        else Pass)
  }

  /** The per-operation request check the switch of `validateClient` selects. */
  function ValidateClientRule(rule: Rule, node: Json): Outcome
  {
    match rule
    case UsuarioLogin => Then(GetRequiredString(node, "cpf"), GetRequiredString(node, "senha"))
    case UsuarioLogout => GetRequiredString(node, "token")
    case UsuarioCriar =>
      Then(GetRequiredString(node, "nome"), Then(GetRequiredString(node, "cpf"), GetRequiredString(node, "senha")))
    case UsuarioLer => GetRequiredString(node, "token")
    case UsuarioAtualizar => ValidateUsuarioAtualizarClient(node)
    case UsuarioDeletar => GetRequiredString(node, "token")
    case TransacaoCriar =>
      Then(GetRequiredString(node, "token"), Then(GetRequiredString(node, "cpf"), GetRequiredNumber(node, "valor")))
    case TransacaoLer =>
      Then(GetRequiredString(node, "token"), Then(GetRequiredInt(node, "pagina"), GetRequiredInt(node, "limite")))
  }

  /** `validateClient`, on an already parsed message. */
  function ValidateClient(root: Json): (r: Outcome)
    ensures r.Pass? ==> Has(root, "operacao") && root.fields["operacao"].JStr?
                        && RuleOf(root.fields["operacao"].s).Some?
  {
    match GetRequiredField(root, "operacao")
    case Err(m) => Fail(m)
    case Ok(op) =>
      if !IsTextual(op) then Fail("O campo 'operacao' deve ser uma String.")
      else
        match RuleOf(op.s)
        case None => Fail("Operação do cliente desconhecida ou não suportada: " + op.s)
        case Some(rule) => ValidateClientRule(rule, root)
  }

  // ---------------------------------------------------------------------------
  // Server -> client

  /** `validateUsuarioLerServer`: the user object, with its password left out. */
  function ValidateUsuarioLerServer(node: Json): (r: Outcome)
    ensures r.Pass? <==>
      && Has(node, "usuario") && node.fields["usuario"].JObj?
      && var u := node.fields["usuario"];
         && Has(u, "cpf") && u.fields["cpf"].JStr?
         && Has(u, "nome") && u.fields["nome"].JStr?
         && Has(u, "saldo") && IsNumber(u.fields["saldo"])
         && !Has(u, "senha")
  {
    match GetRequiredObject(node, "usuario")
    case Err(m) => Fail(m)
    case Ok(u) =>
      Then(GetRequiredString(u, "cpf"),
      Then(GetRequiredString(u, "nome"),
      Then(GetRequiredNumber(u, "saldo"),
        if Has(u, "senha") then Fail("A resposta do servidor para 'usuario_ler' não deve conter o campo 'senha'.")
        else Pass)))
  }

  /** A sender or receiver inside a listed transaction: an object with string `nome` and `cpf`. */
  predicate PartyShape(p: Json)
  {
    p.JObj? && Has(p, "nome") && p.fields["nome"].JStr? && Has(p, "cpf") && p.fields["cpf"].JStr?
  }

  /** The checks on one element of a `transacoes` array. */
  function ValidateTransacaoItem(t: Json): (r: Outcome)
    ensures r.Pass? <==>
      && Has(t, "id") && IsInt(t.fields["id"])
      && Has(t, "valor_enviado") && IsNumber(t.fields["valor_enviado"])
      && Has(t, "usuario_enviador") && PartyShape(t.fields["usuario_enviador"])
      && Has(t, "usuario_recebedor") && PartyShape(t.fields["usuario_recebedor"])
  {
    Then(GetRequiredInt(t, "id"),
    Then(GetRequiredNumber(t, "valor_enviado"),
      match GetRequiredObject(t, "usuario_enviador")
      case Err(m) => Fail(m)
      case Ok(s) =>
        Then(GetRequiredString(s, "nome"),
        Then(GetRequiredString(s, "cpf"),
          match GetRequiredObject(t, "usuario_recebedor")
          case Err(m) => Fail(m)
          case Ok(r) => Then(GetRequiredString(r, "nome"), GetRequiredString(r, "cpf"))))))
  }

  /** The loop of `validateTransacaoLerServer`: the first element that fails decides. */
  function ValidateTransacaoItems(items: seq<Json>): (r: Outcome)
    ensures r.Pass? <==> forall k :: 0 <= k < |items| ==> ValidateTransacaoItem(items[k]).Pass?
    ensures r.Fail? ==> exists k :: 0 <= k < |items| && r == ValidateTransacaoItem(items[k])
  {
    if items == [] then Pass
    else
      var rest := ValidateTransacaoItems(items[1..]);
      assert forall k :: 1 <= k < |items| ==> items[k] == items[1..][k - 1];
      Then(ValidateTransacaoItem(items[0]), rest)
  }

  /** `validateTransacaoLerServer`: an array whose every element is a well-formed transaction. */
  function ValidateTransacaoLerServer(node: Json): (r: Outcome)
    ensures r.Pass? <==>
      && Has(node, "transacoes") && node.fields["transacoes"].JArr?
      && forall k :: 0 <= k < |node.fields["transacoes"].items| ==>
           ValidateTransacaoItem(node.fields["transacoes"].items[k]).Pass?
  {
    match GetRequiredArray(node, "transacoes")
    case Err(m) => Fail(m)
    case Ok(a) => ValidateTransacaoItems(a.items)
  }

  /** `validateServer`, on an already built reply. */
  function ValidateServer(root: Json): (r: Outcome)
    ensures r.Pass? ==> && Has(root, "operacao") && root.fields["operacao"].JStr?
                        && Has(root, "status") && root.fields["status"].JBool?
                        && Has(root, "info") && !root.fields["info"].JNull?
  {
    match GetRequiredField(root, "operacao")
    case Err(m) => Fail(m)
    case Ok(op) =>
      if !IsTextual(op) then Fail("O campo 'operacao' na resposta do servidor deve ser uma String.")
      else match GetRequiredField(root, "status")
      case Err(m) => Fail(m)
      case Ok(status) =>
        if !IsBoolean(status) then Fail("O campo 'status' na resposta do servidor deve ser um booleano (true/false).")
        else match GetRequiredField(root, "info")
        case Err(m) => Fail(m)
        case Ok(_) =>
          if !status.b then Pass
          else match RuleOf(op.s)
          case None => Fail("Operação do servidor desconhecida ou não suportada: " + op.s)
          case Some(UsuarioLogin) => GetRequiredString(root, "token")
          case Some(UsuarioLer) => ValidateUsuarioLerServer(root)
          case Some(TransacaoLer) => ValidateTransacaoLerServer(root)
          case Some(_) => Pass
  }

  // ---------------------------------------------------------------------------
  // Properties

  /** A reply with `status` false needs nothing beyond the three envelope fields. */
  lemma FailedReplyNeedsOnlyEnvelope(root: Json)
    requires Has(root, "status") && root.fields["status"] == JBool(false)
    ensures ValidateServer(root).Pass? <==>
      && Has(root, "operacao") && root.fields["operacao"].JStr?
      && Has(root, "info") && !root.fields["info"].JNull?
  {
  }

  /** An accepted `usuario_ler` success carries cpf, nome and saldo and never the password. */
  lemma ReadReplyShape(root: Json)
    requires ValidateServer(root).Pass?
    requires root.fields["operacao"] == JStr("usuario_ler") && root.fields["status"] == JBool(true)
    ensures Has(root, "usuario") && root.fields["usuario"].JObj?
    ensures var u := root.fields["usuario"];
            && Has(u, "cpf") && u.fields["cpf"].JStr?
            && Has(u, "nome") && u.fields["nome"].JStr?
            && Has(u, "saldo") && IsNumber(u.fields["saldo"])
            && !Has(u, "senha")
  {
  }

  /** An accepted `transacao_ler` success lists only well-formed transactions. */
  lemma TransactionListReplyShape(root: Json, k: int)
    requires ValidateServer(root).Pass?
    requires root.fields["operacao"] == JStr("transacao_ler") && root.fields["status"] == JBool(true)
    ensures Has(root, "transacoes") && root.fields["transacoes"].JArr?
    ensures var items := root.fields["transacoes"].items;
            0 <= k < |items| ==>
              && IsInt(items[k].fields["id"])
              && IsNumber(items[k].fields["valor_enviado"])
              && items[k].fields["usuario_enviador"].JObj?
              && items[k].fields["usuario_enviador"].fields["nome"].JStr?
              && items[k].fields["usuario_enviador"].fields["cpf"].JStr?
              && items[k].fields["usuario_recebedor"].JObj?
              && items[k].fields["usuario_recebedor"].fields["nome"].JStr?
              && items[k].fields["usuario_recebedor"].fields["cpf"].JStr?
  {
    var items := root.fields["transacoes"].items;
    if 0 <= k < |items| {
      assert ValidateTransacaoItem(items[k]).Pass?;
    }
  }
}
