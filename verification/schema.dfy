/**
 * A declarative request schema (operation -> ordered list of field
 * requirements) evaluated generically, and the proof that the bespoke
 * per-operation checks of `Validator` decide exactly the same thing, with the
 * same first error message.
 */
module Schema {
  import opened Wrappers
  import opened JsonTree
  import opened Validator

  datatype Kind =
    | KString
    | KNumber
    | KInt
    | KObjectWithNomeOrSenha   // an object holding `nome` or `senha`

  datatype FieldRule = FieldRule(name: string, kind: Kind)

  /** The table of required request fields, in the order they are checked. */
  function ClientSchema(r: Rule): seq<FieldRule>
  {
    match r
    case UsuarioLogin => [FieldRule("cpf", KString), FieldRule("senha", KString)]
    case UsuarioLogout => [FieldRule("token", KString)]
    case UsuarioCriar => [FieldRule("nome", KString), FieldRule("cpf", KString), FieldRule("senha", KString)]
    case UsuarioLer => [FieldRule("token", KString)]
    case UsuarioAtualizar => [FieldRule("token", KString), FieldRule("usuario", KObjectWithNomeOrSenha)]
    case UsuarioDeletar => [FieldRule("token", KString)]
    case TransacaoCriar => [FieldRule("token", KString), FieldRule("cpf", KString), FieldRule("valor", KNumber)]
    case TransacaoLer => [FieldRule("token", KString), FieldRule("pagina", KInt), FieldRule("limite", KInt)]
  }

  /** What it means for a node to meet one requirement, stated on the tree alone. */
  predicate FieldConforms(node: Json, f: FieldRule)
  {
    && Has(node, f.name)
    && var v := node.fields[f.name];
       match f.kind
       case KString => v.JStr?
       case KNumber => v.JInt? || v.JNum?
       case KInt => v.JInt? && IntMin <= v.i <= IntMax
       case KObjectWithNomeOrSenha => v.JObj? && ("nome" in v.fields || "senha" in v.fields)
  }

  predicate Conforms(node: Json, fs: seq<FieldRule>)
  {
    forall k :: 0 <= k < |fs| ==> FieldConforms(node, fs[k])
  }

  /** Checking one requirement, with the validator's message on failure. */
  function CheckField(node: Json, f: FieldRule): (r: Outcome)
    ensures r.Pass? <==> FieldConforms(node, f)
  {
    match f.kind
    case KString => GetRequiredString(node, f.name)
    case KNumber => GetRequiredNumber(node, f.name)
    case KInt => GetRequiredInt(node, f.name)
    case KObjectWithNomeOrSenha =>
      match GetRequiredObject(node, f.name)
      case Err(m) => Fail(m)
      case Ok(u) =>
        if !Has(u, "nome") && !Has(u, "senha") then
          Fail("O objeto 'usuario' para atualização deve conter pelo menos o campo 'nome' ou 'senha'.")
        else Pass
  }

  /** The generic evaluator: requirements in order, the first failure wins. */
  function CheckAll(node: Json, fs: seq<FieldRule>): (r: Outcome)
    ensures r.Pass? <==> Conforms(node, fs)
  {
    if fs == [] then Pass
    else
      var rest := CheckAll(node, fs[1..]);
      assert forall k :: 1 <= k < |fs| ==> fs[k] == fs[1..][k - 1];
      Then(CheckField(node, fs[0]), rest)
  }

  /** Each per-operation check of `validateClient` is the table's row, evaluated generically. */
  lemma ClientRuleIsTableDriven(rule: Rule, node: Json)
    ensures ValidateClientRule(rule, node) == CheckAll(node, ClientSchema(rule))
  {
    var fs := ClientSchema(rule);
    match rule
    case UsuarioCriar =>
      assert fs[1..][1..][1..] == [];
      assert CheckAll(node, fs[1..][1..]) == GetRequiredString(node, "senha");
      assert CheckAll(node, fs[1..]) == Then(GetRequiredString(node, "cpf"), GetRequiredString(node, "senha"));
    case TransacaoCriar =>
      assert fs[1..][1..][1..] == [];
      assert CheckAll(node, fs[1..][1..]) == GetRequiredNumber(node, "valor");
      assert CheckAll(node, fs[1..]) == Then(GetRequiredString(node, "cpf"), GetRequiredNumber(node, "valor"));
    case TransacaoLer =>
      assert fs[1..][1..][1..] == [];
      assert CheckAll(node, fs[1..][1..]) == GetRequiredInt(node, "limite");
      assert CheckAll(node, fs[1..]) == Then(GetRequiredInt(node, "pagina"), GetRequiredInt(node, "limite"));
    case UsuarioLogin =>
      assert fs[1..][1..] == [];
      assert CheckAll(node, fs[1..]) == GetRequiredString(node, "senha");
    case UsuarioAtualizar =>
      assert fs[1..][1..] == [];
      assert CheckAll(node, fs[1..]) == CheckField(node, fs[1]);
    case _ =>
      assert fs[1..] == [];
  }

  /**
   * `validateClient` accepts exactly the messages with a known string
   * `operacao` whose fields meet that operation's row of the table.
   */
  lemma ValidateClientMatchesSchema(root: Json)
    ensures ValidateClient(root).Pass? <==>
      && Has(root, "operacao") && root.fields["operacao"].JStr?
      && RuleOf(root.fields["operacao"].s).Some?
      && Conforms(root, ClientSchema(RuleOf(root.fields["operacao"].s).value))
  {
    if Has(root, "operacao") && root.fields["operacao"].JStr? && RuleOf(root.fields["operacao"].s).Some? {
      ClientRuleIsTableDriven(RuleOf(root.fields["operacao"].s).value, root);
    }
  }

  /** A request whose `operacao` is missing, JSON null or not a string is rejected. */
  lemma OperacaoMustBeString(root: Json)
    requires !Has(root, "operacao") || !root.fields["operacao"].JStr?
    ensures ValidateClient(root).Fail?
  {
  }
}
