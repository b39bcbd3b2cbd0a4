# Banking demo server: session store, request dispatcher and protocol validator

A Dafny model of the server core of a small client/server banking demo. Clients
send one JSON request per line; the server checks its shape, authenticates the
caller by an opaque session token, applies business rules and answers with a
JSON envelope `{operacao, status, info, ...}`. The model covers:

- the **session store** (`autenticador/Token.java`): token -> (cpf, ativo), one
  active session per cpf, deactivation instead of removal (`sessions.dfy`);
- the **user record** and the **two tables** `usuarios` / `transacoes` with their
  schema constraints (primary key, foreign keys with ON DELETE CASCADE,
  AUTOINCREMENT ids) (`usuario.dfy`, `database.dfy`, `balances.dfy`);
- the **DAOs** `UsuarioDAO` and `TransacaoDAO` as pure map/sequence updates with
  frame conditions (`usuario_dao.dfy`, `transacao_dao.dfy`);
- the **protocol validator** over an inductive JSON tree, and a table-driven
  schema proved to agree with it (`json.dfy`, `validator.dfy`, `schema.dfy`);
- the **request dispatcher** `ProcessadorMensagens`: a pure step
  `(request, sessions, database, env) -> (reply, sessions', database')` with all
  eight handlers, their guard chains and their failure paths (`dispatcher.dfy`),
  and its properties (`dispatcher_properties.dfy`, `transfer_atomicity.dfy`).

Modelling choices:

- Money is an exact Dafny `real`; "at most two decimals" is "`valor * 100` is a
  whole number" (`Money.AtMostTwoDecimals`).
- JSON integer literals (`JInt`) and other numbers (`JNum`) are distinct, because
  the validator distinguishes `isInt` (a Java `int`) from `isNumber`.
- The nondeterministic inputs are parameters in `Dispatcher.Env`: the UUID a login
  would issue (required to be unused and non-blank, as a random UUID is), the
  `Instant.now()` text written into a ledger entry, and the set of DAO writes of
  this request whose SQL statement throws (position 0 is the first write).
- `RulesEnum` is not part of this model. `Validator.RuleOf` maps the eight names
  the validator's switches mention to their case and every other name to "unknown",
  which takes the switch's default branch.

Behaviour of the code worth knowing:

- A deposit writes no ledger entry; it only updates the balance.
- The transfer's writes are not atomic (see Findings).
- Registration refuses only a cpf that is already stored; it checks the format of no field.
- `Validator.java` has no rule for `depositar` or `conectar`, so through the full
  step both are always refused (`DispatcherProperties.DepositAndConnectAreRefused`).
  Their handlers are still modelled and proved on their own.
- For `transacao_criar` the validator demands a string `cpf`, while the handler
  reads `cpf_destino`; a transfer succeeds only when both are present
  (`DispatcherProperties.StepTransferConservesMoney`).
- `transacao_ler` passes the validator but the dispatcher answers "Operação ainda
  não implementada".

## Model

| member | source | states |
|---|---|---|
| Sessions.InvalidateByCpf | src/main/java/autenticador/Token.java:96-103 | every token of the cpf ends up inactive, tokens of other cpfs are untouched, no token is removed or changes owner |
| Sessions.Generate | src/main/java/autenticador/Token.java:30-40 | the new token is the cpf's only active session; the key set grows by exactly that token; other cpfs' tokens are unchanged |
| Sessions.Validate | src/main/java/autenticador/Token.java:45-69 | total: yields a cpf exactly when the token is non-blank, stored and active, and then the token is an active token of that cpf |
| Sessions.CpfHasActiveToken | src/main/java/autenticador/Token.java:75-78 | true iff the cpf owns at least one active token |
| Sessions.Invalidate | src/main/java/autenticador/Token.java:83-91 | reports true iff the token was active; afterwards it is inactive; other entries and the key set are unchanged; on false nothing changes |
| Sessions.CountActive | src/main/java/autenticador/Token.java:108-112 | the count equals the number of entries whose flag is active |
| Sessions.GenerateThenValidate | src/main/java/autenticador/Token.java:30-63 | right after issuing, the token validates to its cpf and the cpf has an active token |
| Sessions.InvalidateByCpfEndsSessions | src/main/java/autenticador/Token.java:75-103 | after invalidating by cpf, the cpf has no active token and none of its tokens validates |
| Sessions.SecondLoginSupersedesFirst | src/main/java/autenticador/Token.java:30-36 | a second login of the same cpf makes the first token stop validating while the second validates |
| Sessions.InvalidateIdempotent | src/main/java/autenticador/Token.java:83-91 | a second logout of a token reports false and changes nothing; the token no longer validates |
| Sessions.SingleSessionPreserved | src/main/java/autenticador/Token.java:30-103 | issuing and revoking keep "no cpf owns two active tokens" |
| Usuarios.NewUsuario | src/main/java/modelo/Usuario.java:13-18 | the three-argument constructor keeps nome, cpf, senha and starts the balance at zero |
| Usuarios.LoadedUsuario | src/main/java/modelo/Usuario.java:21-26 | the four-argument constructor keeps every argument, the balance unchanged |
| Usuarios.SettersTouchOnlyTheirField | src/main/java/modelo/Usuario.java:29-52 | each setter changes only its own field, and the getters return what was last set |
| Money.TwoDecimalsAreCents | src/main/java/servidor/ProcessadorMensagens.java:446-453 | `AtMostTwoDecimals`, the two-decimal check, accepts an amount iff it is a whole number of cents |
| Money.TwoDecimalsClosed | src/main/java/servidor/ProcessadorMensagens.java:316 | in the exact-decimal model, sums and differences of whole cents stay whole cents, so balances never gain a third decimal |
| Money.PrecisionBoundary | src/main/java/servidor/ProcessadorMensagens.java:446-453 | 10.99 passes and 10.999 is rejected |
| Balances.TotalUpdate | src/main/java/dao/UsuarioDAO.java:147-161 | overwriting one user's row changes the sum of balances by exactly the difference of the two balances |
| Database.Cascade | src/main/java/database/BancoDados.java:41-42 | the ledger after a cascading delete holds exactly the entries not mentioning the cpf, keeps their order and their increasing ids |
| Database.EmptyIsConsistent | src/main/java/database/BancoDados.java:27-43 | the freshly created schema satisfies its own constraints |
| UsuarioDao.BuscarPorCpf | src/main/java/dao/UsuarioDAO.java:71-93 | returns a row iff the cpf is stored, and that row is the stored record |
| UsuarioDao.CpfExiste | src/main/java/dao/UsuarioDAO.java:13-27 | true iff `buscarPorCpf` finds the cpf |
| UsuarioDao.ValidarLogin | src/main/java/dao/UsuarioDAO.java:50-68 | true iff the cpf is stored and its password equals the given one exactly |
| UsuarioDao.Salvar | src/main/java/dao/UsuarioDAO.java:30-47 | succeeds iff the cpf is new and the insert does not throw; then the user is findable and no other row changes; on failure nothing changes |
| UsuarioDao.Atualizar | src/main/java/dao/UsuarioDAO.java:95-145 | false for an unknown cpf or an update with neither field; otherwise only the supplied nome/senha change, cpf and balance stay |
| UsuarioDao.AtualizarSaldo | src/main/java/dao/UsuarioDAO.java:147-161 | changes only the balance of the given cpf; false and no change when no row matches |
| UsuarioDao.Deletar | src/main/java/dao/UsuarioDAO.java:163-177 | true iff a row was removed; afterwards the cpf does not exist and the ledger has lost exactly the entries mentioning it |
| UsuarioDao.WritesKeepConsistency | src/main/java/database/BancoDados.java:27-43 | every user-table write keeps primary key, foreign keys and id ordering |
| TransacaoDao.CriarTransacao | src/main/java/dao/TransacaoDAO.java:9-29 | appends exactly one entry with the given amount and cpfs, both timestamps equal, an id above every existing id; fails without change on a foreign-key violation or an SQL error |
| TransacaoDao.CriarTransacaoKeepsConsistency | src/main/java/database/BancoDados.java:34-43 | appending keeps foreign keys and AUTOINCREMENT ordering |
| Validator.RuleNameRoundTrip | Validator.java:30-60 | every operation of the switch is found under its own wire name |
| Validator.GetRequiredField | Validator.java:207-212 | succeeds iff the field is present and not JSON null, returning it |
| Validator.GetRequiredString | Validator.java:214-219 | passes iff the field is present and a string, so a JSON null counts as missing |
| Validator.GetRequiredNumber | Validator.java:221-226 | passes iff the field is present and numeric, integer or not |
| Validator.GetRequiredInt | Validator.java:228-233 | passes iff the field is an integer literal within Java's int range |
| Validator.GetRequiredObject | Validator.java:235-241 | succeeds iff the field is an object, returning it |
| Validator.GetRequiredArray | Validator.java:243-249 | succeeds iff the field is an array, returning it |
| Validator.ValidateClient | Validator.java:20-61 | an accepted request has a string `operacao` naming a known operation |
| Validator.ValidateUsuarioAtualizarClient | Validator.java:136-143 | an update request passes iff it has a string token and a `usuario` object holding `nome` or `senha` |
| Validator.ValidateUsuarioLerServer | Validator.java:170-178 | a read reply passes iff its `usuario` object has string cpf and nome, a numeric saldo and no senha |
| Validator.ValidateTransacaoItem | Validator.java:184-191 | one listed transaction passes iff it has an int id, a numeric amount, and sender and receiver objects with string nome and cpf |
| Validator.ValidateTransacaoLerServer | Validator.java:180-193 | a list reply passes iff `transacoes` is an array and every element passes |
| Validator.ValidateTransacaoItems | Validator.java:180-193 | the array passes iff every element passes; a failure is the failure of some element |
| Validator.ValidateServer | Validator.java:69-111 | an accepted reply has string `operacao`, boolean `status` and a present `info` |
| Validator.FailedReplyNeedsOnlyEnvelope | Validator.java:83-89 | when `status` is false no operation-specific check runs |
| Validator.ReadReplyShape | Validator.java:170-178 | an accepted `usuario_ler` success carries an object with string cpf and nome, numeric saldo, and no senha |
| Validator.TransactionListReplyShape | Validator.java:180-193 | every element of an accepted `transacoes` array has int id, numeric valor_enviado and sender/receiver objects with string nome and cpf |
| Schema.CheckField | Validator.java:117-159 | one generic field check passes iff the node meets the declarative requirement |
| Schema.CheckAll | Validator.java:117-159 | the generic evaluator passes iff every requirement of the row holds |
| Schema.ClientRuleIsTableDriven | Validator.java:117-159 | each per-operation request check `ValidateClientRule` equals the table's row evaluated generically, first error message included |
| Schema.ValidateClientMatchesSchema | Validator.java:20-61 | a request is accepted iff its `operacao` is a known string and its fields meet that operation's row of the table |
| Schema.OperacaoMustBeString | Validator.java:24-27 | a missing, null or non-string `operacao` is rejected |
| Dispatcher.ExtraFields | src/main/java/servidor/ProcessadorMensagens.java:229-236 | payload fields never collide with the envelope, and the user payload never carries the password |
| Dispatcher.RespostaSucesso | src/main/java/servidor/ProcessadorMensagens.java:103-118 | the reply is an envelope with the operation, status true and the info, plus exactly the payload fields |
| Dispatcher.RespostaErro | src/main/java/servidor/ProcessadorMensagens.java:120-125 | the reply is an envelope with the operation, status false and the info, and nothing else |
| Dispatcher.Conectar | src/main/java/servidor/ProcessadorMensagens.java:127-133 | the handshake succeeds and changes nothing |
| Dispatcher.Cadastrar | src/main/java/servidor/ProcessadorMensagens.java:135-163 | succeeds iff all three fields are present, the cpf is new and the insert does not fail; a failure changes nothing; sessions never change |
| Dispatcher.Login | src/main/java/servidor/ProcessadorMensagens.java:165-189 | succeeds iff the credentials validate, then returns the issued token; on failure the session store is untouched; the database never changes |
| Dispatcher.Logout | src/main/java/servidor/ProcessadorMensagens.java:191-209 | succeeds iff the token validates; afterwards it no longer validates; the database never changes |
| Dispatcher.Ler | src/main/java/servidor/ProcessadorMensagens.java:211-243 | succeeds iff the token validates to a stored user, returning that user's nome, cpf and saldo; changes nothing |
| Dispatcher.Atualizar | src/main/java/servidor/ProcessadorMensagens.java:245-279 | succeeds iff the token validates to a stored user, `usuario` is an object holding `nome` or `senha`, and the write does not fail; a success applies the DAO update to the caller's row; a failure changes nothing; sessions never change |
| Dispatcher.Deletar | src/main/java/servidor/ProcessadorMensagens.java:332-358 | succeeds iff the token validates to a stored user and the delete does not fail; then the row and its ledger entries go |
| Dispatcher.DepositGuards | src/main/java/servidor/ProcessadorMensagens.java:281-313 | a deposit passes its checks iff the token validates to a stored user and the amount is positive with at most two decimals; the plan carries that user's row and the amount |
| Dispatcher.Depositar | src/main/java/servidor/ProcessadorMensagens.java:281-330 | succeeds iff the checks pass and the write does not fail; the ledger and sessions never change |
| Dispatcher.TransferGuards | src/main/java/servidor/ProcessadorMensagens.java:360-407 | a transfer passes its checks iff the token validates to a stored sender whose balance covers the positive two-decimal amount, and `cpf_destino` names a different stored user |
| Dispatcher.ExecuteTransfer | src/main/java/servidor/ProcessadorMensagens.java:409-439 | the write phase answers for `transacao_criar` and never touches sessions |
| DispatcherProperties.ExecuteTransferEffects | src/main/java/servidor/ProcessadorMensagens.java:409-435 | a failed debit changes nothing; a failed credit leaves the sender debited; a failed append leaves both balances moved; the ledger is unchanged in all three; success is reported only when no write fails |
| Dispatcher.Transferir | src/main/java/servidor/ProcessadorMensagens.java:360-444 | succeeds iff every check passes and none of the three writes fails; a transfer rejected by a check changes nothing; sessions never change |
| Dispatcher.ProcessarOperacao | src/main/java/servidor/ProcessadorMensagens.java:54-77 | every reply is an envelope naming the operation it was dispatched on; only login and logout touch the session store; only the five writing operations touch the database |
| Dispatcher.Step | src/main/java/servidor/ProcessadorMensagens.java:25-51 | every reply, for any input, is an envelope that echoes the request's `operacao` as text, or "erro" when the input is not JSON, which changes nothing |
| DispatcherProperties.InitialStateIsSane | src/main/java/database/BancoDados.java:27-43 | an empty token map and freshly created tables satisfy the invariant |
| DispatcherProperties.RegisterKeepsInvariant | src/main/java/servidor/ProcessadorMensagens.java:135-163 | registration keeps the invariant: the new row starts at a zero balance |
| DispatcherProperties.SessionHandlersKeepInvariant | src/main/java/servidor/ProcessadorMensagens.java:165-209 | login and logout keep one active session per cpf and leave the database alone |
| DispatcherProperties.UpdateKeepsInvariant | src/main/java/servidor/ProcessadorMensagens.java:245-279 | a profile update keeps the invariant |
| DispatcherProperties.DeleteKeepsInvariant | src/main/java/servidor/ProcessadorMensagens.java:332-358 | deleting an account keeps the invariant, the cascade removing the ledger entries that would dangle |
| DispatcherProperties.DepositKeepsInvariant | src/main/java/servidor/ProcessadorMensagens.java:281-330 | a deposit keeps balances non-negative whole cents |
| DispatcherProperties.ExecuteTransferKeepsSanity | src/main/java/servidor/ProcessadorMensagens.java:409-439 | whichever write fails, the write phase of a checked transfer keeps the schema and non-negative whole-cent balances |
| DispatcherProperties.TransferKeepsInvariant | src/main/java/servidor/ProcessadorMensagens.java:360-444 | a transfer, successful or not, keeps the invariant |
| DispatcherProperties.ProcessarOperacaoKeepsInvariant | src/main/java/servidor/ProcessadorMensagens.java:54-77 | every handler keeps the invariant |
| DispatcherProperties.StepKeepsInvariant | src/main/java/servidor/ProcessadorMensagens.java:25-51 | every step keeps the schema constraints, non-negative whole-cent balances and one active session per cpf |
| DispatcherProperties.UnparseableInput | src/main/java/servidor/ProcessadorMensagens.java:43-44 | non-JSON text gets a failure for operation "erro" and changes nothing |
| DispatcherProperties.RejectedRequestChangesNothing | src/main/java/servidor/ProcessadorMensagens.java:31-46 | a request refused by the validator gets a failure echoing its operation and the validator's message, and changes nothing |
| DispatcherProperties.ErrorReplyPassesServerCheck | src/main/java/servidor/ProcessadorMensagens.java:120-125 | every failure envelope passes the reply check |
| DispatcherProperties.ServerCheckAcceptsHandlerReplies | src/main/java/servidor/ProcessadorMensagens.java:36-41 | the reply check never rejects a handler's reply to an accepted request, so the step returns the handler's result |
| DispatcherProperties.HandlerReplyPasses | Validator.java:69-111 | the reply check accepts every handler reply, the failed replies of every operation included; only a successful `depositar` or `conectar` reply is left out |
| DispatcherProperties.SuccessfulDepositReplyIsRejected | Validator.java:89-109 | the reply check refuses a successful `depositar` or `conectar` reply, having no case for either |
| DispatcherProperties.DepositAndConnectAreRefused | Validator.java:33-60 | through the full step, `depositar` and `conectar` are always refused and change nothing |
| DispatcherProperties.RegisterDuplicateRejected | src/main/java/servidor/ProcessadorMensagens.java:144-147 | registering a stored cpf fails with "CPF já cadastrado" and writes nothing |
| DispatcherProperties.RegisterStoresNewUser | src/main/java/servidor/ProcessadorMensagens.java:149-155 | a successful registration adds exactly the new user with balance zero; the sum of balances is unchanged |
| DispatcherProperties.LoginIssuesSoleSession | src/main/java/servidor/ProcessadorMensagens.java:172-181 | the token a login returns validates to the cpf and is its only active session; other cpfs' sessions are unchanged |
| DispatcherProperties.InvalidTokenChangesNothing | src/main/java/servidor/ProcessadorMensagens.java:196-199 | every session-guarded operation answers "Token inválido ou expirado" to a token that does not validate and changes nothing |
| DispatcherProperties.DeletionKeepsSession | src/main/java/servidor/ProcessadorMensagens.java:343-345 | deleting an account leaves its token valid; reading the profile then finds no user |
| DispatcherProperties.DepositRejectsBadAmounts | src/main/java/servidor/ProcessadorMensagens.java:298-305 | non-positive amounts and amounts with more than two decimals are refused, with their own messages, writing nothing |
| DispatcherProperties.DepositCreditsCaller | src/main/java/servidor/ProcessadorMensagens.java:307-322 | a successful deposit changes only the caller's balance, to old plus amount; the sum grows by the amount; no ledger entry is written |
| DispatcherProperties.TransferRejectionsChangeNothing | src/main/java/servidor/ProcessadorMensagens.java:364-407 | every rejected transfer reports its check's message and leaves balances, ledger and sessions unchanged |
| DispatcherProperties.TransferGuardOrder | src/main/java/servidor/ProcessadorMensagens.java:364-407 | the eight checks run in the code's order, each with its own message: token, presence of `valor` and `cpf_destino`, amount sign, two decimals, self-transfer, stored sender, funds, and stored receiver last |
| DispatcherProperties.GuardsYieldFittingPlan | src/main/java/servidor/ProcessadorMensagens.java:364-407 | a plan that passed the checks names two distinct stored users, the loaded rows, and a sender balance covering the amount |
| DispatcherProperties.ExecuteTransferSuccess | src/main/java/servidor/ProcessadorMensagens.java:409-435 | when all three writes succeed the sender loses and the receiver gains the amount, the sum is preserved and one matching entry is appended |
| DispatcherProperties.TransferConservesMoney | src/main/java/servidor/ProcessadorMensagens.java:409-435 | a successful transfer moves exactly the amount between the two users, changes no one else, preserves the sum of balances and appends one entry |
| DispatcherProperties.TransferWholeBalance | src/main/java/servidor/ProcessadorMensagens.java:399-401 | transferring exactly the sender's balance is accepted and leaves the sender at zero |
| DispatcherProperties.TransferOneCentTooMuch | src/main/java/servidor/ProcessadorMensagens.java:399-401 | one cent above the balance is refused with "Saldo insuficiente" and changes nothing |
| DispatcherProperties.StepTransferConservesMoney | src/main/java/servidor/ProcessadorMensagens.java:25-51 | through the full step a transfer succeeds only with both `cpf` and `cpf_destino` present, and then conserves money and appends one entry |
| TransferAtomicity.CreditFailureLosesMoney | src/main/java/servidor/ProcessadorMensagens.java:420-425 | as written, a failed credit after the debit reports failure yet leaves the sender debited and the sum short by the amount |
| TransferAtomicity.AppendFailureLeavesUnrecordedTransfer | src/main/java/servidor/ProcessadorMensagens.java:427-432 | as written, a failed ledger append reports failure, yet the sender has lost and the receiver gained the amount, with no entry |
| TransferAtomicity.ExecuteTransferAtomic | src/main/java/servidor/ProcessadorMensagens.java:409-439 | the intended write phase: a failure leaves the state exactly as before |
| TransferAtomicity.AtomicTransferAllOrNothing | src/main/java/servidor/ProcessadorMensagens.java:409-439 | the intended write phase either completes, conserving money and appending one entry, or changes nothing; without failing writes it equals the code |

## Findings

| source | as written | input that shows it | evidently intended | confidence | as-written member | corrected member |
|---|---|---|---|---|---|---|
| src/main/java/servidor/ProcessadorMensagens.java:410-432 | the debit, credit and ledger append each commit on their own DAO connection (src/main/java/dao/UsuarioDAO.java:149); `conn.rollback()` acts on a connection none of them used | any transfer that passes its checks and whose credit `UPDATE` throws: the sender stays debited, the receiver is not credited, the reply is a failure | all three writes commit together or none does, so a failed transfer changes no balance | high (not executed) | TransferAtomicity.CreditFailureLosesMoney | TransferAtomicity.AtomicTransferAllOrNothing |

The dispatcher itself (`Dispatcher.ExecuteTransfer`) keeps the as-written
behaviour, so that its failure paths stay faithful to the code; the intended
write phase is `TransferAtomicity.ExecuteTransferAtomic`, and
`TransferAtomicity.AtomicTransferAllOrNothing` shows that it agrees with the
code whenever no write fails.

## Left out

- Concurrency: the concurrent token map and thread-per-connection; the model is a sequence of single steps.
- Socket transport, line framing, the GUI and console front ends, and the client-side request builders and printers.
- JSON text: parsing and serialising are replaced by the tree `JsonTree.Json`; a text that is not JSON is `None`. The unescaped `String.format` in `criarRespostaErro` and the serialisation error branch of `criarRespostaSucesso` are therefore not modelled.
- Floating point: balances and amounts are exact reals, not `double`, and the `BigDecimal.valueOf(double).scale()` quirks are replaced by the exact two-decimal test. The code's `double` arithmetic can leave a balance off the cent grid (0.1 plus a deposit of 0.7 gives 0.7999999999999999, after which a transfer of 0.8 is refused with "Saldo insuficiente"); the model does not show this.
- JDBC mechanics: connections, PRAGMA handling and DDL. Only the constraints are kept. SQL reads are assumed never to fail; only writes may fail, through `Env.faults`. The transfer's inner `catch` (src/main/java/servidor/ProcessadorMensagens.java:437-439, "Erro ao processar transação") is not modelled: it answers a failure to open the connection, and also a `commit()` that throws after all three writes have gone through, a case that leaves both balances moved and the entry written.
- Logging to standard output and standard error.
- `criarRespostaErroPorOperacao`: never called.
- `UUID.randomUUID()` and `Instant.now()`: supplied through `Env`.
- JsonTree.AsText: the text Jackson renders for a non-integer number is not modelled; the model yields the empty string, This matters wherever a field is read as text without the validator demanding a string: an `operacao` echoed in a refusal, `cpf_destino`, and `usuario.nome` or `usuario.senha` of a profile update, where the code would store the number's text (for example "1.5") and the model stores "".
- JsonTree.AsDouble: Jackson's parsing of numeric text inside a string node is not modelled; a string yields 0, which every amount check rejects.
- Sessions.CountActive: counts with an unbounded integer; the Java `(int)` cast of a count above 2^31 - 1 is not modelled.
- Sessions.Validate: Java's `null` token cannot arise from `asText()` and is not modelled.
- `transacao_ler` and the time-range query of the ledger: the dispatcher has no handler for them.
- `RulesEnum`: not part of this model. The lookup assumes an unknown name reaches the switch's default branch rather than throwing, and the refusal message ends with the operation name as sent.
- Dispatcher.ExecuteTransfer: its own contract states only the envelope and the untouched session store; the effect of each write is stated by `DispatcherProperties.ExecuteTransferEffects`, `ExecuteTransferSuccess` and `ExecuteTransferKeepsSanity`.
