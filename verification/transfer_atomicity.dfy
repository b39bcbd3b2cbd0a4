/**
 * The transfer's write phase is meant to be all-or-nothing (it opens a
 * connection, turns auto-commit off and calls `rollback` on failure), but each
 * DAO write commits on a connection of its own. This module shows what that
 * costs and states the intended behaviour.
 */
module TransferAtomicity {
  import opened Dispatcher
  import opened DispatcherProperties
  import UsuarioDao
  import Balances

  /**
   * As written: when the credit fails after the debit succeeded, the reply is
   * a failure, yet the sender stays debited and the amount is gone from the
   * sum of all balances; no ledger entry records it.
   */
  lemma CreditFailureLosesMoney(st: State, p: TransferPlan, env: Env)
    requires PlanFits(st.db, p)
    requires 0 !in env.faults && 1 in env.faults
    ensures var h := ExecuteTransfer(st, p, env);
            && !StatusOf(h.reply) && InfoOf(h.reply) == "Erro ao creditar valor ao recebedor"
            && h.st.db.usuarios[p.cpfEnviador].saldo == st.db.usuarios[p.cpfEnviador].saldo - p.valor
            && Balances.Total(h.st.db.usuarios) == Balances.Total(st.db.usuarios) - p.valor
            && h.st.db.transacoes == st.db.transacoes
  {
    ExecuteTransferStages(st, p, env);
    var us := st.db.usuarios;
    var debit := UsuarioDao.AtualizarSaldo(st.db, p.cpfEnviador, p.enviador.saldo - p.valor, false);
    assert debit.db.usuarios == us[p.cpfEnviador := us[p.cpfEnviador].(saldo := us[p.cpfEnviador].saldo - p.valor)];
    Balances.TotalUpdate(us, p.cpfEnviador, debit.db.usuarios[p.cpfEnviador]);
  }

  /** As written: when only the ledger append fails, both balances have moved but no entry exists. */
  lemma AppendFailureLeavesUnrecordedTransfer(st: State, p: TransferPlan, env: Env)
    requires PlanFits(st.db, p)
    requires 0 !in env.faults && 1 !in env.faults && 2 in env.faults
    ensures var h := ExecuteTransfer(st, p, env);
            && !StatusOf(h.reply) && InfoOf(h.reply) == "Erro ao registrar transação"
            && h.st.db.usuarios[p.cpfEnviador].saldo == st.db.usuarios[p.cpfEnviador].saldo - p.valor
            && h.st.db.usuarios[p.cpfRecebedor].saldo == st.db.usuarios[p.cpfRecebedor].saldo + p.valor
            && h.st.db.usuarios != st.db.usuarios
            && h.st.db.transacoes == st.db.transacoes
  {
    ExecuteTransferStages(st, p, env);
    var us := st.db.usuarios;
    var debit := UsuarioDao.AtualizarSaldo(st.db, p.cpfEnviador, p.enviador.saldo - p.valor, false);
    var credit := UsuarioDao.AtualizarSaldo(debit.db, p.cpfRecebedor, p.recebedor.saldo + p.valor, false);
    assert credit.db.usuarios[p.cpfEnviador].saldo == us[p.cpfEnviador].saldo - p.valor;
  }

  /**
   * The write phase as intended: the same three writes, but a failure at any
   * of them leaves the state exactly as it was before the transfer began.
   */
  function ExecuteTransferAtomic(st: State, p: TransferPlan, env: Env): (h: Handled)
    ensures Envelope(h.reply) && OperacaoOf(h.reply) == "transacao_criar"
    ensures !StatusOf(h.reply) ==> h.st == st
  {
    var attempt := ExecuteTransfer(st, p, env);
    if StatusOf(attempt.reply) then attempt else Handled(attempt.reply, st)
  }

  /**
   * All or nothing: a fitting transfer either completes, conserving the sum
   * of balances and appending one entry, or fails with nothing changed; with
   * no failing write it completes exactly as the as-written code does.
   */
  lemma AtomicTransferAllOrNothing(st: State, p: TransferPlan, env: Env)
    requires PlanFits(st.db, p)
    ensures var h := ExecuteTransferAtomic(st, p, env);
            if StatusOf(h.reply) then
              && Balances.Total(h.st.db.usuarios) == Balances.Total(st.db.usuarios)
              && |h.st.db.transacoes| == |st.db.transacoes| + 1
            else
              && h.st == st
              && Balances.Total(h.st.db.usuarios) == Balances.Total(st.db.usuarios)
    ensures 0 !in env.faults && 1 !in env.faults && 2 !in env.faults ==>
              ExecuteTransferAtomic(st, p, env) == ExecuteTransfer(st, p, env)
              && StatusOf(ExecuteTransfer(st, p, env).reply)
  {
    ExecuteTransferStages(st, p, env);
    if StatusOf(ExecuteTransfer(st, p, env).reply) {
      ExecuteTransferSuccess(st, p, env);
    }
  }
}
