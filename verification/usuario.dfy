/** The user record (`modelo.Usuario`): name, cpf, password and balance. */
module Usuarios {

  datatype Usuario = Usuario(nome: string, cpf: string, senha: string, saldo: real)

  /** The constructor for a newly registered user: the balance starts at zero. */
  function NewUsuario(nome: string, cpf: string, senha: string): (u: Usuario)
    ensures u.nome == nome && u.cpf == cpf && u.senha == senha
    ensures u.saldo == 0.0
  {
    Usuario(nome, cpf, senha, 0.0)
  }

  /** The constructor used when a row is read back: the balance is kept as given. */
  function LoadedUsuario(nome: string, cpf: string, senha: string, saldo: real): (u: Usuario)
    ensures u.nome == nome && u.cpf == cpf && u.senha == senha && u.saldo == saldo
  {
    Usuario(nome, cpf, senha, saldo)
  }

  function SetNome(u: Usuario, nome: string): Usuario { u.(nome := nome) }
  function SetCpf(u: Usuario, cpf: string): Usuario { u.(cpf := cpf) }
  function SetSenha(u: Usuario, senha: string): Usuario { u.(senha := senha) }
  function SetSaldo(u: Usuario, saldo: real): Usuario { u.(saldo := saldo) }

  /**
   * Each getter returns what its setter last stored, and each setter leaves
   * the other three fields alone.
   */
  lemma SettersTouchOnlyTheirField(u: Usuario, nome: string, cpf: string, senha: string, saldo: real)
    ensures SetNome(u, nome) == Usuario(nome, u.cpf, u.senha, u.saldo)
    ensures SetCpf(u, cpf) == Usuario(u.nome, cpf, u.senha, u.saldo)
    ensures SetSenha(u, senha) == Usuario(u.nome, u.cpf, senha, u.saldo)
    ensures SetSaldo(u, saldo) == Usuario(u.nome, u.cpf, u.senha, saldo)
    ensures SetSaldo(SetSenha(SetCpf(SetNome(u, nome), cpf), senha), saldo) == LoadedUsuario(nome, cpf, senha, saldo)
  {
  }
}
