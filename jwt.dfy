/**
 * The signed session token, as an abstract record. Encoding, signing,
 * expiry and decoding belong to the JWT library and are not modelled:
 * a decoder is a parameter that either yields the token's payload or
 * reports why it could not.
 */
module Jwt {

  import opened Wrappers

  /** A token's payload: the user and the active store, if any. */
  datatype Token = Token(userId: int, activeLojaId: Option<int>)

  /** The outcome of decoding a token string. */
  datatype Decodificado = Valido(payload: Token) | Expirado | Invalido

  type Decodificador = string -> Decodificado
}
