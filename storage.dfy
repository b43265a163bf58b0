/**
 * The browser's `localStorage`, shared by the API client and the session
 * context: a string-to-string map that both read and write.
 */
module Navegador {

  import opened Wrappers

  class Armazenamento {
    var itens: map<string, string>

    constructor(itens: map<string, string>)
      ensures this.itens == itens
    {
      this.itens := itens;
    }

    /** `getItem`: null for a key never set. */
    function GetItem(chave: string): (r: Option<string>)
      reads this
      ensures r.Some? <==> chave in itens
      ensures r.Some? ==> r.value == itens[chave]
    {
      if chave in itens then Some(itens[chave]) else None
    }

    /** `setItem`. */
    method SetItem(chave: string, valor: string)
      modifies this
      ensures itens == old(itens)[chave := valor]
      ensures GetItem(chave) == Some(valor)
    {
      itens := itens[chave := valor];
    }

    /** `removeItem`. */
    method RemoveItem(chave: string)
      modifies this
      ensures itens == old(itens) - {chave}
      ensures GetItem(chave) == None
    {
      itens := itens - {chave};
    }
  }
}
