/** The records the quote generator reads (src/types/index.ts). */
module Types {

  /** A client: the company, its representative and the machine. */
  datatype Cliente = Cliente(
    nomeEmpresa: string,
    cnpj: string,
    nomeRepresentante: string,
    cpfRepresentante: string,
    modeloMaquina: string,
    marcaMaquina: string)

  /** A quote line as the PDF generator reads it: a quantity, a description
      and a unit price. Amounts are exact reals rather than IEEE doubles. */
  datatype Item = Item(quantidade: real, descricao: string, valorUnitario: real)

  datatype Option<T> = None | Some(value: T)
}
