/** The persisted entity: one monthly water-consumption reading. */
module ConsumoModel {
  import opened Outcomes

  /** A C# `int`. */
  newtype Int32 = x: int | -0x8000_0000 <= x < 0x8000_0000

  /** A reading, field for field. The first six are supplied by the
      client; `consumoFaturado` .. `total` are derived by the billing. */
  datatype Consumo = Consumo(
    id: int,
    cpf: string,
    mes: Int32,
    ano: Int32,
    m3Consumidos: real,
    consumoFaturado: real,
    tarifa: real,
    valorAgua: real,
    adicionalBandeira: real,
    taxaEsgoto: real,
    total: real,
    bandeira: Option<string>,
    possuiEsgoto: bool)

  /** The natural key of a reading: one per customer and billing period. */
  datatype Key = Key(cpf: string, mes: Int32, ano: Int32)

  function KeyOf(c: Consumo): (k: Key)
  {
    Key(c.cpf, c.mes, c.ano)
  }

  /** The flag a reading gets when the client does not send one. */
  const DefaultBandeira: string := "Verde"

  /** The smallest consumption the record's range annotation admits. */
  const MinM3Consumidos: real := 0.0000001

  /** The characters a required string may not consist of only. */
  predicate IsWhiteSpace(ch: char)
  {
    ch == ' ' || ch == '\t' || ch == '\n' || ch == '\U{B}' || ch == '\U{C}' || ch == '\r'
  }

  /** A required string: not empty and not blank. */
  predicate HasContent(s: string)
  {
    exists i :: 0 <= i < |s| && !IsWhiteSpace(s[i])
  }

  /** The declared ranges of the record: a required Cpf, Mes in 1..12,
      Ano from 2000 up to the largest `int`, and M3Consumidos at least
      the declared minimum. */
  predicate ValidRecord(c: Consumo)
    ensures ValidRecord(c) ==> c.cpf != [] && c.m3Consumidos > 0.0
  {
    HasContent(c.cpf) && 1 <= c.mes <= 12 && 2000 <= c.ano && c.m3Consumidos >= MinM3Consumidos
  }

  /** A reading as the client's body builds it when it leaves out every
      optional property: the flag is "Verde", the numbers are zero. */
  function NewConsumo(cpf: string, mes: Int32, ano: Int32, m3Consumidos: real, possuiEsgoto: bool): (c: Consumo)
    ensures c.bandeira == Some(DefaultBandeira)
    ensures KeyOf(c) == Key(cpf, mes, ano) && c.m3Consumidos == m3Consumidos && c.possuiEsgoto == possuiEsgoto
    ensures ValidRecord(c) <==> HasContent(cpf) && 1 <= mes <= 12 && 2000 <= ano && m3Consumidos >= MinM3Consumidos
  {
    Consumo(0, cpf, mes, ano, m3Consumidos, 0.0, 0.0, 0.0, 0.0, 0.0, 0.0, Some(DefaultBandeira), possuiEsgoto)
  }
}
