/** The billing computation of the registration handler: a straight-line
    function of the consumed volume, the flag and the sewage flag. Amounts
    are exact reals. */
module Billing {
  import opened Outcomes
  import opened ConsumoModel
  import opened Text

  /** Below this volume the customer is billed as if this much was used. */
  const MinimumVolume: real := 10.0

  /** The smallest total any reading can be billed: the minimum volume at
      the lowest rate. */
  const MinimumCharge: real := 25.0

  /** The derived fields of a reading. */
  datatype Bill = Bill(
    consumoFaturado: real,
    tarifa: real,
    valorAgua: real,
    adicionalBandeira: real,
    taxaEsgoto: real,
    total: real)

  /** The billed volume is the consumption floored at the minimum volume:
      the larger of the two. */
  function BilledVolume(m3Consumidos: real): (r: real)
    ensures r >= MinimumVolume && r >= m3Consumidos
    ensures r == MinimumVolume || r == m3Consumidos
  {
    if m3Consumidos < 10.0 then 10.0 else m3Consumidos
  }

  /** The single rate charged on the whole billed volume, picked by the
      tier whose inclusive upper bound (10, 20, 50) first covers it. */
  function Tariff(consumoFaturado: real): (r: real)
    ensures consumoFaturado <= 10.0 <==> r == 2.5
    ensures 10.0 < consumoFaturado <= 20.0 <==> r == 3.5
    ensures 20.0 < consumoFaturado <= 50.0 <==> r == 5.0
    ensures 50.0 < consumoFaturado <==> r == 6.5
  {
    if consumoFaturado <= 10.0 then 2.5
    else if consumoFaturado <= 20.0 then 3.5
    else if consumoFaturado <= 50.0 then 5.0
    else 6.5
  }

  /** A larger billed volume never falls into a cheaper tier. */
  lemma TariffMonotone(a: real, b: real)
    requires a <= b
    ensures Tariff(a) <= Tariff(b)
  {
  }

  /** The flag as the handler inspects it: null reads as the default, and
      the text is lower-cased. */
  function FlagText(bandeira: Option<string>): (r: string)
    ensures forall i :: 0 <= i < |r| ==> !IsUpper(r[i])
    ensures bandeira.None? ==> r == "verde"
    ensures bandeira.Some? ==> |r| == |bandeira.value|
    ensures bandeira.Some? ==> forall i :: 0 <= i < |r| ==> r[i] == LowerChar(bandeira.value[i])
  {
    match bandeira
    case None => ToLower(DefaultBandeira)
    case Some(b) => ToLower(b)
  }

  /** The surcharge percentage of a flag: 10% when "amarela" occurs in it,
      otherwise 20% when "vermelha" occurs, otherwise nothing. */
  function SurchargePercent(bandeira: Option<string>): (p: real)
    ensures p == 0.1 <==> Occurs(FlagText(bandeira), "amarela")
    ensures p == 0.2 <==> !Occurs(FlagText(bandeira), "amarela") && Occurs(FlagText(bandeira), "vermelha")
    ensures p == 0.0 <==> !Occurs(FlagText(bandeira), "amarela") && !Occurs(FlagText(bandeira), "vermelha")
    ensures p == 0.0 || p == 0.1 || p == 0.2
  {
    var flag := FlagText(bandeira);
    ContainsOccurs(flag, "amarela");
    ContainsOccurs(flag, "vermelha");
    if Contains(flag, "amarela") then 0.1
    else if Contains(flag, "vermelha") then 0.2
    else 0.0
  }

  /** The flag rule ignores case: a flag and its lower-cased form give the
      same surcharge. */
  lemma SurchargeIgnoresCase(b: string)
    ensures SurchargePercent(Some(b)) == SurchargePercent(Some(ToLower(b)))
  {
    ToLowerIdempotent(b);
  }

  /** A missing flag is billed as the default flag, with no surcharge. */
  lemma NullFlagIsVerde()
    ensures SurchargePercent(None) == SurchargePercent(Some(DefaultBandeira)) == 0.0
  {
  }

  /** The derived fields for a consumption, a flag and the sewage flag.
      The water charge is the whole billed volume at one rate, the surcharge
      a share of it, the sewage fee 80% of water plus surcharge (none
      without sewage), and the total their sum. */
  function ComputeBill(m3Consumidos: real, bandeira: Option<string>, possuiEsgoto: bool): (b: Bill)
    ensures b.consumoFaturado == BilledVolume(m3Consumidos)
    ensures b.tarifa == Tariff(b.consumoFaturado)
    ensures b.valorAgua == b.consumoFaturado * b.tarifa
    ensures b.adicionalBandeira == b.valorAgua * SurchargePercent(bandeira)
    ensures !possuiEsgoto ==> b.taxaEsgoto == 0.0
    ensures possuiEsgoto ==> b.taxaEsgoto == (b.valorAgua + b.adicionalBandeira) * 0.8
    ensures b.total == b.valorAgua + b.adicionalBandeira + b.taxaEsgoto
  {
    var consumoFaturado := BilledVolume(m3Consumidos);
    var tarifa := Tariff(consumoFaturado);
    var valorAgua := consumoFaturado * tarifa;
    var adicionalBandeira := valorAgua * SurchargePercent(bandeira);
    var taxaEsgoto := if possuiEsgoto then (valorAgua + adicionalBandeira) * 0.8 else 0.0;
    Bill(consumoFaturado, tarifa, valorAgua, adicionalBandeira, taxaEsgoto,
         valorAgua + adicionalBandeira + taxaEsgoto)
  }

  /** The multiplier the flag and the sewage fee put on the water charge. */
  function Markup(percent: real, possuiEsgoto: bool): (m: real)
  {
    (1.0 + percent) * (if possuiEsgoto then 1.8 else 1.0)
  }

  /** A bill whose surcharge is a share of the water charge and whose
      sewage fee is 80% of water plus surcharge (none without sewage) totals
      the water charge times the markup, for each of the flag rule's three
      percentages. */
  lemma TotalIsMarkup(b: Bill, percent: real, possuiEsgoto: bool)
    requires percent == 0.0 || percent == 0.1 || percent == 0.2
    requires b.adicionalBandeira == b.valorAgua * percent
    requires !possuiEsgoto ==> b.taxaEsgoto == 0.0
    requires possuiEsgoto ==> b.taxaEsgoto == (b.valorAgua + b.adicionalBandeira) * 0.8
    requires b.total == b.valorAgua + b.adicionalBandeira + b.taxaEsgoto
    ensures b.total == b.valorAgua * Markup(percent, possuiEsgoto)
  {
  }

  /** The total in one formula: the water charge (billed volume times
      rate), raised by the surcharge percentage and then by 80% when there
      is sewage. */
  lemma {:induction false} BillClosedForm(m3Consumidos: real, bandeira: Option<string>, possuiEsgoto: bool)
    ensures var b := ComputeBill(m3Consumidos, bandeira, possuiEsgoto);
      b.total == b.valorAgua * Markup(SurchargePercent(bandeira), possuiEsgoto)
  {
    TotalIsMarkup(ComputeBill(m3Consumidos, bandeira, possuiEsgoto), SurchargePercent(bandeira), possuiEsgoto);
  }

  /** The water charge of a billed volume is at least the minimum charge and
      grows with the volume. */
  lemma WaterChargeMonotone(c1: real, c2: real)
    requires MinimumVolume <= c1 <= c2
    ensures MinimumCharge <= c1 * Tariff(c1) <= c2 * Tariff(c2)
  {
  }

  /** No reading is billed less than the minimum charge, and no part of a
      bill is negative. */
  lemma BillAtLeastMinimum(m3Consumidos: real, bandeira: Option<string>, possuiEsgoto: bool)
    ensures var b := ComputeBill(m3Consumidos, bandeira, possuiEsgoto);
      && b.valorAgua >= MinimumCharge
      && b.adicionalBandeira >= 0.0
      && b.taxaEsgoto >= 0.0
      && b.total >= b.valorAgua
  {
  }

  /** Consuming more never costs less, for the same flag and sewage. */
  lemma BillMonotone(m1: real, m2: real, bandeira: Option<string>, possuiEsgoto: bool)
    requires m1 <= m2
    ensures ComputeBill(m1, bandeira, possuiEsgoto).total <= ComputeBill(m2, bandeira, possuiEsgoto).total
  {
  }

  /** Five cubic metres, green flag, no sewage: billed as ten at 2.50. */
  lemma ExampleSmallVerde()
    ensures ComputeBill(5.0, Some("Verde"), false) == Bill(10.0, 2.5, 25.0, 0.0, 0.0, 25.0)
  {
  }

  /** Thirty cubic metres, yellow flag, with sewage: 150 + 15 + 132. */
  lemma ExampleAmarelaComEsgoto()
    ensures ComputeBill(30.0, Some("Amarela"), true) == Bill(30.0, 5.0, 150.0, 15.0, 132.0, 297.0)
  {
  }

  /** A red flag written in capitals is billed at 20%; an unknown flag at 0%. */
  lemma ExampleFlagsByCase()
    ensures SurchargePercent(Some("VERMELHA")) == 0.2
    ensures SurchargePercent(Some("Azul")) == 0.0
  {
    assert FlagText(Some("VERMELHA")) == "vermelha";
    assert OccursAt("vermelha", "vermelha", 0);
    assert !Contains("vermelha", "amarela");
    ContainsOccurs("vermelha", "amarela");
    assert |FlagText(Some("Azul"))| == 4;
  }

  /** A reading with its derived fields filled in from its own inputs;
      every field the client supplied is kept. */
  function ApplyBill(c: Consumo): (r: Consumo)
    ensures r.id == c.id && KeyOf(r) == KeyOf(c) && r.m3Consumidos == c.m3Consumidos
    ensures r.bandeira == c.bandeira && r.possuiEsgoto == c.possuiEsgoto
    ensures IsBilled(r)
  {
    var b := ComputeBill(c.m3Consumidos, c.bandeira, c.possuiEsgoto);
    c.(consumoFaturado := b.consumoFaturado, tarifa := b.tarifa, valorAgua := b.valorAgua,
       adicionalBandeira := b.adicionalBandeira, taxaEsgoto := b.taxaEsgoto, total := b.total)
  }

  /** The derived fields of a reading are those its inputs bill to. */
  predicate IsBilled(c: Consumo)
  {
    var b := ComputeBill(c.m3Consumidos, c.bandeira, c.possuiEsgoto);
    && c.consumoFaturado == b.consumoFaturado && c.tarifa == b.tarifa && c.valorAgua == b.valorAgua
    && c.adicionalBandeira == b.adicionalBandeira && c.taxaEsgoto == b.taxaEsgoto && c.total == b.total
  }

  /** A reading left with the default flag carries no flag surcharge. */
  lemma DefaultFlagNoSurcharge(cpf: string, mes: Int32, ano: Int32, m3Consumidos: real, possuiEsgoto: bool)
    ensures ApplyBill(NewConsumo(cpf, mes, ano, m3Consumidos, possuiEsgoto)).adicionalBandeira == 0.0
  {
  }
}
