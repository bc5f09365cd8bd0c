# Water-consumption billing registry, modelled in Dafny

The service records one monthly water-meter reading (`Consumo`) per customer
(identified by a CPF, the Brazilian national ID), month and year. It bills
each reading when it is registered, and it offers list, lookup, delete and
grand-total queries over the stored readings.

This model covers the five handlers of `luana/Program.cs:23-100`. It also
covers the record class in `MinimalApiProject/Models/Consumo.cs`. The copy in
`MinimalApiProject/Program.cs:22-95` is the same code without its comments,
so its lines sit 1 to 5 lines earlier. The "## Model" rows cite the luana
copy. These are the corresponding lines in the other copy:

| luana/Program.cs | MinimalApiProject/Program.cs |
|---|---|
| 23 (register) | 22 |
| 26-31 (field checks) | 24-29 |
| 34-36 (duplicate check) | 31-33 |
| 39 (billed volume) | 35 |
| 42-48 (tariff) | 37-43 |
| 50 (water charge) | 45 |
| 53-57 (flag) | 48-52 |
| 59-63 (surcharge, sewage, total) | 54-58 |
| 65-68 (insert) | 60-63 |
| 71-76 (list) | 66-71 |
| 78-83 (lookup) | 73-78 |
| 85-92 (remove) | 80-87 |
| 94-100 (grand total) | 89-95 |

- `outcomes.dfy` (module `Outcomes`): `Option`, and the handler results.
  `Ok` stands for 200/201, and `Err` holds one of `BadRequest(reason)`,
  `Conflict` or `NotFound`.
- `consumo.dfy` (module `ConsumoModel`): the record as a datatype.
  `mes` and `ano` are C# `int`s (`Int32`), and amounts are exact `real`s.
  A `bandeira` of `None` is a JSON `null`. It also holds the natural key
  (Cpf, Mes, Ano), the validity predicate of the declared ranges, and the
  defaults of a fresh record (`Bandeira = "Verde"`).
- `text.dfy` (module `Text`): ASCII lower-casing, and substring search
  proved equal to "occurs at some position".
- `billing.dfy` (module `Billing`): the billing steps as pure functions:
  - the billed volume, floored at 10;
  - one tariff tier for the whole volume (2.50 / 3.50 / 5.00 / 6.50 at the
    inclusive bounds 10, 20 and 50);
  - the flag surcharge ("amarela" 10% before "vermelha" 20%, otherwise 0);
  - the sewage fee, 80% of water plus surcharge;
  - the total.

  It also holds the lemmas about these steps: a closed form, a minimum
  charge of 25, monotonicity in the consumed volume, and the worked examples.
- `api.dfy` (module `Api`): the handlers' field checks, in their order. The
  table is a class `ConsumoTable` with a sequence of records and the next
  identity. Its invariant holds three things: every stored reading passed the
  checks and carries its own bill; identities are distinct; and no two
  readings share (Cpf, Mes, Ano). `Register`, `List`, `Lookup`, `Remove` and
  `TotalGeral` keep this invariant. Each one says exactly what it returns and
  what the table becomes.

The key's uniqueness is what the handler's existence check keeps. The unique
index declared in `luana/Data/ConsumoContext.cs:16-18` and in
`MinimalApiProject/Migrations/20251020235438_InitialCreate.cs:35-39` backs it
up. Here it is an invariant that every operation is proved to preserve.

The handler's checks are looser than the record's own data annotations, and
the model follows the handler:
- `[Required]` on `Cpf` (`MinimalApiProject/Models/Consumo.cs:11`) rejects a
  null, empty or blank CPF, but no handler check does;
- `[Range(0.0000001, double.MaxValue)]` on `M3Consumidos`
  (`MinimalApiProject/Models/Consumo.cs:20`) sets a minimum of 0.0000001, but
  the handler only checks `> 0`.

`Api.ChecksAdmitOutOfRange` exhibits a reading that passes the handler's
checks but is outside the declared ranges.

## Model

| member | source | states |
|---|---|---|
| `ConsumoModel.ValidRecord` | MinimalApiProject/Models/Consumo.cs:11-21 | a record within the declared ranges has a non-empty Cpf and a positive volume |
| `ConsumoModel.NewConsumo` | MinimalApiProject/Models/Consumo.cs:6-31 | a record built without a flag gets `Bandeira` "Verde". It keeps its key, volume and sewage flag, and it is valid exactly when Cpf has content, Mes is in 1..12, Ano ≥ 2000 and the volume is at least 0.0000001 |
| `Text.ToLower` | luana/Program.cs:53 | the result has the input's length, and each character is the input's character lower-cased (ASCII) |
| `Text.ToLowerIdempotent` | luana/Program.cs:53 | lower-casing an already lower-cased flag changes nothing |
| `Text.Contains` | luana/Program.cs:55-56 | a pattern longer than the text is never found, and a pattern that is a prefix of the text always is |
| `Text.ContainsOccurs` | luana/Program.cs:55-56 | the left-to-right substring search succeeds exactly when the pattern occurs at some position |
| `Billing.BilledVolume` | luana/Program.cs:39 | the billed volume is at least 10 and at least the consumption, and it is one of the two: it is their maximum |
| `Billing.Tariff` | luana/Program.cs:42-48 | rate 2.50 iff the billed volume is ≤ 10, 3.50 iff in (10, 20], 5.00 iff in (20, 50], 6.50 iff above 50 |
| `Billing.TariffMonotone` | luana/Program.cs:44-47 | the rate is non-decreasing in the billed volume |
| `Billing.SurchargePercent` | luana/Program.cs:53-57 | 10% iff "amarela" occurs in the lower-cased flag; 20% iff "vermelha" occurs and "amarela" does not; 0% iff neither occurs. No other value is possible |
| `Billing.SurchargeIgnoresCase` | luana/Program.cs:53 | a flag and its lower-cased form get the same surcharge |
| `Billing.NullFlagIsVerde` | luana/Program.cs:53 | a null flag is billed like "Verde", with no surcharge |
| `Billing.FlagText` | luana/Program.cs:53 | a null flag reads as "verde". A given flag keeps its length, and each character is the flag's character lower-cased, so none is upper-case |
| `Billing.ComputeBill` | luana/Program.cs:39-63 | billed volume = max(consumption, 10). The rate is that volume's tier, and water = billed volume × that one rate. Surcharge = water × the flag's percent. The sewage fee is 0 without sewage and (water + surcharge) × 0.80 with it. Total = water + surcharge + sewage |
| `Billing.TotalIsMarkup` | luana/Program.cs:59-63 | when the surcharge is water × one of the three percentages and the fee and total follow lines 61 and 63, the total is water × (1 + percent) × (1.8 with sewage, else 1) |
| `Billing.BillClosedForm` | luana/Program.cs:39-63 | every bill's total is its water charge × (1 + the flag's percent) × (1.8 with sewage, else 1) |
| `Billing.WaterChargeMonotone` | luana/Program.cs:42-50 | from the minimum volume up, the water charge is at least 25 and never falls as the billed volume grows |
| `Billing.BillAtLeastMinimum` | luana/Program.cs:39-63 | every bill has a water charge ≥ 25, no negative surcharge or fee, and a total ≥ the water charge |
| `Billing.BillMonotone` | luana/Program.cs:39-63 | with the same flag and sewage, more consumption never gives a smaller total |
| `Billing.ExampleSmallVerde` | luana/Program.cs:39-63 | 5 m³, "Verde", no sewage gives billed 10, rate 2.50, water 25, surcharge 0, fee 0, total 25 |
| `Billing.ExampleAmarelaComEsgoto` | luana/Program.cs:39-63 | 30 m³, "Amarela", with sewage gives billed 30, rate 5.00, water 150, surcharge 15, fee 132, total 297 |
| `Billing.ExampleFlagsByCase` | luana/Program.cs:53-57 | "VERMELHA" is billed at 20%, and the unknown "Azul" at 0% |
| `Billing.ApplyBill` | luana/Program.cs:39-63 | filling in the derived fields keeps the id, key, volume, flag and sewage flag. The record then carries exactly the bill of its own inputs |
| `Billing.DefaultFlagNoSurcharge` | MinimalApiProject/Models/Consumo.cs:30 | a record left with the default flag has no flag surcharge |
| `Api.Validate` | luana/Program.cs:26-31 | Mes outside 1..12 is rejected first, then Ano < 2000, then a volume ≤ 0. A reading passes exactly when none of these hold |
| `Api.ValidRecordPassesChecks` | MinimalApiProject/Models/Consumo.cs:11-21 | every record within the declared ranges passes the handler's checks |
| `Api.ChecksAdmitOutOfRange` | MinimalApiProject/Program.cs:24-29 | a blank Cpf with a volume below 0.0000001 passes the handler's checks but is outside the declared ranges |
| `Api.FindIndex` | luana/Program.cs:80 | gives the first position whose (Cpf, Mes, Ano) matches, or none exactly when no record matches |
| `Api.UniqueMatch` | luana/Data/ConsumoContext.cs:16-18 | in a table with unique keys, any record with a given key is the one found at that key's position |
| `Api.AppendKeepsUnique` | luana/Program.cs:34-36 | appending a reading whose key is absent keeps the keys unique |
| `Api.RemoveAtExactly` | luana/Program.cs:87-89 | removing the matched record keeps the keys unique. It removes exactly the records with that key |
| `Api.Sum` | luana/Program.cs:98 | the sum of totals is never negative when no total is, and it is the record's total for a single record |
| `Api.SumAppend` | luana/Program.cs:98 | appending a reading raises the sum of totals by its total |
| `Api.SumRemoveAt` | luana/Program.cs:98 | removing a reading lowers the sum of totals by its total |
| `Api.SumAtLeastMinimum` | luana/Program.cs:98 | the sum over billed readings is at least 25 per reading |
| `Api.InsertKeepsInvariant` | luana/Program.cs:65 | inserting a checked, billed reading with a new key and the next identity keeps the table invariant |
| `Api.RemoveKeepsInvariant` | luana/Program.cs:89 | removing any reading keeps the table invariant |
| `Api.RemoveKey` | luana/Program.cs:87-89 | removing a key leaves the records unchanged when no record matches. When one does, exactly one record fewer remains |
| `Api.RemoveKeyKeepsInvariant` | luana/Program.cs:87-89 | removing a key from a valid table keeps the table invariant |
| `Api.RemoveKeyExactly` | luana/Program.cs:87-89 | with unique keys, the records left are exactly the old records with another key |
| `Api.RemoveKeySum` | luana/Program.cs:87-89 | when a record matches, removing its key lowers the sum of totals by that record's total |
| `Api.ConsumoTable.constructor` | MinimalApiProject/Migrations/20251020235438_InitialCreate.cs:11-16 | a new table is empty and valid, and its identities start at 1 |
| `Api.ConsumoTable.Register` | luana/Program.cs:23-69 | a failed check gives BadRequest with that check's reason. A present key gives Conflict. In both cases the table is unchanged. Otherwise exactly one record is appended: the billed reading with the next identity. The old records are kept, the grand sum grows by its total, and the invariant holds |
| `Api.ConsumoTable.List` | luana/Program.cs:71-76 | an empty table gives NotFound, otherwise all records |
| `Api.ConsumoTable.Lookup` | luana/Program.cs:78-83 | NotFound exactly when no record has the key. Otherwise it returns a stored record with that key, and that record is the only one |
| `Api.ConsumoTable.Remove` | luana/Program.cs:85-92 | the new table is the old one with the key removed. An absent key gives NotFound with the table unchanged. Otherwise the matched record alone is cut out, the remaining records are exactly the old ones with another key, and the sum drops by its total |
| `Api.ConsumoTable.TotalGeral` | luana/Program.cs:94-100 | an empty table gives NotFound, otherwise the sum of every record's total, which is at least 25 per record |
| `Api.RegisterTwice` | MinimalApiProject/Program.cs:31-33 | registering the same valid reading twice in an empty table creates it and then gives Conflict. One record remains, and the grand total is its total |

## Left out

- HTTP routing, the status objects, the response messages and the `Location` URL of a created reading. These are reduced to `Ok`/`Err` with a failure kind.
- Entity Framework, SQLite, `EnsureCreated`, `SaveChangesAsync` and the migrations' `Up`/`Down` are left out. The database is the class's sequence of records.
- `async`/`await`, and the race between the existence check and the insert under concurrent requests. The unique index guards that race, and the model does not model concurrency.
- IEEE `double` rounding: all amounts are exact reals.
- `ToLower` is culture-sensitive in C#. The model lower-cases ASCII letters only.
- The surrogate `Id`: the model gives each inserted reading the next counter value, starting at 1. An `Id` sent by the client is ignored. In the source, a non-zero one would be passed to the database.
- A `null` `bandeira` in the request body is billed as "Verde", as in the code. The model stores the reading anyway. The database column is `NOT NULL`, so the real insert would fail.
- A request body without a `cpf` (a `null` Cpf) is not modelled, because Cpf is a non-null `string` here.
- The upper bound `double.MaxValue` of the volume's range annotation is not modelled, because a `real` has no maximum.
- `ConsumoModel.ValidRecord`: `[Required]` rejects any string for which `string.IsNullOrWhiteSpace` holds, which includes Unicode white space such as U+00A0 and U+2003. The model's `HasContent` treats only the ASCII white-space characters as blank.
- The data annotations are not enforced by the minimal API. `ValidRecord` states them, and the handler's checks are what `Register` enforces.
