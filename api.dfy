/** The five handlers of the consumption service over the table of
    readings: register, list, look up, remove and grand total. */
module Api {
  import opened Outcomes
  import opened ConsumoModel
  import opened Billing

  /** The registration handler's field checks, in the order it makes them:
      month first, then year, then volume. */
  function Validate(c: Consumo): (r: Option<Invalid>)
    ensures r == Some(MesOutOfRange) <==> c.mes < 1 || c.mes > 12
    ensures r == Some(AnoOutOfRange) <==> 1 <= c.mes <= 12 && c.ano < 2000
    ensures r == Some(M3NotPositive) <==> 1 <= c.mes <= 12 && c.ano >= 2000 && c.m3Consumidos <= 0.0
    ensures r == None <==> 1 <= c.mes <= 12 && c.ano >= 2000 && c.m3Consumidos > 0.0
  {
    if c.mes < 1 || c.mes > 12 then Some(MesOutOfRange)
    else if c.ano < 2000 then Some(AnoOutOfRange)
    else if c.m3Consumidos <= 0.0 then Some(M3NotPositive)
    else None
  }

  /** Every reading within the record's declared ranges passes the
      handler's checks. */
  lemma ValidRecordPassesChecks(c: Consumo)
    requires ValidRecord(c)
    ensures Validate(c) == None
  {
  }

  /** The handler's checks are looser than the declared ranges: a blank
      Cpf and a volume under the declared minimum still pass. */
  lemma ChecksAdmitOutOfRange()
    ensures var c := NewConsumo("", 1, 2000, MinM3Consumidos / 2.0, false);
      Validate(c) == None && !ValidRecord(c)
  {
  }

  /** A record with this key is stored. */
  ghost predicate KeyPresent(s: seq<Consumo>, k: Key)
  {
    exists i :: 0 <= i < |s| && KeyOf(s[i]) == k
  }

  /** No two records share (Cpf, Mes, Ano). */
  ghost predicate KeysUnique(s: seq<Consumo>)
  {
    forall i, j :: 0 <= i < j < |s| ==> KeyOf(s[i]) != KeyOf(s[j])
  }

  /** The position of the first record with key `k`, if any. */
  function FindIndex(s: seq<Consumo>, k: Key): (r: Option<nat>)
    ensures r.Some? ==> r.value < |s| && KeyOf(s[r.value]) == k
    ensures r.Some? ==> forall j :: 0 <= j < r.value ==> KeyOf(s[j]) != k
    ensures r.None? <==> !KeyPresent(s, k)
  {
    if s == [] then None
    else if KeyOf(s[0]) == k then Some(0)
    else match FindIndex(s[1..], k)
      case None => None
      case Some(i) => Some(i + 1)
  }

  /** In a table with unique keys, the record with a given key is the only
      one. */
  lemma UniqueMatch(s: seq<Consumo>, i: nat, x: Consumo)
    requires KeysUnique(s) && i < |s|
    requires x in s && KeyOf(x) == KeyOf(s[i])
    ensures x == s[i]
  {
  }

  /** Appending a record whose key is absent keeps the keys unique. */
  lemma AppendKeepsUnique(s: seq<Consumo>, x: Consumo)
    requires KeysUnique(s) && !KeyPresent(s, KeyOf(x))
    ensures KeysUnique(s + [x])
  {
  }

  /** Removing the record at `i` from a table with unique keys removes
      exactly the records with its key, and the keys stay unique. */
  lemma RemoveAtExactly(s: seq<Consumo>, i: nat)
    requires KeysUnique(s) && i < |s|
    ensures var t := s[..i] + s[i + 1..];
      && KeysUnique(t)
      && (forall x :: x in t <==> x in s && KeyOf(x) != KeyOf(s[i]))
  {
  }

  /** The sum of `Total` over the records: never negative when no total
      is, and a single record's total on its own. */
  function Sum(s: seq<Consumo>): (r: real)
    ensures (forall i :: 0 <= i < |s| ==> s[i].total >= 0.0) ==> r >= 0.0
    ensures |s| == 1 ==> r == s[0].total
  {
    if s == [] then 0.0 else s[0].total + Sum(s[1..])
  }

  /** Adding a record at the end adds its total. */
  lemma {:induction false} SumAppend(s: seq<Consumo>, x: Consumo)
    ensures Sum(s + [x]) == Sum(s) + x.total
  {
    if s != [] {
      assert (s + [x])[1..] == s[1..] + [x];
      SumAppend(s[1..], x);
    }
  }

  /** Removing the record at `i` takes away its total. */
  lemma {:induction false} SumRemoveAt(s: seq<Consumo>, i: nat)
    requires i < |s|
    ensures Sum(s[..i] + s[i + 1..]) == Sum(s) - s[i].total
  {
    if i == 0 {
      assert s[..0] + s[1..] == s[1..];
    } else {
      assert (s[..i] + s[i + 1..])[1..] == s[1..][..i - 1] + s[1..][i..];
      assert (s[..i] + s[i + 1..])[0] == s[0];
      SumRemoveAt(s[1..], i - 1);
    }
  }

  /** A sum of billed readings is at least the minimum charge per reading. */
  lemma {:induction false} SumAtLeastMinimum(s: seq<Consumo>)
    requires forall i :: 0 <= i < |s| ==> IsBilled(s[i])
    ensures Sum(s) >= MinimumCharge * |s| as real
  {
    if s != [] {
      BillAtLeastMinimum(s[0].m3Consumidos, s[0].bandeira, s[0].possuiEsgoto);
      SumAtLeastMinimum(s[1..]);
    }
  }

  /** A reading as the table stores it: it passed the field checks and
      carries its own bill. */
  predicate Stored(c: Consumo)
  {
    Validate(c) == None && IsBilled(c)
  }

  /** The invariant of the table: every reading is stored as registration
      leaves it, identities are distinct and below `nextId`, and no two
      readings share (Cpf, Mes, Ano). */
  ghost predicate TableInvariant(s: seq<Consumo>, nextId: int)
  {
    && KeysUnique(s)
    && (forall i :: 0 <= i < |s| ==> Stored(s[i]))
    && (forall i :: 0 <= i < |s| ==> 0 < s[i].id < nextId)
    && (forall i, j :: 0 <= i < j < |s| ==> s[i].id != s[j].id)
  }

  /** Inserting a stored reading with a new key and the next identity keeps
      the invariant. */
  lemma InsertKeepsInvariant(s: seq<Consumo>, nextId: int, x: Consumo)
    requires TableInvariant(s, nextId) && 0 < nextId
    requires Stored(x) && x.id == nextId && !KeyPresent(s, KeyOf(x))
    ensures TableInvariant(s + [x], nextId + 1)
  {
  }

  /** Removing any reading keeps the invariant. */
  lemma RemoveKeepsInvariant(s: seq<Consumo>, nextId: int, i: nat)
    requires TableInvariant(s, nextId) && i < |s|
    ensures TableInvariant(s[..i] + s[i + 1..], nextId)
  {
  }

  /** The records left once the first record with key `k`, if any, is
      removed. */
  function RemoveKey(s: seq<Consumo>, k: Key): (t: seq<Consumo>)
    ensures FindIndex(s, k).None? ==> t == s
    ensures FindIndex(s, k).Some? ==> |t| == |s| - 1
  {
    match FindIndex(s, k)
    case None => s
    case Some(i) => s[..i] + s[i + 1..]
  }

  /** Removing a key from a valid table keeps the invariant. */
  lemma RemoveKeyKeepsInvariant(s: seq<Consumo>, nextId: int, k: Key)
    requires TableInvariant(s, nextId)
    ensures TableInvariant(RemoveKey(s, k), nextId)
  {
    match FindIndex(s, k)
    case None =>
      assert RemoveKey(s, k) == s;
    case Some(i) =>
      assert RemoveKey(s, k) == s[..i] + s[i + 1..];
      RemoveKeepsInvariant(s, nextId, i);
  }

  /** In a table with unique keys, removing a key removes exactly the
      records with that key. */
  lemma RemoveKeyExactly(s: seq<Consumo>, k: Key)
    requires KeysUnique(s)
    ensures forall x :: x in RemoveKey(s, k) <==> x in s && KeyOf(x) != k
  {
    match FindIndex(s, k)
    case None =>
      assert RemoveKey(s, k) == s;
    case Some(i) =>
      assert RemoveKey(s, k) == s[..i] + s[i + 1..];
      RemoveAtExactly(s, i);
  }

  /** Removing a key takes the removed record's total away from the sum. */
  lemma RemoveKeySum(s: seq<Consumo>, k: Key)
    requires FindIndex(s, k).Some?
    ensures Sum(RemoveKey(s, k)) == Sum(s) - s[FindIndex(s, k).value].total
  {
    SumRemoveAt(s, FindIndex(s, k).value);
  }

  /** The table of readings, as the database holds it. */
  class ConsumoTable {
    var records: seq<Consumo>
    /** The identity the next inserted reading receives. */
    var nextId: int

    ghost predicate Valid()
      reads this
    {
      TableInvariant(records, nextId) && 0 < nextId
    }

    constructor ()
      ensures Valid() && records == [] && nextId == 1
    {
      records := [];
      nextId := 1;
    }

    /** POST cadastrar: check the fields, refuse a second reading for the
        same customer and period, bill the reading and insert it. */
    method Register(c: Consumo) returns (result: Outcome<Consumo>)
      requires Valid()
      modifies this
      ensures Valid()
      ensures Validate(c).Some? ==>
        result == Err(BadRequest(Validate(c).value)) && records == old(records) && nextId == old(nextId)
      ensures Validate(c).None? && KeyPresent(old(records), KeyOf(c)) ==>
        result == Err(Conflict) && records == old(records) && nextId == old(nextId)
      ensures Validate(c).None? && !KeyPresent(old(records), KeyOf(c)) ==>
        && result == Ok(ApplyBill(c).(id := old(nextId)))
        && records == old(records) + [result.value]
        && nextId == old(nextId) + 1
      ensures result.Ok? ==> Sum(records) == old(Sum(records)) + result.value.total
    {
      var invalid := Validate(c);
      if invalid.Some? {
        return Err(BadRequest(invalid.value));
      }
      var found := FindIndex(records, KeyOf(c));
      if found.Some? {
        return Err(Conflict);
      }
      var stored := ApplyBill(c).(id := nextId);
      InsertKeepsInvariant(records, nextId, stored);
      SumAppend(records, stored);
      records := records + [stored];
      nextId := nextId + 1;
      result := Ok(stored);
    }

    /** GET listar: every reading, or NotFound when there is none. */
    method List() returns (result: Outcome<seq<Consumo>>)
      ensures records == [] ==> result == Err(NotFound)
      ensures records != [] ==> result == Ok(records)
    {
      if |records| == 0 {
        return Err(NotFound);
      }
      result := Ok(records);
    }

    /** GET buscar: the reading of a customer and period, or NotFound. */
    method Lookup(cpf: string, mes: Int32, ano: Int32) returns (result: Outcome<Consumo>)
      requires Valid()
      ensures result.Err? <==> !KeyPresent(records, Key(cpf, mes, ano))
      ensures result.Err? ==> result.failure == NotFound
      ensures result.Ok? ==> result.value in records && KeyOf(result.value) == Key(cpf, mes, ano)
      ensures result.Ok? ==> forall x :: x in records && KeyOf(x) == Key(cpf, mes, ano) ==> x == result.value
    {
      var found := FindIndex(records, Key(cpf, mes, ano));
      if found.None? {
        return Err(NotFound);
      }
      var i := found.value;
      forall x | x in records && KeyOf(x) == Key(cpf, mes, ano)
        ensures x == records[i]
      {
        UniqueMatch(records, i, x);
      }
      result := Ok(records[i]);
    }

    /** DELETE remover: remove the reading of a customer and period, or
        report NotFound and change nothing. */
    method Remove(cpf: string, mes: Int32, ano: Int32) returns (result: Outcome<()>)
      requires Valid()
      modifies this
      ensures Valid() && nextId == old(nextId)
      ensures records == RemoveKey(old(records), Key(cpf, mes, ano))
      ensures !KeyPresent(old(records), Key(cpf, mes, ano)) ==>
        result == Err(NotFound) && records == old(records)
      ensures KeyPresent(old(records), Key(cpf, mes, ano)) ==>
        && result == Ok(())
        && |records| == |old(records)| - 1
        && (forall x :: x in records <==> x in old(records) && KeyOf(x) != Key(cpf, mes, ano))
      ensures FindIndex(old(records), Key(cpf, mes, ano)).Some? ==>
        var i := FindIndex(old(records), Key(cpf, mes, ano)).value;
        && records == old(records)[..i] + old(records)[i + 1..]
        && Sum(records) == old(Sum(records)) - old(records)[i].total
    {
      var k := Key(cpf, mes, ano);
      var found := FindIndex(records, k);
      if found.None? {
        assert RemoveKey(records, k) == records;
        return Err(NotFound);
      }
      ghost var before := records;
      RemoveKeyKeepsInvariant(records, nextId, k);
      records := RemoveKey(records, k);
      assert Valid();
      RemoveKeyExactly(before, k);
      RemoveKeySum(before, k);
      result := Ok(());
    }

    /** GET total-geral: the sum of every reading's total, or NotFound when
        there is none; the sum is at least the minimum charge per reading. */
    method TotalGeral() returns (result: Outcome<real>)
      requires Valid()
      ensures records == [] ==> result == Err(NotFound)
      ensures records != [] ==> result == Ok(Sum(records))
      ensures result.Ok? ==> result.value >= MinimumCharge * |records| as real
    {
      if |records| == 0 {
        return Err(NotFound);
      }
      SumAtLeastMinimum(records);
      result := Ok(Sum(records));
    }
  }

  /** Registering the same reading twice in an empty table: the first call
      creates it, the second is a conflict, one reading remains, and the
      grand total is that reading's total. */
  method RegisterTwice(c: Consumo) returns (first: Outcome<Consumo>, second: Outcome<Consumo>, count: nat, grand: Outcome<real>)
    requires Validate(c) == None
    ensures first == Ok(ApplyBill(c).(id := 1))
    ensures second == Err(Conflict)
    ensures count == 1
    ensures grand == Ok(first.value.total)
  {
    var table := new ConsumoTable();
    assert Sum(table.records) == 0.0;
    first := table.Register(c);
    assert Sum(table.records) == first.value.total;
    second := table.Register(c);
    assert Sum(table.records) == first.value.total;
    count := |table.records|;
    grand := table.TotalGeral();
  }
}
