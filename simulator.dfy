/** The transaction generator (internal/usecase/simulator.go,
    generateTransaction). Each call to the random source and the clock
    becomes a parameter; the three personas, their amount ranges, merchants
    and locations, and the rare high-value override are modelled as written. */
module Simulator {
  import opened Domain
  import opened Decimal

  const Personas: seq<string> := ["user-1", "user-2", "user-3"]
  const OverrideAmount := 99999
  const OverridePercent := 5
  const Currency := "USD"
  const IpPrefix := "192.168.1."

  /** The values drawn from the random source, each in the range rand.Intn
      gives it: the persona index, the amount offset, the override roll (out
      of 100) and the IP host part minus one. */
  datatype Draws = Draws(persona: nat, amount: nat, roll: nat, ipHost: nat)

  /** The persona's amount range: its lowest amount and its width. */
  function AmountBase(persona: nat): int {
    if persona == 0 then 5000 else if persona == 1 then 100 else 20
  }

  function AmountSpan(persona: nat): nat {
    if persona == 0 then 35000 else if persona == 1 then 3000 else 800
  }

  predicate InRange(d: Draws) {
    d.persona < |Personas| && d.amount < AmountSpan(d.persona) && d.roll < 100 && d.ipHost < 254
  }

  // ---------------------------------------------------------------------
  // The generator

  function GenerateTransaction(d: Draws, nanos: int): (tx: Transaction)
    requires InRange(d)
    ensures tx.userId == Personas[d.persona]
    ensures tx.currency == Currency
    ensures tx.id == "tx-" + IntToString(nanos)
    ensures tx.ip == IpPrefix + NatToString(d.ipHost + 1)
    ensures d.roll < OverridePercent ==>
      tx.amount == OverrideAmount && tx.location == "Lagos, Nigeria" && tx.merchant == "Unknown Global Store"
    ensures d.roll >= OverridePercent ==>
      tx.amount == AmountBase(d.persona) + d.amount
  {
    var userId := Personas[d.persona];
    var amount := AmountBase(d.persona) + d.amount;
    var merchant :=
      if userId == "user-1" then "Premium Apple Reseller"
      else if userId == "user-2" then "Binance P2P Exchange"
      else "Local Supermarket";
    var location :=
      if userId == "user-1" then "Kyiv, Ukraine"
      else if userId == "user-2" then "Singapore"
      else "Lviv, Ukraine";
    var (amount, merchant, location) :=
      if d.roll < OverridePercent then (OverrideAmount, "Unknown Global Store", "Lagos, Nigeria")
      else (amount, merchant, location);
    Transaction("tx-" + IntToString(nanos), userId, amount, Currency, merchant, location,
                IpPrefix + NatToString(d.ipHost + 1))
  }

  /** Without the override, each persona keeps to its own range, merchant and
      location. */
  lemma PersonaProfiles(d: Draws, nanos: int)
    requires InRange(d) && d.roll >= OverridePercent
    ensures var tx := GenerateTransaction(d, nanos);
      && (d.persona == 0 ==> 5000 <= tx.amount < 40000 && tx.merchant == "Premium Apple Reseller"
                             && tx.location == "Kyiv, Ukraine")
      && (d.persona == 1 ==> 100 <= tx.amount < 3100 && tx.merchant == "Binance P2P Exchange"
                             && tx.location == "Singapore")
      && (d.persona == 2 ==> 20 <= tx.amount < 820 && tx.merchant == "Local Supermarket"
                             && tx.location == "Lviv, Ukraine")
  {
  }

  /** The amount 99999 comes from the override and from nothing else: every
      persona's range ends below it. */
  lemma OverrideIff(d: Draws, nanos: int)
    requires InRange(d)
    ensures GenerateTransaction(d, nanos).amount == OverrideAmount <==> d.roll < OverridePercent
    ensures 20 <= GenerateTransaction(d, nanos).amount <= OverrideAmount
  {
  }

  /** The IP's last octet reads back as a host number from 1 to 254. */
  lemma IpHostInRange(d: Draws, nanos: int)
    requires InRange(d)
    ensures var ip := GenerateTransaction(d, nanos).ip;
      && |ip| > |IpPrefix| && ip[..|IpPrefix|] == IpPrefix
      && (forall i :: |IpPrefix| <= i < |ip| ==> IsDigit(ip[i]))
      && 1 <= ParseNat(ip[|IpPrefix|..]) <= 254
  {
    var host := NatToString(d.ipHost + 1);
    var ip := IpPrefix + host;
    assert ip[|IpPrefix|..] == host;
    assert forall i :: |IpPrefix| <= i < |ip| ==> ip[i] == host[i - |IpPrefix|];
    ParseNatToString(d.ipHost + 1);
  }

  /** Transaction ids are distinct for distinct clock readings, negative
      ones included. */
  lemma IdsDistinct(d1: Draws, d2: Draws, n1: int, n2: int)
    requires InRange(d1) && InRange(d2) && n1 != n2
    ensures GenerateTransaction(d1, n1).id != GenerateTransaction(d2, n2).id
  {
    IntToStringInjective(n1, n2);
    assert ("tx-" + IntToString(n1))[3..] == IntToString(n1);
    assert ("tx-" + IntToString(n2))[3..] == IntToString(n2);
  }
}
