/**
 * FACTORES_COSTOS of app.py: the opening-cost factors of a regular ("MSS")
 * plan, keyed by the plan's term in years. The factors are decimal literals
 * in the source; here they are exact reals.
 */
module CostFactors {
  import opened Results

  /** The two factors of one term: (factor1, factor2). */
  datatype FactorPair = FactorPair(first: real, second: real)

  const Table: map<int, FactorPair> := map[
    5  := FactorPair(0.2475, 0.0619),
    6  := FactorPair(0.2970, 0.0743),
    7  := FactorPair(0.3465, 0.0866),
    8  := FactorPair(0.3960, 0.0990),
    9  := FactorPair(0.4455, 0.1114),
    10 := FactorPair(0.4950, 0.1238),
    11 := FactorPair(0.5445, 0.1361),
    12 := FactorPair(0.5940, 0.1485),
    13 := FactorPair(0.6435, 0.1609),
    14 := FactorPair(0.6930, 0.1733),
    15 := FactorPair(0.7425, 0.1856),
    16 := FactorPair(0.7920, 0.1980),
    17 := FactorPair(0.8415, 0.2104),
    18 := FactorPair(0.8910, 0.2228),
    19 := FactorPair(0.9405, 0.2351),
    20 := FactorPair(0.9900, 0.2475)
  ]

  /** The shortest and longest terms of a regular plan. */
  const MinTerm := 5
  const MaxTerm := 20

  /** `FACTORES_COSTOS[term]`, with `None` for a term that is not a key. */
  function Lookup(term: int): (r: Option<FactorPair>)
    ensures r.Some? <==> MinTerm <= term <= MaxTerm
    ensures r.Some? ==> r.value.first == 0.0495 * term as real
    ensures r.Some? ==> 0.0 < r.value.second < r.value.first
  {
    if term in Table then Some(Table[term]) else None
  }

  /** The keys are exactly the terms 5..20; in particular the lump-sum term 0 is not one. */
  lemma TableKeys()
    ensures forall t :: t in Table <==> MinTerm <= t <= MaxTerm
    ensures 0 !in Table
  {
    forall t | MinTerm <= t <= MaxTerm ensures t in Table {
      assert Lookup(t).Some?;
    }
  }

  /** factor2 is within 0.00005 of factor1 / 4. */
  lemma SecondIsRoundedQuarter(term: int)
    requires term in Table
    ensures -0.00005 <= Table[term].second - Table[term].first / 4.0 <= 0.00005
  {
  }

  /** Both factors strictly increase with the term. */
  lemma {:induction false} FactorsIncrease(a: int, b: int)
    requires a in Table && b in Table && a < b
    ensures Table[a].first < Table[b].first
    ensures Table[a].second < Table[b].second
  {
    assert Lookup(a).Some? && Lookup(b).Some?;
    SecondIsRoundedQuarter(a);
    SecondIsRoundedQuarter(b);
  }
}
