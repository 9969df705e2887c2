/** `IcmsTaxStrategy`: the ICMS rate of a Brazilian state. */
module IcmsTaxStrategy {
  import Ascii

  /** Rates in percent, keyed by the uppercase state code. Every code in the
      table has two letters, so a code is written as its pair of letters. */
  const Rates: map<(char, char), real> := map[
    ('S', 'P') := 18.0, ('R', 'J') := 20.0, ('M', 'G') := 18.0, ('R', 'S') := 17.0, ('P', 'R') := 17.5,
    ('S', 'C') := 17.0, ('B', 'A') := 19.0, ('P', 'E') := 18.0, ('C', 'E') := 18.0, ('G', 'O') := 17.0,
    ('D', 'F') := 18.0, ('E', 'S') := 17.0, ('M', 'T') := 17.0, ('M', 'S') := 17.0, ('P', 'A') := 17.0,
    ('A', 'M') := 20.0, ('M', 'A') := 18.0, ('P', 'B') := 18.0, ('R', 'N') := 18.0, ('A', 'L') := 19.0,
    ('S', 'E') := 19.0, ('P', 'I') := 18.0, ('T', 'O') := 18.0, ('R', 'O') := 17.5, ('A', 'C') := 17.0,
    ('A', 'P') := 18.0, ('R', 'R') := 17.0]

  /** The rate of a state missing from the table. */
  const DefaultRate: real := 18.0

  /** True when the table has an entry for the string `key`. */
  predicate InTable(key: string) {
    |key| == 2 && (key[0], key[1]) in Rates
  }

  /** `getRateForState`: uppercase, then look up, then fall back. */
  function GetRateForState(state: string): (r: real)
    ensures 17.0 <= r <= 20.0
    ensures !InTable(Ascii.ToUpper(state)) ==> r == DefaultRate
  {
    var key := Ascii.ToUpper(state);
    if InTable(key) then Rates[(key[0], key[1])] else DefaultRate
  }

  /** The lookup ignores case: a state and its uppercase form get one rate. */
  lemma IgnoresCase(state: string)
    ensures GetRateForState(state) == GetRateForState(Ascii.ToUpper(state))
  {
    Ascii.ToUpperIdempotent(state);
  }

  /** The rate of a two-letter uppercase code is its table entry, if any. */
  lemma RateOfCode(a: char, b: char)
    requires Ascii.IsUpper(a) && Ascii.IsUpper(b)
    ensures GetRateForState([a, b]) == if (a, b) in Rates then Rates[(a, b)] else DefaultRate
  {
    Ascii.ToUpperKeepsUpper([a, b]);
  }

  /** SP 18, RJ 20, RS 17 and PR 17.5. */
  lemma TableEntries()
    ensures GetRateForState("SP") == 18.0 && GetRateForState("RJ") == 20.0
    ensures GetRateForState("RS") == 17.0 && GetRateForState("PR") == 17.5
  {
    RateOfCode('S', 'P');
    RateOfCode('R', 'J');
    RateOfCode('R', 'S');
    RateOfCode('P', 'R');
  }

  /** Lower-case `sp` and `rj` find the entries of `SP` and `RJ`. */
  lemma LowerCaseCodes()
    ensures GetRateForState("sp") == 18.0 && GetRateForState("rj") == 20.0
  {
    assert Ascii.ToUpper("sp") == "SP";
    assert Ascii.ToUpper("rj") == "RJ";
    RateOfCode('S', 'P');
    RateOfCode('R', 'J');
  }

  /** An unknown code, such as `XX`, gets the default 18%, and so does the
      empty string. */
  lemma UnknownStateGetsDefault()
    ensures GetRateForState("XX") == 18.0
    ensures GetRateForState("") == 18.0
  {
    RateOfCode('X', 'X');
  }

  /** Every code in the table is a pair of uppercase letters. */
  lemma TableKeys()
    ensures forall k | k in Rates :: Ascii.IsUpper(k.0) && Ascii.IsUpper(k.1)
  {
  }
}
