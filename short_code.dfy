/**
 * The short-code generator: `length` characters drawn one at a time from a
 * fixed alphabet that leaves out look-alike characters. `Math.random()` is a
 * parameter: `rolls` holds the values it returns, in the order they are
 * drawn.
 */
module ShortCode {

  /** The alphabet exactly as the source spells it: 48 characters. */
  const Alphabet := "ABCDEFGHJKMNPQRSTWXYZabcdefhijkmnprstwxyz2345678"

  /** The literal has 48 characters: 21 upper-case letters, 20 lower-case letters, 7 digits. */
  lemma AlphabetSize()
    ensures |Alphabet| == 48
  {
  }

  /** The length used when the caller gives none. */
  const DefaultLength := 6

  /** A value `Math.random()` can return. */
  predicate IsRoll(x: real) {
    0.0 <= x < 1.0
  }

  predicate AllRolls(rolls: seq<real>) {
    forall i :: 0 <= i < |rolls| ==> IsRoll(rolls[i])
  }

  /** `Math.floor(roll * chars.length)`: always a position inside the alphabet. */
  function Pick(roll: real): (i: nat)
    requires IsRoll(roll)
    ensures i < |Alphabet|
  {
    (roll * |Alphabet| as real).Floor
  }

  /** A string of `n` characters, every one of them from the alphabet. */
  predicate IsCode(s: string, n: nat) {
    |s| == n && forall i :: 0 <= i < |s| ==> s[i] in Alphabet
  }

  /** The code drawn with `rolls`, one character per roll. */
  function Code(rolls: seq<real>): (s: string)
    requires AllRolls(rolls)
    ensures IsCode(s, |rolls|)
  {
    seq(|rolls|, i requires 0 <= i < |rolls| => Alphabet[Pick(rolls[i])])
  }

  /**
   * `generateRandomString(length = 6)`: the loop appends one alphabet
   * character per iteration while `i < length`, so a negative length gives "".
   */
  method GenerateRandomString(rolls: seq<real>, length: int := DefaultLength) returns (result: string)
    requires length <= |rolls| && AllRolls(rolls)
    ensures IsCode(result, if length < 0 then 0 else length)
    ensures result == Code(rolls[..|result|])
  {
    result := "";
    var i := 0;
    while i < length
      invariant 0 <= i <= if length < 0 then 0 else length
      invariant result == Code(rolls[..i])
    {
      result := result + [Alphabet[Pick(rolls[i])]];
      i := i + 1;
    }
  }
}
