/** The API token: a 32-character string over the 62 ASCII letters and
    digits, each character picked by one draw of the host's random number
    generator. The draws are an input here: `rand[i]` is the i-th value
    returned by `Math.random`, a real in [0, 1).
 */
module Token {

  const TokenLength := 32

  /** `generateToken`'s `chars` literal, written as its three runs. */
  const Upper: string := "ABCDEFGHIJKLMNOPQRSTUVWXYZ"
  const Lower: string := "abcdefghijklmnopqrstuvwxyz"
  const Digits: string := "0123456789"
  const Alphabet: string := Upper + Lower + Digits

  predicate IsAlphanumeric(c: char) {
    'A' <= c <= 'Z' || 'a' <= c <= 'z' || '0' <= c <= '9'
  }

  /** What a generated token looks like. */
  predicate IsCredential(t: string) {
    |t| == TokenLength && forall i :: 0 <= i < |t| ==> IsAlphanumeric(t[i])
  }

  /** Values `Math.random` can return. */
  predicate RandomDraws(rand: seq<real>) {
    forall i :: 0 <= i < |rand| ==> 0.0 <= rand[i] < 1.0
  }

  /** `Math.floor(r * chars.length)`: always an index into the alphabet. */
  function Pick(r: real): (k: int)
    requires 0.0 <= r < 1.0
    ensures 0 <= k < |Alphabet|
  {
    (r * (|Alphabet| as real)).Floor
  }

  /** The character at each alphabet position, computed from its run. */
  function CharAt(k: int): char
    requires 0 <= k < 62
  {
    if k < 26 then (65 + k) as char
    else if k < 52 then (97 + k - 26) as char
    else (48 + k - 52) as char
  }

  /** Position of an alphanumeric character in the alphabet. */
  function IndexOf(c: char): (k: int)
    requires IsAlphanumeric(c)
    ensures 0 <= k < 62 && CharAt(k) == c
  {
    if 'A' <= c <= 'Z' then c as int - 65
    else if 'a' <= c <= 'z' then c as int - 97 + 26
    else c as int - 48 + 52
  }

  /** The alphabet is exactly the 62 alphanumeric characters, in order
      upper case, lower case, digits. */
  lemma AlphabetSpans()
    ensures |Alphabet| == 62
    ensures forall k :: 0 <= k < 62 ==> Alphabet[k] == CharAt(k) && IsAlphanumeric(Alphabet[k])
  {
    forall k | 0 <= k < 26 ensures Upper[k] == CharAt(k) {
      assert |Upper| == 26;
    }
    forall k | 0 <= k < 26 ensures Lower[k] == CharAt(k + 26) {
      assert |Lower| == 26;
    }
    forall k | 0 <= k < 10 ensures Digits[k] == CharAt(k + 52) {
      assert |Digits| == 10;
    }
  }

  /** The token the draws produce: one character per draw. */
  function TokenOf(rand: seq<real>): (t: string)
    requires RandomDraws(rand)
    ensures |t| == |rand|
  {
    seq(|rand|, i requires 0 <= i < |rand| => Alphabet[Pick(rand[i])])
  }

  /** `generateToken`: appends 32 picked characters to an empty string. */
  method GenerateToken(rand: seq<real>) returns (token: string)
    requires |rand| == TokenLength && RandomDraws(rand)
    ensures token == TokenOf(rand)
    ensures IsCredential(token)
  {
    AlphabetSpans();
    token := "";
    var i := 0;
    while i < TokenLength
      invariant 0 <= i <= TokenLength
      invariant |token| == i
      invariant forall j :: 0 <= j < i ==> token[j] == Alphabet[Pick(rand[j])]
    {
      token := token + [Alphabet[Pick(rand[i])]];
      i := i + 1;
    }
  }

  /** Every 32 draws give a credential. */
  lemma TokenOfIsCredential(rand: seq<real>)
    requires |rand| == TokenLength && RandomDraws(rand)
    ensures IsCredential(TokenOf(rand))
  {
    AlphabetSpans();
  }

  /** Every credential can be generated: the draw k/62 picks alphabet
      position k, so the generator's range is exactly the credentials. */
  lemma EveryCredentialIsGenerable(t: string)
    requires IsCredential(t)
    ensures exists rand :: |rand| == TokenLength && RandomDraws(rand) && TokenOf(rand) == t
  {
    AlphabetSpans();
    var rand := seq(|t|, i requires 0 <= i < |t| => IndexOf(t[i]) as real / 62.0);
    forall i | 0 <= i < |t| ensures Pick(rand[i]) == IndexOf(t[i]) {
      var k := IndexOf(t[i]);
      assert rand[i] * 62.0 == k as real;
    }
    assert TokenOf(rand) == t;
  }
}
