/** The simulated decentralized-storage identifier built in
    `handleSaveToDecentralizedStorage` (components/Summarizer.tsx): "Qm"
    followed by 44 characters, each picked by a random index into a
    62-character alphanumeric alphabet. The random indices are a parameter. */
module FakeStorage {

  const HashPrefix: string := "Qm"

  /** How many characters are drawn after the prefix. */
  const HashDraws: nat := 44

  const Lowercase: string := "abcdefghijklmnopqrstuvwxyz"
  const Uppercase: string := "ABCDEFGHIJKLMNOPQRSTUVWXYZ"
  const Digits: string := "0123456789"

  /** The alphabet string the identifier's characters are taken from, in the
      source's order: lower case, upper case, digits. */
  const Alphabet: string := Lowercase + Uppercase + Digits

  /** The character class `[A-Za-z0-9]`. */
  predicate IsAlphanumeric(c: char) {
    'a' <= c <= 'z' || 'A' <= c <= 'Z' || '0' <= c <= '9'
  }

  /** The shape of every identifier the simulator produces:
      `Qm[A-Za-z0-9]{44}`. */
  predicate IsFakeHash(h: string) {
    && |h| == |HashPrefix| + HashDraws
    && h[..|HashPrefix|] == HashPrefix
    && forall i :: |HashPrefix| <= i < |h| ==> IsAlphanumeric(h[i])
  }

  /** `Math.floor(Math.random() * 62)` yields an index in [0, 62); one is
      drawn for each of the 44 positions. */
  predicate ValidDraws(draws: seq<int>) {
    |draws| == HashDraws && forall i :: 0 <= i < |draws| ==> 0 <= draws[i] < |Alphabet|
  }

  /** `s.charAt(i)`: the one-character string at `i`, or "" when `i` is out
      of range. */
  function CharAt(s: string, i: int): (r: string)
    ensures |r| <= 1
    ensures r == [] <==> !(0 <= i < |s|)
    ensures r != [] ==> r[0] == s[i]
  {
    if 0 <= i < |s| then [s[i]] else ""
  }

  /** `draws.map(i => alphabet.charAt(i)).join('')`. */
  function JoinDrawn(alphabet: string, draws: seq<int>): (r: string)
    ensures (forall i :: 0 <= i < |draws| ==> 0 <= draws[i] < |alphabet|) ==>
              |r| == |draws| && forall i :: 0 <= i < |draws| ==> r[i] == alphabet[draws[i]]
  {
    if draws == [] then "" else CharAt(alphabet, draws[0]) + JoinDrawn(alphabet, draws[1..])
  }

  /** The identifier for the given random draws. */
  function FakeHash(draws: seq<int>): (h: string)
    ensures ValidDraws(draws) ==> IsFakeHash(h)
    ensures ValidDraws(draws) ==> forall i :: 0 <= i < HashDraws ==> h[|HashPrefix| + i] == Alphabet[draws[i]]
  {
    var h := HashPrefix + JoinDrawn(Alphabet, draws);
    if ValidDraws(draws) then
      AlphabetIsAlphanumeric();
      PrefixedDrawsShape(Alphabet, draws);
      h
    else
      h
  }

  /** The prefix followed by 44 characters drawn from an alphanumeric
      alphabet has the identifier's shape. */
  lemma PrefixedDrawsShape(alphabet: string, draws: seq<int>)
    requires forall i :: 0 <= i < |alphabet| ==> IsAlphanumeric(alphabet[i])
    requires |draws| == HashDraws && forall i :: 0 <= i < |draws| ==> 0 <= draws[i] < |alphabet|
    ensures var h := HashPrefix + JoinDrawn(alphabet, draws);
      && IsFakeHash(h)
      && forall i :: 0 <= i < HashDraws ==> h[|HashPrefix| + i] == alphabet[draws[i]]
  {
    var tail := JoinDrawn(alphabet, draws);
    var h := HashPrefix + tail;
    assert |tail| == HashDraws;
    assert forall i :: 0 <= i < HashDraws ==> tail[i] == alphabet[draws[i]];
    PrefixedShape(tail);
    assert forall i :: 0 <= i < HashDraws ==> h[|HashPrefix| + i] == tail[i];
  }

  /** The prefix followed by 44 alphanumeric characters has the
      identifier's shape. */
  lemma PrefixedShape(tail: string)
    requires |tail| == HashDraws && forall i :: 0 <= i < |tail| ==> IsAlphanumeric(tail[i])
    ensures IsFakeHash(HashPrefix + tail)
  {
    var h := HashPrefix + tail;
    assert h[..|HashPrefix|] == HashPrefix;
    assert forall i :: |HashPrefix| <= i < |h| ==> h[i] == tail[i - |HashPrefix|];
  }

  /** Position `i` of the alphabet, by arithmetic on code points. */
  function AlphabetCode(i: nat): char
    requires i < 62
  {
    if i < 26 then ('a' as int + i) as char
    else if i < 52 then ('A' as int + (i - 26)) as char
    else ('0' as int + (i - 52)) as char
  }

  lemma AlphabetAt(i: nat)
    requires i < |Alphabet|
    ensures |Alphabet| == 62
    ensures Alphabet[i] == AlphabetCode(i)
  {
    if i < 26 {
      assert Alphabet[i] == Lowercase[i];
    } else if i < 52 {
      assert Alphabet[i] == Uppercase[i - 26];
    } else {
      assert Alphabet[i] == Digits[i - 52];
    }
  }

  /** Every alphabet character is alphanumeric. */
  lemma AlphabetIsAlphanumeric()
    ensures |Alphabet| == 62
    ensures forall i :: 0 <= i < |Alphabet| ==> IsAlphanumeric(Alphabet[i])
  {
    forall i | 0 <= i < |Alphabet|
      ensures IsAlphanumeric(Alphabet[i])
    {
      AlphabetAt(i);
    }
  }

  /** The position of an alphanumeric character in the alphabet. */
  function AlphabetIndex(c: char): (i: nat)
    requires IsAlphanumeric(c)
    ensures i < |Alphabet| && Alphabet[i] == c
  {
    var i := if 'a' <= c <= 'z' then c as int - 'a' as int
             else if 'A' <= c <= 'Z' then 26 + (c as int - 'A' as int)
             else 52 + (c as int - '0' as int);
    AlphabetAt(i);
    i
  }

  /** The alphabet has no repeated character, so a character determines the
      index that drew it. */
  lemma AlphabetInjective(i: nat, j: nat)
    requires i < |Alphabet| && j < |Alphabet|
    ensures Alphabet[i] == Alphabet[j] <==> i == j
  {
    AlphabetAt(i);
    AlphabetAt(j);
  }

  /** The draw that put character `i` after the prefix of `h`. */
  function DrawAt(h: string, i: nat): (d: nat)
    requires IsFakeHash(h) && i < HashDraws
    ensures d < |Alphabet| && Alphabet[d] == h[|HashPrefix| + i]
  {
    AlphabetIndex(h[|HashPrefix| + i])
  }

  /** The draws that produce a given identifier. */
  function DrawsOf(h: string): (draws: seq<int>)
    requires IsFakeHash(h)
    ensures ValidDraws(draws)
    ensures forall i :: 0 <= i < HashDraws ==> Alphabet[draws[i]] == h[|HashPrefix| + i]
  {
    seq(HashDraws, i requires 0 <= i < HashDraws => DrawAt(h, i))
  }

  /** Every string of the shape `Qm[A-Za-z0-9]{44}` is the identifier of
      some draws: the shape describes the simulator's outputs exactly. */
  lemma EveryShapedHashIsProduced(h: string)
    requires IsFakeHash(h)
    ensures FakeHash(DrawsOf(h)) == h
  {
    var d := DrawsOf(h);
    var g := FakeHash(d);
    forall i | 0 <= i < |h|
      ensures g[i] == h[i]
    {
      if i < |HashPrefix| {
        assert g[i] == g[..|HashPrefix|][i];
        assert h[i] == h[..|HashPrefix|][i];
      } else {
        var k := i - |HashPrefix|;
        assert g[|HashPrefix| + k] == Alphabet[d[k]];
      }
    }
  }

  /** Different draws give different identifiers, and the draws can be read
      back from the identifier. */
  lemma FakeHashInjective(d: seq<int>, e: seq<int>)
    requires ValidDraws(d) && ValidDraws(e)
    ensures DrawsOf(FakeHash(d)) == d
    ensures FakeHash(d) == FakeHash(e) ==> d == e
  {
    var h := FakeHash(d);
    var back := DrawsOf(h);
    forall i | 0 <= i < HashDraws
      ensures back[i] == d[i]
    {
      assert Alphabet[back[i]] == h[|HashPrefix| + i] == Alphabet[d[i]];
      AlphabetInjective(back[i], d[i]);
    }
    if h == FakeHash(e) {
      forall i | 0 <= i < HashDraws
        ensures d[i] == e[i]
      {
        assert h[|HashPrefix| + i] == Alphabet[d[i]] == Alphabet[e[i]];
        AlphabetInjective(d[i], e[i]);
      }
    }
  }
}
