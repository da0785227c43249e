/**
 * Random identifiers over the digits and the lower-case Latin letters. The
 * random generator is modelled by a free choice of a symbol index per
 * position; no distribution is modelled.
 */
module RandomString {
  import opened Model

  /** The alphabet the static initialiser builds: '0' … '9', then 'a' … 'z'. */
  const Alphabet: string :=
    seq(36, k requires 0 <= k < 36 => if k < 10 then ('0' as int + k) as char else ('a' as int + (k - 10)) as char)

  /** The static initialiser: one loop over the digits, one over the letters. */
  method Symbols() returns (symbols: string)
    ensures |symbols| == 36
    ensures forall k :: 0 <= k < 10 ==> symbols[k] == '0' + k as char
    ensures forall k :: 10 <= k < 36 ==> symbols[k] == 'a' + (k - 10) as char
    ensures symbols == Alphabet
  {
    symbols := [];
    var ch := '0';
    while ch <= '9'
      invariant '0' <= ch <= ':'
      invariant |symbols| == ch as int - '0' as int
      invariant forall k :: 0 <= k < |symbols| ==> symbols[k] == '0' + k as char
    {
      symbols := symbols + [ch];
      ch := ch + 1 as char;
    }
    ch := 'a';
    while ch <= 'z'
      invariant 'a' <= ch <= '{'
      invariant |symbols| == 10 + (ch as int - 'a' as int)
      invariant forall k :: 0 <= k < 10 ==> symbols[k] == '0' + k as char
      invariant forall k :: 10 <= k < |symbols| ==> symbols[k] == 'a' + (k - 10) as char
    {
      symbols := symbols + [ch];
      ch := ch + 1 as char;
    }
    assert symbols == Alphabet;
  }

  /** A symbol is exactly a decimal digit or a lower-case Latin letter. */
  lemma AlphabetMembers()
    ensures |Alphabet| == 36
    ensures forall c :: c in Alphabet <==> '0' <= c <= '9' || 'a' <= c <= 'z'
  {
    forall c | '0' <= c <= '9' || 'a' <= c <= 'z'
      ensures c in Alphabet
    {
      if c <= '9' {
        assert Alphabet[c as int - '0' as int] == c;
      } else {
        assert Alphabet[10 + (c as int - 'a' as int)] == c;
      }
    }
  }

  class RandomString {
    /** `buf`: the characters of the last string, overwritten by each call. */
    const buf: array<char>

    /** The buffer allocation, reached only through `Create`, which guards the length. */
    constructor (length: nat)
      requires length >= 1
      ensures buf.Length == length && fresh(buf)
    {
      buf := new char[length];
    }

    /**
     * `nextString()`: every position of the buffer receives a freshly chosen
     * symbol, so the result has the constructor's length, holds only
     * symbols, and keeps nothing of the previous string.
     */
    method NextString() returns (s: string, ghost picks: seq<nat>)
      modifies buf
      ensures |s| == buf.Length && s == buf[..]
      ensures forall k :: 0 <= k < |s| ==> s[k] in Alphabet
      ensures |picks| == |s| && forall k :: 0 <= k < |s| ==> picks[k] < |Alphabet| && s[k] == Alphabet[picks[k]]
    {
      picks := [];
      var idx := 0;
      while idx < buf.Length
        invariant 0 <= idx <= buf.Length && |picks| == idx
        invariant forall k :: 0 <= k < idx ==> picks[k] < |Alphabet| && buf[k] == Alphabet[picks[k]]
      {
        var pick :| 0 <= pick < |Alphabet|;
        buf[idx] := Alphabet[pick];
        picks := picks + [pick];
        idx := idx + 1;
      }
      s := buf[..];
    }
  }

  /** `new RandomString(length)`: an argument below 1 throws. */
  method Create(length: int) returns (r: Option<RandomString>)
    ensures r.None? <==> length < 1
    ensures r.Some? ==> r.value.buf.Length == length && fresh(r.value.buf)
  {
    if length < 1 {
      return None;
    }
    var gen := new RandomString(length);
    return Some(gen);
  }
}
