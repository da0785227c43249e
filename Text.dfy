/**
 * String helpers shared by the exporters and plot builders: separator joins,
 * terminator concatenation, decimal rendering of counters and character search.
 * Java's StringBuilder loops in the source are specified against these.
 */
module Text {

  /** Items with `sep` between neighbours and none at either end. */
  function Join(items: seq<string>, sep: string): (r: string)
    decreases |items|
  {
    if |items| == 0 then ""
    else if |items| == 1 then items[0]
    else Join(items[..|items| - 1], sep) + sep + items[|items| - 1]
  }

  /** Every item followed by `term`, in order. */
  function Terminated(items: seq<string>, term: string): (r: string)
    decreases |items|
  {
    if |items| == 0 then "" else Terminated(items[..|items| - 1], term) + items[|items| - 1] + term
  }

  /** Sum of the lengths of the items. */
  function TotalLength(items: seq<string>): nat
    decreases |items|
  {
    if |items| == 0 then 0 else TotalLength(items[..|items| - 1]) + |items[|items| - 1]|
  }

  /** A prefix one longer is the shorter prefix and the next element. */
  lemma PrefixExtend<T>(s: seq<T>, m: nat)
    requires m < |s|
    ensures s[..m + 1] == s[..m] + [s[m]]
  {
  }

  /** Number of occurrences of `c` in `s`. */
  function Count(s: string, c: char): nat
    decreases |s|
  {
    if |s| == 0 then 0 else Count(s[..|s| - 1], c) + (if s[|s| - 1] == c then 1 else 0)
  }

  lemma {:induction false} CountAppend(a: string, b: string, c: char)
    ensures Count(a + b, c) == Count(a, c) + Count(b, c)
    decreases |b|
  {
    if |b| == 0 {
      assert a + b == a;
    } else {
      assert (a + b)[..|a + b| - 1] == a + b[..|b| - 1];
      CountAppend(a, b[..|b| - 1], c);
    }
  }

  lemma {:induction false} CountAbsent(s: string, c: char)
    requires c !in s
    ensures Count(s, c) == 0
    decreases |s|
  {
    if |s| > 0 {
      assert c !in s[..|s| - 1];
      CountAbsent(s[..|s| - 1], c);
    }
  }

  /** Appending one item after a separator extends the join. */
  lemma JoinSnoc(items: seq<string>, x: string, sep: string)
    requires |items| > 0
    ensures Join(items + [x], sep) == Join(items, sep) + sep + x
  {
    assert (items + [x])[..|items + [x]| - 1] == items;
  }

  /**
   * Writing every item followed by the separator and then one final item gives
   * the same text as joining all of them with the separator.
   */
  lemma {:induction false} TerminatedThenLastIsJoin(items: seq<string>, last: string, sep: string)
    ensures Terminated(items, sep) + last == Join(items + [last], sep)
    decreases |items|
  {
    if |items| == 0 {
      assert items + [last] == [last];
    } else {
      var init := items[..|items| - 1];
      var x := items[|items| - 1];
      assert items == init + [x];
      TerminatedThenLastIsJoin(init, x, sep);
      assert init + [x] == items;
      JoinSnoc(items, last, sep);
    }
  }

  /** Length of a terminated concatenation: every item contributes its length plus one terminator. */
  lemma {:induction false} TerminatedLength(items: seq<string>, term: string)
    ensures |Terminated(items, term)| == TotalLength(items) + |items| * |term|
    decreases |items|
  {
    if |items| > 0 {
      TerminatedLength(items[..|items| - 1], term);
      assert |items| * |term| == (|items| - 1) * |term| + |term|;
    }
  }

  /** A join of n items holds exactly n - 1 separator characters when no item contains it. */
  lemma {:induction false} JoinCount(items: seq<string>, sep: char)
    requires |items| > 0
    requires forall k :: 0 <= k < |items| ==> sep !in items[k]
    ensures Count(Join(items, [sep]), sep) == |items| - 1
    decreases |items|
  {
    CountAbsent(items[|items| - 1], sep);
    if |items| > 1 {
      var init := items[..|items| - 1];
      JoinCount(init, sep);
      CountAppend(Join(init, [sep]), [sep], sep);
      CountAppend(Join(init, [sep]) + [sep], items[|items| - 1], sep);
      assert Count([sep], sep) == 1 by {
        assert [sep][..0] == [];
      }
    }
  }

  /** A join of n items holds n - 1 `c`s when the separator holds one and no item holds any. */
  lemma {:induction false} JoinCountIn(items: seq<string>, sep: string, c: char)
    requires |items| > 0
    requires Count(sep, c) == 1
    requires forall k :: 0 <= k < |items| ==> c !in items[k]
    ensures Count(Join(items, sep), c) == |items| - 1
    decreases |items|
  {
    var last := items[|items| - 1];
    CountAbsent(last, c);
    if |items| > 1 {
      var init := items[..|items| - 1];
      JoinCountIn(init, sep, c);
      assert Join(items, sep) == Join(init, sep) + sep + last;
      CountAppend(Join(init, sep), sep, c);
      CountAppend(Join(init, sep) + sep, last, c);
    }
  }

  /** The Arabic digit for 0..9. */
  function DigitChar(d: nat): (c: char)
    requires d < 10
    ensures '0' <= c <= '9'
  {
    ('0' as int + d) as char
  }

  /** Decimal rendering of a natural number without leading zeros, as Java's Integer.toString. */
  function Digits(n: nat): (r: string)
    ensures |r| >= 1
    ensures forall k :: 0 <= k < |r| ==> '0' <= r[k] <= '9'
  {
    if n < 10 then [DigitChar(n)] else Digits(n / 10) + [DigitChar(n % 10)]
  }

  /** Value of a string of decimal digits; leading zeros are allowed. */
  function ParseDigits(s: string): nat
    requires forall k :: 0 <= k < |s| ==> '0' <= s[k] <= '9'
    decreases |s|
  {
    if |s| == 0 then 0 else ParseDigits(s[..|s| - 1]) * 10 + (s[|s| - 1] as int - '0' as int)
  }

  /** Decimal rendering zero-padded to at least two characters: Java's "%02d" on a non-negative int. */
  function Pad2(n: nat): (r: string)
    ensures forall k :: 0 <= k < |r| ==> '0' <= r[k] <= '9'
  {
    if n < 10 then "0" + Digits(n) else Digits(n)
  }

  lemma {:induction false} ParseDigitsOfDigits(n: nat)
    ensures ParseDigits(Digits(n)) == n
  {
    if n >= 10 {
      ParseDigitsOfDigits(n / 10);
      var d := Digits(n / 10) + [DigitChar(n % 10)];
      assert d[..|d| - 1] == Digits(n / 10);
    }
  }

  /** Rendering then parsing a padded index gives the index back, so distinct indices get distinct names. */
  lemma Pad2RoundTrip(n: nat)
    ensures ParseDigits(Pad2(n)) == n
    ensures n < 100 ==> |Pad2(n)| == 2
    ensures n >= 100 ==> |Pad2(n)| >= 3
  {
    ParseDigitsOfDigits(n);
    if n < 10 {
      var r := "0" + Digits(n);
      assert r[..|r| - 1] == "0";
      assert "0"[..0] == "";
    } else if n < 100 {
      assert Digits(n / 10) == [DigitChar(n / 10)];
    } else {
      assert |Digits(n / 10)| >= 2 by {
        assert n / 10 >= 10;
      }
    }
  }

  lemma Pad2Injective(m: nat, n: nat)
    requires Pad2(m) == Pad2(n)
    ensures m == n
  {
    Pad2RoundTrip(m);
    Pad2RoundTrip(n);
  }

  /** Position of the first occurrence of `c` in `s`, or -1: Java's String.indexOf(char). */
  function IndexOf(s: string, c: char): (r: int)
    ensures -1 <= r < |s|
    ensures r == -1 <==> c !in s
    ensures r >= 0 ==> s[r] == c && c !in s[..r]
    decreases |s|
  {
    if |s| == 0 then -1
    else if s[0] == c then 0
    else
      var i := IndexOf(s[1..], c);
      assert s[1..][..if i < 0 then 0 else i] == s[1..if i < 0 then 1 else i + 1];
      if i < 0 then -1 else i + 1
  }
}
