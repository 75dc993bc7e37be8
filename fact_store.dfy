/** The fact store: one `{correct, wrong}` record per multiplication fact, kept under
    the canonical key of the fact, that is its lower operand first (app.js lines 9 and 28-37). */
module FactStore {
  import opened Wrappers

  /** Two operands, in the order they were generated or displayed. */
  type Pair = (int, int)

  /** How often a fact was answered correctly and wrongly. */
  datatype Record = Record(correct: nat, wrong: nat)

  /** The store: canonical key to record. An absent key means "never touched". */
  type Stats = map<Pair, Record>

  /** `statKey`: the canonical key (lower operand, higher operand) of a fact. */
  function StatKey(a: int, b: int): (k: Pair)
    ensures k.0 <= k.1
    ensures multiset{k.0, k.1} == multiset{a, b}
  {
    var lo := if a <= b then a else b;
    var hi := if a <= b then b else a;
    (lo, hi)
  }

  /** Both orders of the operands reach the same record. */
  lemma StatKeySymmetric(a: int, b: int)
    ensures StatKey(a, b) == StatKey(b, a)
  {
  }

  /** Two operand pairs share a record exactly when they are the same pair up to order. */
  lemma SameKeyIffSameFact(a: int, b: int, c: int, d: int)
    ensures StatKey(a, b) == StatKey(c, d) <==> (a == c && b == d) || (a == d && b == c)
  {
  }

  /** `stats[statKey(a, b)]`: the record of a fact, if it was ever touched. */
  function Lookup(stats: Stats, a: int, b: int): (e: Option<Record>)
  {
    var k := StatKey(a, b);
    if k in stats then Some(stats[k]) else None
  }

  /** The record `getEntry` hands out: the stored one, or the zero record it creates. */
  function EntryOrZero(stats: Stats, k: Pair): (e: Record)
  {
    if k in stats then stats[k] else Record(0, 0)
  }

  /** The store after `recordAnswer` for the operands (a, b): the fact's record is
      created if absent and exactly one of its counters goes up by one. */
  function Recorded(stats: Stats, a: int, b: int, correct: bool): (r: Stats)
    ensures StatKey(a, b) in r && r.Keys == stats.Keys + {StatKey(a, b)}
    ensures forall k :: k in stats && k != StatKey(a, b) ==> r[k] == stats[k]
    ensures var before, after := EntryOrZero(stats, StatKey(a, b)), r[StatKey(a, b)];
      after.correct + after.wrong == before.correct + before.wrong + 1 &&
      (correct ==> after.correct == before.correct + 1) &&
      (!correct ==> after.wrong == before.wrong + 1)
  {
    var k := StatKey(a, b);
    var e := EntryOrZero(stats, k);
    stats[k := if correct then e.(correct := e.correct + 1) else e.(wrong := e.wrong + 1)]
  }

  /** `Recorded` is one update of the fact's entry: the record `getEntry` hands out, with
      one counter raised. */
  lemma RecordedIsUpdate(stats: Stats, a: int, b: int, correct: bool, next: Record)
    requires var e := EntryOrZero(stats, StatKey(a, b));
      next == if correct then e.(correct := e.correct + 1) else e.(wrong := e.wrong + 1)
    ensures Recorded(stats, a, b, correct) == stats[StatKey(a, b) := next]
  {
  }

  // ---------- The string form of the key ----------
  // The program keys its store by the string `${lo}x${hi}`. The model keys it by the
  // pair itself; KeyStringInjective shows that the two keyings tell the same facts apart.

  function DigitChar(d: int): (c: char)
    requires 0 <= d < 10
    ensures '0' <= c <= '9'
  {
    ('0' as int + d) as char
  }

  predicate AllDigits(s: string)
  {
    forall i :: 0 <= i < |s| ==> '0' <= s[i] <= '9'
  }

  /** The decimal numeral of a natural number, most significant digit first. */
  function Decimal(n: nat): (s: string)
    ensures |s| > 0 && AllDigits(s)
  {
    if n < 10 then [DigitChar(n)] else Decimal(n / 10) + [DigitChar(n % 10)]
  }

  /** How JavaScript writes an integer into a template string, as it does for the
      operands 1 to 10 (numbers of 21 digits and more would be written with an exponent). */
  function IntString(n: int): (s: string)
    ensures |s| > 0 && 'x' !in s
  {
    if n < 0 then "-" + Decimal(-n) else Decimal(n)
  }

  /** The key string `${lo}x${hi}` that `statKey` returns. */
  function KeyString(a: int, b: int): (s: string)
  {
    var k := StatKey(a, b);
    IntString(k.0) + "x" + IntString(k.1)
  }

  function DigitsValue(s: string): (n: nat)
    requires AllDigits(s)
  {
    if s == [] then 0 else DigitsValue(s[..|s| - 1]) * 10 + (s[|s| - 1] as int - '0' as int)
  }

  function ParseInt(s: string): (n: int)
  {
    if |s| > 0 && s[0] == '-' && AllDigits(s[1..]) then 0 - DigitsValue(s[1..])
    else if AllDigits(s) then DigitsValue(s)
    else 0
  }

  lemma {:induction false} DecimalRoundTrip(n: nat)
    ensures DigitsValue(Decimal(n)) == n
  {
    if n >= 10 {
      DecimalRoundTrip(n / 10);
      var s := Decimal(n);
      assert s[..|s| - 1] == Decimal(n / 10);
    }
  }

  /** Reading back the numeral of an integer gives the integer. */
  lemma IntStringRoundTrip(n: int)
    ensures ParseInt(IntString(n)) == n
  {
    if n < 0 {
      DecimalRoundTrip(-n);
      assert IntString(n)[1..] == Decimal(-n);
    } else {
      DecimalRoundTrip(n);
    }
  }

  /** The position of the first 'x' in a string (its length when there is none). */
  function IndexOfX(s: string): (i: nat)
  {
    if s == [] || s[0] == 'x' then 0 else 1 + IndexOfX(s[1..])
  }

  lemma {:induction false} IndexOfXAfter(a: string, b: string)
    requires 'x' !in a
    ensures IndexOfX(a + "x" + b) == |a|
  {
    if a != [] {
      assert (a + "x" + b)[1..] == a[1..] + "x" + b;
      IndexOfXAfter(a[1..], b);
    }
  }

  /** A string `A + "x" + B` with no 'x' in A determines A and B. */
  lemma SplitAtX(a1: string, b1: string, a2: string, b2: string)
    requires 'x' !in a1 && 'x' !in a2
    requires a1 + "x" + b1 == a2 + "x" + b2
    ensures a1 == a2 && b1 == b2
  {
    var s := a1 + "x" + b1;
    IndexOfXAfter(a1, b1);
    IndexOfXAfter(a2, b2);
    assert a1 == s[..|a1|] == a2;
    assert b1 == s[|a1| + 1..] == b2;
  }

  /** Two facts share a storage key string exactly when they share a canonical pair. */
  lemma KeyStringInjective(a: int, b: int, c: int, d: int)
    ensures KeyString(a, b) == KeyString(c, d) <==> StatKey(a, b) == StatKey(c, d)
  {
    var k1, k2 := StatKey(a, b), StatKey(c, d);
    if KeyString(a, b) == KeyString(c, d) {
      SplitAtX(IntString(k1.0), IntString(k1.1), IntString(k2.0), IntString(k2.1));
      IntStringRoundTrip(k1.0);
      IntStringRoundTrip(k1.1);
      IntStringRoundTrip(k2.0);
      IntStringRoundTrip(k2.1);
    }
  }
}
