/** Shared vocabulary of the model: optional values and error results, the
    decimal rendering that both stores use for their ids, and a few facts
    about sequences seen as sets. */
module Common {

  /** A value that may be absent: a missing key, or a `null` result. */
  datatype Option<+T> = None | Some(value: T) {
    /** The value when present, else `default`. */
    function GetOr(default: T): T {
      if Some? then value else default
    }
  }

  /** The outcome of an operation that may throw: the thrown error's message. */
  datatype Result<+T> = Ok(value: T) | Err(message: string)

  // ---------------------------------------------------------------------------
  // Decimal rendering of counters: `(n).toString()` for a non-negative integer

  function DigitChar(d: nat): (c: char)
    requires d < 10
    ensures '0' <= c <= '9'
    ensures c as int - '0' as int == d
  {
    ('0' as int + d) as char
  }

  function DigitValue(c: char): nat {
    if '0' <= c <= '9' then c as int - '0' as int else 0
  }

  /** `n.toString()`: the shortest decimal numeral of `n`. */
  function Decimal(n: nat): (s: string)
    ensures |s| >= 1
    ensures forall k :: 0 <= k < |s| ==> '0' <= s[k] <= '9'
    ensures n > 0 ==> s[0] != '0'
  {
    if n < 10 then [DigitChar(n)] else Decimal(n / 10) + [DigitChar(n % 10)]
  }

  /** The value of a numeral read from the left, most significant digit first. */
  function ParseDecimal(s: string): nat {
    if s == [] then 0 else ParseDecimal(s[..|s| - 1]) * 10 + DigitValue(s[|s| - 1])
  }

  /** Reading back a rendered counter gives the counter. */
  lemma {:induction false} ParseDecimalOfDecimal(n: nat)
    ensures ParseDecimal(Decimal(n)) == n
  {
    var s := Decimal(n);
    if n >= 10 {
      ParseDecimalOfDecimal(n / 10);
      assert s[..|s| - 1] == Decimal(n / 10);
    }
  }

  /** Distinct counters render as distinct ids. */
  lemma DecimalInjective(m: nat, n: nat)
    ensures Decimal(m) == Decimal(n) ==> m == n
  {
    ParseDecimalOfDecimal(m);
    ParseDecimalOfDecimal(n);
  }

  /** `String(i)` for an integer that may be negative. */
  function IntToString(i: int): (s: string)
    ensures i >= 0 ==> |s| >= 1 && (forall k :: 0 <= k < |s| ==> '0' <= s[k] <= '9') && ParseDecimal(s) == i
    ensures i < 0 ==> |s| >= 2 && s[0] == '-' && (forall k :: 1 <= k < |s| ==> '0' <= s[k] <= '9')
                      && ParseDecimal(s[1..]) == -i
  {
    if i < 0 then
      ParseDecimalOfDecimal(-i);
      var s := "-" + Decimal(-i);
      assert s[1..] == Decimal(-i);
      s
    else
      ParseDecimalOfDecimal(i);
      Decimal(i)
  }

  /** `s` is an id a store handed out while its counter was below `counter`:
      the decimal numeral of some value smaller than `counter`. */
  ghost predicate IssuedBefore(s: string, counter: nat) {
    s == Decimal(ParseDecimal(s)) && ParseDecimal(s) < counter
  }

  /** The id a store issues next is new, and everything issued so far stays
      below the incremented counter. */
  lemma FreshId(issued: set<string>, counter: nat)
    requires forall s :: s in issued ==> IssuedBefore(s, counter)
    ensures Decimal(counter) !in issued
    ensures IssuedBefore(Decimal(counter), counter + 1)
    ensures forall s :: s in issued + {Decimal(counter)} ==> IssuedBefore(s, counter + 1)
  {
    ParseDecimalOfDecimal(counter);
  }

  /** `findIndex(x => key(x) === id)`: the first position whose key is `id`,
      or -1 when there is none. */
  function IndexWhere<T>(s: seq<T>, key: T -> string, id: string): (i: int)
    ensures -1 <= i < |s|
    ensures i == -1 <==> forall k :: 0 <= k < |s| ==> key(s[k]) != id
    ensures 0 <= i ==> key(s[i]) == id && forall k :: 0 <= k < i ==> key(s[k]) != id
  {
    if s == [] then -1
    else if key(s[0]) == id then 0
    else
      var j := IndexWhere(s[1..], key, id);
      if j == -1 then -1 else j + 1
  }

  // ---------------------------------------------------------------------------
  // Sequences seen as sets

  ghost predicate NoDuplicates<T>(s: seq<T>) {
    forall i, j :: 0 <= i < j < |s| ==> s[i] != s[j]
  }

  function Elements<T>(s: seq<T>): set<T> {
    set x | x in s
  }

  /** A sequence has at least as many positions as distinct elements, and
      exactly as many iff no element repeats. */
  lemma {:induction false} CardElements<T>(s: seq<T>)
    ensures |Elements(s)| <= |s|
    ensures |Elements(s)| == |s| <==> NoDuplicates(s)
  {
    if s != [] {
      var init, x := s[..|s| - 1], s[|s| - 1];
      CardElements(init);
      assert s == init + [x];
      assert Elements(s) == Elements(init) + {x};
      if x in init {
        assert Elements(s) == Elements(init);
        var j :| 0 <= j < |init| && init[j] == x;
        assert s[j] == s[|s| - 1];
        assert !NoDuplicates(s);
      } else {
        assert x !in Elements(init);
        assert |Elements(s)| == |Elements(init)| + 1;
        if NoDuplicates(init) {
          assert NoDuplicates(s);
        } else {
          var i, j :| 0 <= i < j < |init| && init[i] == init[j];
          assert s[i] == s[j];
        }
      }
    }
  }

  lemma SubsetCard<T>(a: set<T>, b: set<T>)
    requires a <= b
    ensures |a| <= |b|
    ensures |a| == |b| ==> a == b
  {
    assert b == a + (b - a);
    assert a * (b - a) == {};
  }

  /** `[...new Set(s)]`: the elements of `s`, each once, in the order of
      their first occurrence. */
  function Dedup<T(==)>(s: seq<T>): (r: seq<T>)
    ensures Elements(r) == Elements(s)
    ensures NoDuplicates(r)
    ensures |r| <= |s|
  {
    if s == [] then []
    else
      var init, x := s[..|s| - 1], s[|s| - 1];
      assert s == init + [x];
      var d := Dedup(init);
      assert Elements(d + [x]) == Elements(d) + {x};
      if x in d then d else d + [x]
  }
}
