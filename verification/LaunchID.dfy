/**
 The IDs of the jobs that the periodic dispatcher launches, which carry the launch time
 in seconds, and the way back from such an ID to the time.
 */
module LaunchID {

  const SUFFIX := "/periodic-"

  const NANOS_PER_SECOND := 1_000_000_000

  const INT64_LIMIT := 0x8000_0000_0000_0000

  datatype Option<T> = None | Some(value: T)

  // Decimal numerals

  function Digit(d: nat): (c: char)
    requires d < 10
    ensures '0' <= c <= '9'
  {
    '0' + d as char
  }

  function Digits(n: nat): (s: string)
    ensures s != [] && AllDigits(s)
  {
    if n < 10 then [Digit(n)] else Digits(n / 10) + [Digit(n % 10)]
  }

  function Decimal(n: int): string {
    if n < 0 then "-" + Digits(-n) else Digits(n)
  }

  predicate AllDigits(s: string) {
    forall i | 0 <= i < |s| :: '0' <= s[i] <= '9'
  }

  function Value(s: string): nat
    requires AllDigits(s)
  {
    if s == [] then 0 else 10 * Value(s[..|s| - 1]) + (s[|s| - 1] - '0') as nat
  }

  // strconv.Atoi for 64-bit integers
  function Atoi(s: string): Option<int> {
    var signed := s != [] && (s[0] == '+' || s[0] == '-');
    var digits := if signed then s[1..] else s;
    if digits == [] || !AllDigits(digits) then None
    else
      var v: int := Value(digits);
      var n := if signed && s[0] == '-' then -v else v;
      if -INT64_LIMIT <= n < INT64_LIMIT then Some(n) else None
  }

  // Strings

  predicate OccursAt(s: string, sub: string, i: nat) {
    i + |sub| <= |s| && s[i..i + |sub|] == sub
  }

  // The last place at or before i where sub occurs.
  function LastFrom(s: string, sub: string, i: nat): (r: int)
    ensures -1 <= r <= i && (r >= 0 ==> OccursAt(s, sub, r))
  {
    if OccursAt(s, sub, i) then i else if i == 0 then -1 else LastFrom(s, sub, i - 1)
  }

  function LastIndex(s: string, sub: string): int {
    LastFrom(s, sub, |s|)
  }

  // Launches

  // Unix seconds of a time in nanoseconds, rounded down
  function Unix(nanos: int): int {
    nanos / NANOS_PER_SECOND
  }

  function DerivedJobID(parent: string, launch: int): string {
    parent + SUFFIX + Decimal(Unix(launch))
  }

  function LaunchTime(jobID: string): Option<int> {
    var index := LastIndex(jobID, SUFFIX);
    if index == -1 then None
    else
      match Atoi(jobID[index + |SUFFIX|..])
      case None => None
      case Some(seconds) => Some(seconds * NANOS_PER_SECOND)
  }

  // Proofs

  lemma {:induction false} DigitsRoundTrip(n: nat)
    ensures Value(Digits(n)) == n
  {
    if n >= 10 {
      DigitsRoundTrip(n / 10);
      assert Digits(n)[..|Digits(n)| - 1] == Digits(n / 10);
    } else {
      assert Digits(n)[..0] == [];
    }
  }

  lemma AtoiRoundTrip(n: int)
    requires -INT64_LIMIT <= n < INT64_LIMIT
    ensures Atoi(Decimal(n)) == Some(n)
  {
    var m: nat := if n < 0 then -n else n;
    DigitsRoundTrip(m);
    AtoiOfNumeral(Decimal(n), if n < 0 then "-" else "", Digits(m), n);
  }

  lemma {:induction false} LastFromFinds(s: string, sub: string, i: nat, at: nat)
    requires at <= i && OccursAt(s, sub, at)
    requires forall j | at < j <= i :: !OccursAt(s, sub, j)
    ensures LastFrom(s, sub, i) == at
  {
    if i != at {
      LastFromFinds(s, sub, i - 1, at);
    }
  }

  lemma OccursFirst(s: string, sub: string, i: nat)
    ensures sub != [] && OccursAt(s, sub, i) ==> i < |s| && s[i] == sub[0]
  {
  }

  // The slash of the suffix does not occur in the rest of the suffix, so the last
  // suffix is the one followed by a tail without a slash.
  lemma SuffixIsLast(parent: string, tail: string)
    requires '/' !in tail
    ensures LastIndex(parent + SUFFIX + tail, SUFFIX) == |parent|
  {
    var s := parent + SUFFIX + tail;
    assert s[|parent|..|parent| + |SUFFIX|] == SUFFIX;
    forall i | |parent| < i < |s| ensures s[i] != '/' {
      assert SUFFIX == ['/', 'p', 'e', 'r', 'i', 'o', 'd', 'i', 'c', '-'];
      assert s[i] == (SUFFIX + tail)[i - |parent|];
    }
    forall j | |parent| < j <= |s| ensures !OccursAt(s, SUFFIX, j) {
      OccursFirst(s, SUFFIX, j);
    }
    LastFromFinds(s, SUFFIX, |s|, |parent|);
  }

  lemma DecimalHasNoSlash(n: int)
    ensures '/' !in Decimal(n)
  {
    var digits := Digits(if n < 0 then -n else n);
    assert AllDigits(digits);
    assert '/' !in digits;
  }

  // Whatever the parent's ID contains, the launch time comes back cut to the second.
  lemma LaunchTimeRoundTrip(parent: string, launch: int)
    requires -INT64_LIMIT <= Unix(launch) < INT64_LIMIT
    ensures var r := LaunchTime(DerivedJobID(parent, launch));
      r.Some? && r.value % 1_000_000_000 == 0 && r.value <= launch < r.value + 1_000_000_000
  {
    var id := DerivedJobID(parent, launch);
    DecimalHasNoSlash(Unix(launch));
    SuffixIsLast(parent, Decimal(Unix(launch)));
    assert id[|parent| + |SUFFIX|..] == Decimal(Unix(launch));
    AtoiRoundTrip(Unix(launch));
    assert LaunchTime(id) == Some(Unix(launch) * NANOS_PER_SECOND);
    UnixCuts(launch);
  }

  lemma UnixCuts(nanos: int)
    ensures var r := Unix(nanos) * NANOS_PER_SECOND; r % 1_000_000_000 == 0 && r <= nanos < r + 1_000_000_000
  {
  }

  // Launches in different seconds, or of different parents, have different IDs.
  lemma DerivedIDsDiffer(parent: string, launch: int, parent': string, launch': int)
    requires DerivedJobID(parent, launch) == DerivedJobID(parent', launch')
    ensures parent == parent' && Unix(launch) == Unix(launch')
  {
    DecimalHasNoSlash(Unix(launch));
    SuffixIsLast(parent, Decimal(Unix(launch)));
    DecimalHasNoSlash(Unix(launch'));
    SuffixIsLast(parent', Decimal(Unix(launch')));
    var id, k := DerivedJobID(parent, launch), |parent|;
    assert id[..k] == parent && id[..k] == parent';
    assert id[k + |SUFFIX|..] == Decimal(Unix(launch));
    assert id[k + |SUFFIX|..] == Decimal(Unix(launch'));
    DecimalIsInjective(Unix(launch), Unix(launch'));
  }

  lemma DecimalIsInjective(m: int, n: int)
    requires Decimal(m) == Decimal(n)
    ensures m == n
  {
    var d, e := Digits(if m < 0 then -m else m), Digits(if n < 0 then -n else n);
    DigitsRoundTrip(if m < 0 then -m else m);
    DigitsRoundTrip(if n < 0 then -n else n);
    assert '0' <= d[0] <= '9' && '0' <= e[0] <= '9';
    if m < 0 {
      assert Decimal(m)[1..] == d && Decimal(n)[0] == '-';
      assert n < 0;
      assert Decimal(n)[1..] == e;
    }
  }

  // A signed decimal numeral of n, with leading zeros if you like.
  predicate Numeral(tail: string, sign: string, digits: string, n: int) {
    && tail == sign + digits && digits != [] && AllDigits(digits)
    && (sign == "" || sign == "+" || sign == "-")
    && n == (if sign == "-" then 0 - Value(digits) else Value(digits))
  }

  ghost predicate Spells(tail: string, n: int) {
    exists sign, digits :: Numeral(tail, sign, digits, n)
  }

  lemma SpelledIsParsed(parent: string, tail: string, n: int)
    requires Spells(tail, n) && -INT64_LIMIT <= n < INT64_LIMIT
    ensures LaunchTime(parent + SUFFIX + tail) == Some(n * NANOS_PER_SECOND)
  {
    SpelledHasNoSlash(tail, n);
    SuffixIsLast(parent, tail);
    assert (parent + SUFFIX + tail)[|parent| + |SUFFIX|..] == tail;
    AtoiIff(tail, n);
  }

  lemma SplitAt(s: string, sub: string, k: nat)
    requires OccursAt(s, sub, k)
    ensures s == s[..k] + sub + s[k + |sub|..]
  {
    assert s[k..k + |sub|] == sub;
  }

  lemma ParsedIsSpelled(jobID: string, n: int) returns (parent: string, tail: string)
    requires LaunchTime(jobID) == Some(n * NANOS_PER_SECOND)
    ensures jobID == parent + SUFFIX + tail && Spells(tail, n) && -INT64_LIMIT <= n < INT64_LIMIT
  {
    var k := LastIndex(jobID, SUFFIX);
    parent, tail := jobID[..k], jobID[k + |SUFFIX|..];
    SplitAt(jobID, SUFFIX, k);
    AtoiIff(tail, n);
  }

  // A time comes back exactly from the IDs that end in the suffix and a numeral of the
  // seconds that fits 64 bits.
  lemma LaunchTimeIff(jobID: string, seconds: int)
    ensures LaunchTime(jobID) == Some(seconds * 1_000_000_000) <==>
      && -0x8000_0000_0000_0000 <= seconds < 0x8000_0000_0000_0000
      && exists parent, tail :: jobID == parent + "/periodic-" + tail && Spells(tail, seconds)
  {
    if LaunchTime(jobID) == Some(seconds * NANOS_PER_SECOND) {
      var parent, tail := ParsedIsSpelled(jobID, seconds);
    } else {
      forall parent, tail | jobID == parent + SUFFIX + tail && Spells(tail, seconds)
        ensures !(-INT64_LIMIT <= seconds < INT64_LIMIT)
      {
        if -INT64_LIMIT <= seconds < INT64_LIMIT {
          SpelledIsParsed(parent, tail, seconds);
        }
      }
    }
  }

  lemma SpelledHasNoSlash(tail: string, n: int)
    requires Spells(tail, n)
    ensures '/' !in tail
  {
    var sign, digits :| Numeral(tail, sign, digits, n);
    assert '/' !in digits;
  }

  // strconv.Atoi accepts exactly the numerals that fit 64 bits.
  lemma AtoiIff(s: string, n: int)
    ensures Atoi(s) == Some(n) <==> -INT64_LIMIT <= n < INT64_LIMIT && Spells(s, n)
  {
    if Atoi(s) == Some(n) {
      if s[0] == '+' || s[0] == '-' {
        assert s == s[..1] + s[1..];
        assert Numeral(s, s[..1], s[1..], n);
      } else {
        assert Numeral(s, "", s, n);
      }
    } else if Spells(s, n) {
      var sign, digits :| Numeral(s, sign, digits, n);
      AtoiOfNumeral(s, sign, digits, n);
    }
  }

  lemma AtoiOfNumeral(s: string, sign: string, digits: string, n: int)
    requires Numeral(s, sign, digits, n)
    ensures Atoi(s) == if -INT64_LIMIT <= n < INT64_LIMIT then Some(n) else None
  {
    assert '0' <= digits[0] <= '9';
    if sign == "" {
      assert s == digits;
    } else {
      assert s[1..] == digits;
    }
  }
}
