/**
 * The worker functions of the multiprocessing demos, run sequentially:
 * the trial-division primality test, the count of primes that `pool.map`
 * and `sum` compute, the pipe's sender and receiver, and the square and
 * cube printers.
 */
module Multiprocessing {

  import opened Text

  /** n is prime: at least 2 and without a divisor strictly between 1 and n. */
  ghost predicate Prime(n: int) {
    n >= 2 && forall d :: 2 <= d < n ==> n % d != 0
  }

  // ---------------------------------------------------------------------
  // Divisibility facts the trial division relies on

  /** The only multiple of a positive k in [0, k) is 0. */
  lemma SmallMultiple(k: int, m: int)
    requires k > 0 && 0 <= k * m < k
    ensures m == 0
  {
  }

  lemma MultipleMod(k: int, q: int)
    requires k > 0
    ensures (k * q) % k == 0
  {
    var r := (k * q) % k;
    var t := (k * q) / k;
    assert k * (q - t) == r;
    SmallMultiple(k, q - t);
  }

  lemma PositiveFactor(d: int, q: int)
    requires d > 0 && d * q > 0
    ensures q > 0
  {
  }

  lemma MulMonotone(a: int, b: int, c: int)
    requires a >= b >= 0 && c >= 0
    ensures a * c >= b * c
  {
  }

  /** A multiple of a multiple of e is a multiple of e. */
  lemma DividesTransitive(n: int, d: int, e: int)
    requires d > 0 && e > 0 && n % d == 0 && d % e == 0
    ensures n % e == 0
  {
    var q := n / d;
    var p := d / e;
    assert n == d * q;
    assert d == e * p;
    assert n == e * (p * q);
    MultipleMod(e, p * q);
  }

  /** The co-divisor n / d of a divisor d of n is a divisor too, and their product is n. */
  lemma CoDivisor(n: int, d: int)
    requires n > 0 && d > 0 && n % d == 0
    ensures n / d > 0 && n % (n / d) == 0 && d * (n / d) == n
  {
    var q := n / d;
    assert n == d * q;
    PositiveFactor(d, q);
    MultipleMod(q, d);
    assert q * d == n;
  }

  /**
   * When no d in [2, i) divides n and i * i > n, n is prime: a proper divisor
   * d >= i would have a co-divisor n / d >= i as well.
   */
  lemma NoSmallDivisorPrime(n: int, i: int)
    requires n >= 2 && i >= 2 && i * i > n
    requires forall d :: 2 <= d < i ==> n % d != 0
    ensures Prime(n)
  {
    forall d | 2 <= d < n ensures n % d != 0 {
      if n % d == 0 {
        CoDivisor(n, d);
        var q := n / d;
        assert q != 1;
        MulMonotone(d, i, q);
        MulMonotone(q, i, i);
        assert false;
      }
    }
  }

  /** A number that is not a multiple of e is not a multiple of any multiple of e. */
  lemma NotMultipleOfMultiple(n: int, d: int, e: int)
    requires d > 0 && e > 0 && d % e == 0 && n % e != 0
    ensures n % d != 0
  {
    if n % d == 0 {
      DividesTransitive(n, d, e);
    }
  }

  /** Of the six numbers i .. i + 5 with i = 5 (mod 6), only i and i + 2 can divide an n prime to 2 and 3. */
  lemma SkippedCandidates(n: int, i: int)
    requires n > 0 && i >= 5 && i % 6 == 5
    requires n % 2 != 0 && n % 3 != 0
    ensures n % (i + 1) != 0 && n % (i + 3) != 0 && n % (i + 4) != 0 && n % (i + 5) != 0
  {
    var k := i / 6;
    assert i == 6 * k + 5;
    MultipleMod(2, 3 * k + 3);
    MultipleMod(2, 3 * k + 4);
    MultipleMod(3, 2 * k + 3);
    MultipleMod(2, 3 * k + 5);
    NotMultipleOfMultiple(n, i + 1, 2);
    NotMultipleOfMultiple(n, i + 3, 2);
    NotMultipleOfMultiple(n, i + 4, 3);
    NotMultipleOfMultiple(n, i + 5, 2);
  }

  // ---------------------------------------------------------------------
  // is_prime

  /** A divisor strictly between 1 and n shows that n is not prime. */
  lemma CompositeWitness(n: int, d: int)
    requires 2 <= d < n && n % d == 0
    ensures !Prime(n)
  {
  }

  /** While i * i <= n, both candidates i and i + 2 lie strictly below n. */
  lemma CandidatesBelow(n: int, i: int)
    requires i >= 5 && i * i <= n
    ensures i + 2 < n
  {
    MulMonotone(i, 5, i);
  }

  /** One round of the loop: when neither i nor i + 2 divides n, no d below i + 6 does. */
  lemma RoundKeepsInvariant(n: int, i: int)
    requires n > 0 && i >= 5 && i % 6 == 5 && n % 2 != 0 && n % 3 != 0
    requires forall d :: 2 <= d < i ==> n % d != 0
    requires n % i != 0 && n % (i + 2) != 0
    ensures forall d :: 2 <= d < i + 6 ==> n % d != 0
  {
    SkippedCandidates(n, i);
    forall d | 2 <= d < i + 6 ensures n % d != 0 {
      if d >= i {
        assert d == i || d == i + 1 || d == i + 2 || d == i + 3 || d == i + 4 || d == i + 5;
      }
    }
  }

  /** Trial division by 2, 3 and the candidates 6k - 1, 6k + 1 up to the square root. */
  method IsPrime(n: int) returns (b: bool)
    ensures b <==> Prime(n)
  {
    if n <= 1 {
      return false;
    } else if n <= 3 {
      return true;
    } else if n % 2 == 0 || n % 3 == 0 {
      CompositeWitness(n, if n % 2 == 0 then 2 else 3);
      return false;
    }
    var i := 5;
    NotMultipleOfMultiple(n, 4, 2);
    while i * i <= n
      invariant i >= 5 && i % 6 == 5
      invariant forall d :: 2 <= d < i ==> n % d != 0
      decreases n - i
    {
      CandidatesBelow(n, i);
      if n % i == 0 || n % (i + 2) == 0 {
        CompositeWitness(n, if n % i == 0 then i else i + 2);
        return false;
      }
      RoundKeepsInvariant(n, i);
      i := i + 6;
    }
    NoSmallDivisorPrime(n, i);
    return true;
  }

  lemma SmallPrimes()
    ensures !Prime(0) && !Prime(1) && Prime(2) && Prime(3) && !Prime(4) && Prime(5)
  {
    assert 4 % 2 == 0;
  }

  // ---------------------------------------------------------------------
  // sum(pool.map(is_prime, range(N)))

  /** Python's `sum` over booleans: the number of True entries. */
  function CountTrue(results: seq<bool>): (c: nat)
    ensures c <= |results|
  {
    if results == [] then 0
    else CountTrue(results[..|results| - 1]) + (if results[|results| - 1] then 1 else 0)
  }

  /** The primes in [0, n). */
  ghost function PrimesBelow(n: nat): set<nat> {
    set p: nat | p < n && Prime(p)
  }

  /** `pool.map(is_prime, numbers)`, one number after the other, keeping the order of `numbers`. */
  method MapIsPrime(numbers: seq<int>) returns (results: seq<bool>)
    ensures |results| == |numbers|
    ensures forall k :: 0 <= k < |numbers| ==> (results[k] <==> Prime(numbers[k]))
  {
    results := [];
    for j := 0 to |numbers|
      invariant |results| == j
      invariant forall k :: 0 <= k < j ==> (results[k] <==> Prime(numbers[k]))
    {
      var b := IsPrime(numbers[j]);
      results := results + [b];
    }
  }

  /** The number of primes below n equals the count of true primality flags for 0 .. n - 1. */
  lemma {:induction false} CountTrueCountsPrimes(n: nat, results: seq<bool>)
    requires |results| == n
    requires forall k :: 0 <= k < n ==> (results[k] <==> Prime(k))
    ensures CountTrue(results) == |PrimesBelow(n)|
  {
    if n > 0 {
      CountTrueCountsPrimes(n - 1, results[..n - 1]);
      if Prime(n - 1) {
        assert PrimesBelow(n) == PrimesBelow(n - 1) + {n - 1};
      } else {
        assert PrimesBelow(n) == PrimesBelow(n - 1);
      }
    } else {
      assert PrimesBelow(0) == {};
    }
  }

  /** `sum(pool.map(is_prime, range(n)))`: the number of primes found below n. */
  method CountPrimes(n: nat) returns (numPrimes: nat)
    ensures numPrimes == |PrimesBelow(n)|
  {
    var numbers := seq(n, k => k);
    var results := MapIsPrime(numbers);
    numPrimes := CountTrue(results);
    CountTrueCountsPrimes(n, results);
  }

  // ---------------------------------------------------------------------
  // The pipe demo: sender and receiver, with the pipe as a list of messages

  const Sentinel: string := "END"

  /** The messages the receiver takes before it meets the first sentinel (all of them if none). */
  function BeforeSentinel(msgs: seq<string>): (r: seq<string>)
    ensures |r| <= |msgs| && r == msgs[..|r|]
    ensures Sentinel !in r
    ensures |r| < |msgs| <==> Sentinel in msgs
    ensures |r| < |msgs| ==> msgs[|r|] == Sentinel
  {
    if msgs == [] then []
    else if msgs[0] == Sentinel then []
    else [msgs[0]] + BeforeSentinel(msgs[1..])
  }

  function ReceivedLine(msg: string): string {
    "Received the message: " + msg
  }

  function SentLine(msg: string): string {
    "Sent the message: " + msg
  }

  /** How the receiver's loop ends: on the sentinel, or waiting for a message that never comes. */
  datatype ReceiverEnd = Stopped | Blocked

  /**
   * Sends every message in list order and prints one line per message.
   * `sent` is what enters the pipe.
   */
  method Sender(msgs: seq<string>) returns (sent: seq<string>, printed: seq<string>)
    ensures sent == msgs
    ensures |printed| == |msgs|
    ensures forall k :: 0 <= k < |msgs| ==> printed[k] == SentLine(msgs[k])
  {
    sent, printed := [], [];
    for k := 0 to |msgs|
      invariant sent == msgs[..k]
      invariant |printed| == k
      invariant forall j :: 0 <= j < k ==> printed[j] == SentLine(msgs[j])
    {
      sent := sent + [msgs[k]];
      printed := printed + [SentLine(msgs[k])];
    }
  }

  /**
   * Takes messages from the pipe until the sentinel, printing each one before it.
   * On a pipe that holds no sentinel the loop waits forever after the last message.
   */
  method Receiver(pipe: seq<string>) returns (printed: seq<string>, end: ReceiverEnd)
    ensures |printed| == |BeforeSentinel(pipe)|
    ensures forall k :: 0 <= k < |printed| ==> printed[k] == ReceivedLine(BeforeSentinel(pipe)[k])
    ensures end == Stopped <==> Sentinel in pipe
  {
    printed := [];
    var k := 0;
    while k < |pipe|
      invariant 0 <= k <= |pipe|
      invariant Sentinel !in pipe[..k]
      invariant |printed| == k
      invariant forall j :: 0 <= j < k ==> printed[j] == ReceivedLine(pipe[j])
    {
      var msg := pipe[k];
      if msg == Sentinel {
        assert BeforeSentinel(pipe) == pipe[..k];
        return printed, Stopped;
      }
      printed := printed + [ReceivedLine(msg)];
      assert pipe[..k + 1] == pipe[..k] + [msg];
      k := k + 1;
    }
    assert pipe[..k] == pipe;
    assert BeforeSentinel(pipe) == pipe;
    end := Blocked;
  }

  /** The receiver prints exactly the messages the sender sent before the first sentinel, in order. */
  method PipeDemo(msgs: seq<string>) returns (sentLines: seq<string>, receivedLines: seq<string>, end: ReceiverEnd)
    ensures |sentLines| == |msgs|
    ensures |receivedLines| == |BeforeSentinel(msgs)|
    ensures forall k :: 0 <= k < |receivedLines| ==> receivedLines[k] == ReceivedLine(msgs[k])
    ensures end == Stopped <==> Sentinel in msgs
  {
    var sent;
    sent, sentLines := Sender(msgs);
    receivedLines, end := Receiver(sent);
  }

  /** The demo's messages: three greetings, then the sentinel. */
  lemma DemoMessages()
    ensures BeforeSentinel(["hello", "hey", "hru?", "END"]) == ["hello", "hey", "hru?"]
  {
  }

  // ---------------------------------------------------------------------
  // calc_square and calc_cube

  function SquareLine(n: int): string {
    "square " + IntToString(n * n)
  }

  function CubeLine(n: int): string {
    "cube " + IntToString(n * n * n)
  }

  /** Prints `square n*n` for each number, in input order. */
  method CalcSquare(numbers: seq<int>) returns (printed: seq<string>)
    ensures |printed| == |numbers|
    ensures forall k :: 0 <= k < |numbers| ==> printed[k] == SquareLine(numbers[k])
  {
    printed := [];
    for k := 0 to |numbers|
      invariant |printed| == k
      invariant forall j :: 0 <= j < k ==> printed[j] == SquareLine(numbers[j])
    {
      printed := printed + ["square " + IntToString(numbers[k] * numbers[k])];
    }
  }

  /** Prints `cube n*n*n` for each number, in input order. */
  method CalcCube(numbers: seq<int>) returns (printed: seq<string>)
    ensures |printed| == |numbers|
    ensures forall k :: 0 <= k < |numbers| ==> printed[k] == CubeLine(numbers[k])
  {
    printed := [];
    for k := 0 to |numbers|
      invariant |printed| == k
      invariant forall j :: 0 <= j < k ==> printed[j] == CubeLine(numbers[j])
    {
      printed := printed + ["cube " + IntToString(numbers[k] * numbers[k] * numbers[k])];
    }
  }

  /** Each printed line carries the value back: reading the number after the label gives n*n (n*n*n). */
  lemma PowerLinesDecode(n: int)
    ensures SquareLine(n)[..7] == "square " && ParseInt(SquareLine(n)[7..]) == Wrappers.Some(n * n)
    ensures CubeLine(n)[..5] == "cube " && ParseInt(CubeLine(n)[5..]) == Wrappers.Some(n * n * n)
  {
    IntToStringRoundTrip(n * n);
    IntToStringRoundTrip(n * n * n);
    assert SquareLine(n)[7..] == IntToString(n * n);
    assert CubeLine(n)[5..] == IntToString(n * n * n);
  }

  /** On the demo array [2, 3, 8] the two workers print these lines. */
  lemma DemoPowers()
    ensures [SquareLine(2), SquareLine(3), SquareLine(8)] == ["square 4", "square 9", "square 64"]
    ensures [CubeLine(2), CubeLine(3), CubeLine(8)] == ["cube 8", "cube 27", "cube 512"]
  {
    assert DigitChar(0) == '0';
    assert DigitChar(1) == '1';
    assert DigitChar(2) == '2';
    assert DigitChar(3) == '3';
    assert DigitChar(4) == '4';
    assert DigitChar(5) == '5';
    assert DigitChar(6) == '6';
    assert DigitChar(7) == '7';
    assert DigitChar(8) == '8';
    assert DigitChar(9) == '9';
    assert NatToString(64) == "64";
    assert NatToString(27) == "27";
    assert NatToString(51) == "51";
    assert NatToString(512) == "512";
    assert SquareLine(2) == "square 4";
    assert SquareLine(3) == "square 9";
    assert SquareLine(8) == "square 64";
    assert CubeLine(2) == "cube 8";
    assert CubeLine(3) == "cube 27";
    assert CubeLine(8) == "cube 512";
  }
}
