/** 32-bit addresses, aligned prefixes and the classful truncation RIPv1
    applies to every route (src/rp_rip1/main.py:96-130).  A prefix follows
    Python's `ipaddress.ip_network`: host bits are zero. */
module Addressing {
  import opened Types

  type Address = a: int | 0 <= a < 0x1_0000_0000

  /** Number of addresses in a network of the given prefix length. */
  function Span(length: nat): (s: nat)
    requires length <= 32
    ensures 0 < s
    decreases 32 - length
  {
    if length == 32 then 1 else 2 * Span(length + 1)
  }

  datatype RawPrefix = Prefix(address: Address, length: nat)

  predicate Aligned(address: int, length: nat)
    requires length <= 32
  {
    address % Span(length) == 0
  }

  type Prefix = p: RawPrefix | p.length <= 32 && Aligned(p.address, p.length)
    witness Prefix(0, 32)

  /** Where a route leads and through whom: what routes are told apart by. */
  datatype Key = Key(prefix: Prefix, nextHop: Address)

  /** Every address of `inner` lies in `outer`. */
  predicate Contains(outer: Prefix, inner: Prefix) {
    outer.length <= inner.length
    && outer.address <= inner.address < outer.address + Span(outer.length)
  }

  datatype AddressClass = A | B | C | Other

  /** 0.0.0.0/1, 128.0.0.0/2, 192.0.0.0/3, and the rest (classes D and E). */
  function ClassOf(a: Address): AddressClass {
    if a < 0x8000_0000 then A
    else if a < 0xC000_0000 then B
    else if a < 0xE000_0000 then C
    else Other
  }

  function ClassLength(c: AddressClass): (length: nat)
    requires c != Other
    ensures length in {8, 16, 24}
  {
    match c
    case A => 8
    case B => 16
    case C => 24
  }

  function Truncated(a: Address, length: nat): (p: Prefix)
    requires length <= 32
  {
    TruncationAligns(a, length);
    Prefix(a - a % Span(length), length)
  }

  /** Python's `supernet(new_prefix=...)`: a /0 is its own supernet, whatever
      is asked for; a longer prefix than the network's own is an error. */
  function Supernet(p: Prefix, newLength: nat): Result<Prefix>
    requires newLength <= 32
  {
    if p.length == 0 then Ok(p)
    else if p.length < newLength then Err
    else Ok(Truncated(p.address, newLength))
  }

  /** `RIP1_Route.classful`, on the prefix alone. */
  function Classful(p: Prefix): Result<Prefix> {
    var c := ClassOf(p.address);
    if c == Other then Err
    else
      match Supernet(p, ClassLength(c))
      case Ok(q) => Ok(q)
      case Err =>
        AlignedWhenLonger(p.address, p.length, ClassLength(c));
        Ok(Prefix(p.address, ClassLength(c)))
  }

  /** What a receiver makes of a bare address on the wire: the classful form of
      the host prefix. */
  function OnWire(a: Address): Result<Prefix> {
    Classful(Prefix(a, 32))
  }

  // ---- arithmetic ------------------------------------------------------

  lemma TruncationAligns(a: Address, length: nat)
    requires length <= 32
    ensures 0 <= a - a % Span(length) <= a
    ensures Aligned(a - a % Span(length), length)
  {
    FloorIsMultiple(a, Span(length));
  }

  lemma FloorIsMultiple(a: nat, s: nat)
    requires 0 < s
    ensures 0 <= a - a % s <= a
    ensures (a - a % s) % s == 0
  {
    assert a - a % s == s * (a / s);
    MultipleMod(a / s, s);
  }

  lemma MultipleMod(k: int, s: int)
    requires 0 < s
    ensures (s * k) % s == 0
  {
    var n := s * k;
    var d := k - n / s;
    assert n == s * (n / s) + n % s;
    assert s * d == s * k - s * (n / s);
    OnlyZeroMultiple(s, d);
  }

  /** The only multiple of `s` in [0, s) is zero. */
  lemma OnlyZeroMultiple(s: int, d: int)
    requires 0 <= s * d < s
    ensures d == 0
  {
  }

  lemma DoubleAligned(a: int, s: int)
    requires 0 < s && a % (2 * s) == 0
    ensures a % s == 0
  {
    var k := a / (2 * s);
    assert a == (2 * s) * k;
    assert a == s * (2 * k);
    MultipleMod(2 * k, s);
  }

  /** Alignment at a length carries over to every longer length. */
  lemma {:induction false} AlignedWhenLonger(a: int, short: nat, long: nat)
    requires short <= long <= 32 && Aligned(a, short)
    ensures Aligned(a, long)
    decreases long - short
  {
    if short < long {
      DoubleAligned(a, Span(short + 1));
      AlignedWhenLonger(a, short + 1, long);
    }
  }

  lemma ClassSpans()
    ensures Span(8) == 0x100_0000 && Span(16) == 0x1_0000 && Span(24) == 0x100 && Span(32) == 1
    ensures Span(0) == 0x1_0000_0000
  {
    assert Span(28) == 16;
    assert Span(24) == 256;
    assert Span(20) == 0x1000;
    assert Span(16) == 0x1_0000;
    assert Span(12) == 0x10_0000;
    assert Span(4) == 0x1000_0000;
  }

  // ---- the networks of the classes -------------------------------------

  lemma FirstSpans()
    ensures Span(1) == 0x8000_0000 && Span(2) == 0x4000_0000 && Span(3) == 0x2000_0000
  {
    ClassSpans();
  }

  function ClassNetwork(a: Address, length: nat): (p: Prefix)
    requires (a, length) in {(0, 1), (0x8000_0000, 2), (0xC000_0000, 3), (0xE000_0000, 3)}
    ensures p.address == a && p.length == length
  {
    FirstSpans();
    Prefix(a, length)
  }

  /** Classful truncation by the four networks the program tests for: nothing in
      224.0.0.0/3 has a classful form; in 0.0.0.0/1, 128.0.0.0/2 and 192.0.0.0/3
      it is the /8, /16 or /24 around the network address.  The default route
      stays itself. */
  lemma ClassfulByNetworks(p: Prefix)
    ensures var host := Prefix(p.address, 32);
      && (Classful(p).Err? <==> Contains(ClassNetwork(0xE000_0000, 3), host))
      && (p.length == 0 ==> Classful(p) == Ok(p))
      && (Classful(p).Ok? && p.length != 0 ==>
            var q := Classful(p).value;
            && Contains(q, host)
            && (q.length == 8 <==> Contains(ClassNetwork(0, 1), host))
            && (q.length == 16 <==> Contains(ClassNetwork(0x8000_0000, 2), host))
            && (q.length == 24 <==> Contains(ClassNetwork(0xC000_0000, 3), host)))
  {
    ClassSpans();
    FirstSpans();
    ClassfulForm(p);
    hide Span;
  }

  // ---- what classful truncation does -----------------------------------

  /** The largest class network around an address has the address's class. */
  lemma TruncationKeepsClass(a: Address)
    requires ClassOf(a) != Other
    ensures var q := Truncated(a, ClassLength(ClassOf(a))); ClassOf(q.address) == ClassOf(a)
    ensures OnWire(a) == Ok(Truncated(a, ClassLength(ClassOf(a))))
  {
    ClassSpans();
  }

  lemma TruncatedTwice(a: Address, length: nat)
    requires length <= 32
    ensures Truncated(Truncated(a, length).address, length) == Truncated(a, length)
  {
    TruncationAligns(a, length);
  }

  /** An aligned address is unchanged by truncation at its own length. */
  lemma ClassfulForm(p: Prefix)
    ensures Classful(p).Err? <==> ClassOf(p.address) == Other
    ensures Classful(p).Ok? && p.length == 0 ==> Classful(p).value == p
    ensures Classful(p).Ok? && p.length != 0 ==>
              Classful(p).value == Truncated(p.address, ClassLength(ClassOf(p.address)))
  {
    if ClassOf(p.address) != Other {
      var length := ClassLength(ClassOf(p.address));
      if p.length < length {
        AlignedWhenLonger(p.address, p.length, length);
      }
    }
  }

  /** Classful truncation is idempotent and keeps the address class. */
  lemma ClassfulIdempotent(p: Prefix)
    requires Classful(p).Ok?
    ensures Classful(Classful(p).value) == Classful(p)
    ensures ClassOf(Classful(p).value.address) == ClassOf(p.address)
  {
    ClassfulForm(p);
    TruncationKeepsClass(p.address);
    ClassfulForm(Classful(p).value);
    TruncatedTwice(p.address, ClassLength(ClassOf(p.address)));
  }

  /** A network at least as long as its class grows to contain the original;
      a shorter one shrinks to its first class network.  The default route is
      returned as it is. */
  lemma ClassfulContainment(p: Prefix)
    requires Classful(p).Ok?
    ensures var q, length := Classful(p).value, ClassLength(ClassOf(p.address));
            && (p.length == 0 ==> q == p)
            && (p.length != 0 ==> q.length == length)
            && (length <= p.length ==> Contains(q, p))
            && (0 < p.length < length ==> Contains(p, q) && q.address == p.address)
  {
    ClassfulForm(p);
    var length := ClassLength(ClassOf(p.address));
    if p.length < length {
      AlignedWhenLonger(p.address, p.length, length);
    }
  }

  lemma SameBlock(a: nat, b: nat, s: nat)
    requires 0 < s && a % s == 0 && a <= b < a + s
    ensures b - b % s == a
  {
    var k := b / s - a / s;
    assert s * k == (b - b % s) - a;
    if k >= 0 { OnlyZeroMultiple(s, k); } else { OnlyZeroMultiple(s, -k); }
  }

  lemma SameNetwork(q: Prefix, a: Address)
    requires q.address <= a < q.address + Span(q.length)
    ensures Truncated(a, q.length) == q
  {
    hide Span;
    SameBlock(q.address, a, Span(q.length));
  }

  /** Two nested subnets, both at least as long as the outer one's class, fall
      into the same class network: a receiver cannot tell them apart. */
  lemma ClassfulMergesNested(outer: Prefix, inner: Prefix)
    requires Classful(outer).Ok? && Contains(outer, inner)
    requires ClassLength(ClassOf(outer.address)) <= outer.length
    ensures Classful(inner) == Classful(outer)
  {
    var length := ClassLength(ClassOf(outer.address));
    ClassfulForm(outer);
    ClassfulForm(inner);
    hide Span;
    hide ClassOf;
    hide ClassLength;
    hide Classful;
    hide OnWire;
    var q := Classful(outer).value;
    NestedStaysInside(q, outer, inner);
    TruncationKeepsClass(outer.address);
    BlockHasOneClass(q, inner.address);
    SameNetwork(q, inner.address);
    hide Truncated;
  }

  lemma NestedStaysInside(q: Prefix, outer: Prefix, inner: Prefix)
    requires q.length <= outer.length && q == Truncated(outer.address, q.length)
    requires Contains(outer, inner)
    ensures Contains(q, inner)
  {
    var s, t := Span(q.length), Span(outer.length);
    NextMultiple(outer.address, q.length, outer.length);
  }

  /** A block aligned at the longer length that starts inside an aligned block
      of the shorter length ends inside it. */
  lemma {:induction false} NextMultiple(a: Address, short: nat, long: nat)
    requires short <= long <= 32 && Aligned(a, long)
    ensures a % Span(short) + Span(long) <= Span(short)
    decreases long - short
  {
    if short < long {
      NextMultiple(a, short + 1, long);
      DoubleRemainder(a, Span(short + 1));
    }
  }

  lemma DoubleRemainder(a: nat, s: nat)
    requires 0 < s
    ensures a % (2 * s) == a % s || a % (2 * s) == a % s + s
  {
    var r := a % (2 * s);
    var k := a / (2 * s);
    assert a == 2 * s * k + r;
    var r' := if r < s then r else r - s;
    var j := if r < s then 2 * k else 2 * k + 1;
    assert s * (2 * k) == 2 * s * k;
    assert s * j + r' == a by { assert s * (2 * k + 1) == s * (2 * k) + s; }
    RemainderUnique(a, s, j, r');
  }

  lemma RemainderUnique(a: nat, s: nat, j: int, r: int)
    requires 0 < s && 0 <= r < s && a == s * j + r
    ensures a % s == r
  {
    var n: int, q := a, a / s;
    var d := j - q;
    assert n == s * q + n % s;
    assert s * d == s * j - s * q;
    if d >= 0 {
      OnlyZeroMultiple(s, d);
    } else {
      assert s * -d == -(s * d);
      OnlyZeroMultiple(s, -d);
    }
  }

  /** The class boundaries are multiples of every class network's size. */
  lemma BlockHasOneClass(q: Prefix, a: Address)
    requires ClassOf(q.address) != Other && q.length == ClassLength(ClassOf(q.address))
    requires q.address <= a < q.address + Span(q.length)
    ensures ClassOf(a) == ClassOf(q.address)
  {
    ClassSpans();
  }

  /** A prefix survives the wire, which carries only its address, exactly when
      it is classful and is not the default route. */
  lemma SurvivesWire(p: Prefix)
    ensures OnWire(p.address) == Ok(p) <==> Classful(p) == Ok(p) && p.length != 0
  {
    ClassfulForm(p);
    ClassfulForm(Prefix(p.address, 32));
  }

  /** What has been received once is advertised unchanged ever after. */
  lemma WireIdempotent(a: Address)
    requires OnWire(a).Ok?
    ensures OnWire(OnWire(a).value.address) == OnWire(a)
    ensures OnWire(a).value.length != 0 && Classful(OnWire(a).value) == OnWire(a)
  {
    var host := Prefix(a, 32);
    ClassfulForm(host);
    ClassfulIdempotent(host);
    SurvivesWire(OnWire(a).value);
  }

  /** The default route is the exception: it is classful, but a receiver files
      it under 0.0.0.0/8. */
  lemma DefaultRouteBecomesNetworkZero(p: Prefix)
    requires p.length == 0
    ensures p.address == 0 && Classful(p) == Ok(p)
    ensures OnWire(p.address).Ok? && OnWire(p.address).value.address == 0 && OnWire(p.address).value.length == 8
  {
    ClassSpans();
    TruncationKeepsClass(p.address);
  }

  /** The network the examples use: 10.0.0.0, of class A. */
  const TEN: Address := 0x0A00_0000

  lemma TenIsClassful() returns (p: Prefix)
    ensures OnWire(TEN) == Ok(p) == OnWire(p.address) && Classful(p) == Ok(p) && p.length != 0
  {
    TruncationKeepsClass(TEN);
    hide Span;
    p := OnWire(TEN).value;
    WireIdempotent(TEN);
  }
}
