/** `pkg/runs/messageid.go`: 48 bits of milliseconds and 80 of entropy as 26 characters, in the layout the ULID
    specification gives in its sections "Encoding" and "Sorting". */
module MessageId {
  import opened Arithmetic
  import opened Bytes

  const CROCKFORD := "0123456789ABCDEFGHJKMNPQRSTVWXYZ"
  const WORD := 0x1_0000_0000

  // Numbers in a base, the most significant digit first.

  function Value(base: nat, digits: seq<nat>): nat {
    if digits == [] then 0 else Value(base, digits[..|digits| - 1]) * base + digits[|digits| - 1]
  }

  predicate AreDigits(base: nat, digits: seq<nat>) {
    forall i :: 0 <= i < |digits| ==> digits[i] < base
  }

  /** In lexicographic order, for sequences of one length. */
  predicate Before<T(==)>(a: seq<T>, b: seq<T>, less: (T, T) -> bool) {
    exists k :: 0 <= k < |a| && DiffersAt(a, b, less, k)
  }

  predicate DiffersAt<T(==)>(a: seq<T>, b: seq<T>, less: (T, T) -> bool, k: nat) {
    k < |a| && k < |b| && a[..k] == b[..k] && less(a[k], b[k])
  }

  const LESS := (x: nat, y: nat) => x < y
  const LESS_CHAR := (x: char, y: char) => x < y

  lemma Snoc(base: nat, digits: seq<nat>, d: nat)
    ensures Value(base, digits + [d]) == Value(base, digits) * base + d
  {
    assert (digits + [d])[..|digits|] == digits;
  }

  lemma BeforeBySteps(a: seq<nat>, b: seq<nat>)
    requires |a| == |b| > 0
    ensures var n := |a| - 1;
            Before(a, b, LESS) <==> Before(a[..n], b[..n], LESS) || (a[..n] == b[..n] && a[n] < b[n])
  {
    var n := |a| - 1;
    assert forall k :: 0 <= k < n ==> a[..n][..k] == a[..k] && b[..n][..k] == b[..k];
    if Before(a[..n], b[..n], LESS) {
      var k :| 0 <= k < n && DiffersAt(a[..n], b[..n], LESS, k);
      assert DiffersAt(a, b, LESS, k);
    }
    if a[..n] == b[..n] && a[n] < b[n] {
      assert DiffersAt(a, b, LESS, n);
    }
    if Before(a, b, LESS) {
      var k :| 0 <= k < |a| && DiffersAt(a, b, LESS, k);
      assert k < n ==> DiffersAt(a[..n], b[..n], LESS, k);
    }
  }

  /** As many digits in one base sort as the numbers they stand for, and no two stand for the same. */
  lemma {:induction false} DigitsSortAsNumbers(base: nat, a: seq<nat>, b: seq<nat>)
    requires |a| == |b| && AreDigits(base, a) && AreDigits(base, b)
    ensures Value(base, a) < Value(base, b) <==> Before(a, b, LESS)
    ensures Value(base, a) == Value(base, b) <==> a == b
  {
    if a != [] {
      var n := |a| - 1;
      DigitsSortAsNumbers(base, a[..n], b[..n]);
      BeforeBySteps(a, b);
      assert a == a[..n] + [a[n]] && b == b[..n] + [b[n]];
      Carries(base, Value(base, a[..n]), a[n], Value(base, b[..n]), b[n]);
    }
  }

  lemma Carries(base: nat, x: nat, r: nat, y: nat, s: nat)
    requires r < base && s < base
    ensures x * base + r < y * base + s <==> x < y || (x == y && r < s)
    ensures x * base + r == y * base + s <==> x == y && r == s
  {
    assert x < y ==> (y - x) * base >= base by {
      if x < y {
        MultiplesGrow(y - x, base);
      }
    }
    assert y < x ==> (x - y) * base >= base by {
      if y < x {
        MultiplesGrow(x - y, base);
      }
    }
  }

  // The text of a number.

  lemma AlphabetAscends(i: nat, j: nat)
    requires i < j < 32
    ensures CROCKFORD[i] < CROCKFORD[j]
  {
  }

  predicate Spells(text: string, digits: seq<nat>) {
    |text| == |digits| && AreDigits(32, digits) && forall k :: 0 <= k < |text| ==> text[k] == CROCKFORD[digits[k]]
  }

  /** The text is the number in base 32, in 26 characters. */
  ghost predicate IsTextOf(text: string, number: nat) {
    |text| == 26 && exists digits :: Spells(text, digits) && Value(32, digits) == number
  }

  lemma SpellingKeepsOrder(s: string, a: seq<nat>, t: string, b: seq<nat>)
    requires |a| == |b| && Spells(s, a) && Spells(t, b)
    ensures Before(s, t, LESS_CHAR) <==> Before(a, b, LESS)
    ensures s == t <==> a == b
  {
    forall k | 0 <= k < |a|
      ensures s[k] < t[k] <==> a[k] < b[k]
      ensures s[k] == t[k] <==> a[k] == b[k]
    {
      if a[k] < b[k] {
        AlphabetAscends(a[k], b[k]);
      } else if b[k] < a[k] {
        AlphabetAscends(b[k], a[k]);
      }
    }
    forall k | 0 <= k < |a| ensures DiffersAt(s, t, LESS_CHAR, k) <==> DiffersAt(a, b, LESS, k) {
      assert s[..k] == t[..k] <==> forall i :: 0 <= i < k ==> s[i] == t[i];
      assert a[..k] == b[..k] <==> forall i :: 0 <= i < k ==> a[i] == b[i];
    }
  }

  /** Texts sort as the numbers do, and differ as they do. */
  lemma TextsSortAsNumbers(s: string, m: nat, t: string, n: nat)
    requires IsTextOf(s, m) && IsTextOf(t, n)
    ensures Before(s, t, LESS_CHAR) <==> m < n
    ensures s == t <==> m == n
  {
    var a :| Spells(s, a) && Value(32, a) == m;
    var b :| Spells(t, b) && Value(32, b) == n;
    SpellingKeepsOrder(s, a, t, b);
    DigitsSortAsNumbers(32, a, b);
  }

  // The 128 bits.

  /** 2 to the power of 40 - 8 * i, by which the milliseconds are shifted for byte i. */
  function Unit(i: nat): nat
    requires i <= 6
  {
    match i
    case 0 => 0x100_0000_0000
    case 1 => 0x1_0000_0000
    case 2 => 0x100_0000
    case 3 => 0x1_0000
    case 4 => 0x100
    case _ => 1
  }

  /** The milliseconds a `uint64` holds, of which the id keeps 48 bits. */
  function Kept(at: int): nat { at % 0x1_0000_0000_0000_0000 % 0x1_0000_0000_0000 }

  function Number(at: int, entropy: seq<Byte>): nat
    requires |entropy| == 10
  {
    Kept(at) * 0x1_0000_0000_0000_0000_0000 + Value(256, entropy)
  }

  lemma NextByte(ms: nat, i: nat)
    requires i < 6
    ensures var kept := ms % 0x1_0000_0000_0000;
            var above := if i == 0 then 0 else kept / Unit(i - 1);
            kept / Unit(i) == above * 256 + ms / Unit(i) % 256
  {
    var kept, higher := ms % 0x1_0000_0000_0000, ms / 0x1_0000_0000_0000;
    var more := if i == 0 then 1 else if i == 1 then 0x100 else if i == 2 then 0x1_0000
                else if i == 3 then 0x100_0000 else if i == 4 then 0x1_0000_0000 else 0x100_0000_0000;
    assert more * 256 * Unit(i) == 0x1_0000_0000_0000;
    LowBytes(kept, higher, more, Unit(i));
    if i > 0 {
      assert Unit(i - 1) == Unit(i) * 256;
    }
  }

  lemma LowBytes(kept: nat, higher: nat, more: nat, unit: nat)
    requires unit >= 1 && more >= 1
    ensures (higher * (more * 256 * unit) + kept) / unit % 256 == kept / unit % 256
    ensures kept / unit == kept / (unit * 256) * 256 + kept / unit % 256
  {
    HigherBytesDropOut(kept, higher * more, unit);
    assert higher * (more * 256 * unit) == higher * more * (256 * unit);
    DividedTwice(kept, unit);
  }

  lemma HigherBytesDropOut(kept: nat, times: nat, unit: nat)
    requires unit >= 1
    ensures (times * (256 * unit) + kept) / unit % 256 == kept / unit % 256
  {
    assert times * (256 * unit) == (times * 256) * unit;
    ShiftedDivision(kept, times * 256, unit);
    ShiftedDivision(kept / unit, times, 256);
  }

  lemma DividedTwice(x: nat, unit: nat)
    requires unit >= 1
    ensures x / (unit * 256) == x / unit / 256
  {
    Split(x, unit, 256);
  }

  lemma Split(x: nat, unit: nat, m: nat)
    requires unit >= 1 && m >= 1
    ensures x / (unit * m) == x / unit / m
    ensures x % (unit * m) == x / unit % m * unit + x % unit
  {
    var y, s := x / unit, x % unit;
    var q, r := y / m, y % m;
    assert y == q * m + r;
    Regrouped(q, r, s, unit, m);
    DivisionIsUnique(x, q, r * unit + s, unit * m);
  }

  lemma Regrouped(q: nat, r: nat, s: nat, unit: nat, m: nat)
    requires r < m && s < unit
    ensures (q * m + r) * unit + s == q * (unit * m) + (r * unit + s)
    ensures 0 <= r * unit + s < unit * m
  {
    Distributed(q, m, r, unit, s);
    assert m * unit == (m - 1 - r) * unit + r * unit + unit;
  }

  /** The bytes of the id: the milliseconds and then the entropy, each with its most significant byte first. */
  method Packed(at: int, entropy: seq<Byte>) returns (id: array<Byte>)
    requires |entropy| == 10
    ensures fresh(id) && id.Length == 16 && Value(256, id[..]) == Number(at, entropy)
  {
    id := new Byte[16](_ => 0);
    var ms := at % 0x1_0000_0000_0000_0000;
    for i := 0 to 6
      invariant Value(256, id[..i]) == if i == 0 then 0 else Kept(at) / Unit(i - 1)
    {
      id[i] := ms / Unit(i) % 256;
      assert id[..i + 1] == id[..i] + [id[i]];
      Snoc(256, id[..i], id[i]);
      NextByte(ms, i);
    }
    Fill(id, entropy);
    assert id[..] == id[..6] + entropy;
    Joined(256, id[..6], entropy);
    PowerOfTen();
  }

  /** The `copy` of the entropy behind the milliseconds. */
  method Fill(id: array<Byte>, entropy: seq<Byte>)
    requires id.Length == 16 && |entropy| == 10
    modifies id
    ensures id[..6] == old(id[..6]) && id[6..] == entropy
  {
    forall k | 0 <= k < 10 {
      id[6 + k] := entropy[k];
    }
  }

  function Power(base: nat, n: nat): (p: nat)
    ensures base >= 1 ==> p >= 1
  {
    if n == 0 then 1 else Power(base, n - 1) * base
  }

  lemma PowerOfTen()
    ensures Power(256, 10) == 0x1_0000_0000_0000_0000_0000
  {
    assert Power(256, 5) == 0x100_0000_0000;
  }

  lemma Distributed(x: nat, y: nat, z: nat, base: nat, d: nat)
    ensures (x * y + z) * base + d == x * (y * base) + (z * base + d)
  {
  }

  lemma {:induction false} Joined(base: nat, a: seq<nat>, b: seq<nat>)
    ensures Value(base, a + b) == Value(base, a) * Power(base, |b|) + Value(base, b)
  {
    if b == [] {
      assert a + b == a;
    } else {
      var n := |b| - 1;
      Joined(base, a, b[..n]);
      assert (a + b)[..|a| + n] == a + b[..n];
      Distributed(Value(base, a), Power(base, n), Value(base, b[..n]), base, b[n]);
    }
  }

  // The packing: eight bits in, five bits out.

  lemma {:induction false} PowersMultiply(base: nat, a: nat, b: nat)
    ensures Power(base, a) * Power(base, b) == Power(base, a + b)
  {
    if b > 0 {
      PowersMultiply(base, a, b - 1);
      Distributed(Power(base, a), Power(base, b - 1), 0, base, 0);
    }
  }

  lemma WordIsAPower()
    ensures Power(2, 32) == WORD
  {
    assert Power(2, 8) == 256;
    PowersMultiply(2, 8, 8);
    PowersMultiply(2, 16, 16);
  }

  /** The bits of the bytes read are those of the characters written, and the bits held over. */
  ghost predicate Accounts(bytes: seq<nat>, digits: seq<nat>, bits: nat, held: nat) {
    Value(256, bytes) == Value(32, digits) * Power(2, held) + bits % Power(2, held)
  }

  lemma WrapsAlike(x: nat, unit: nat, times: nat)
    requires unit >= 1 && times >= 1
    ensures x % (unit * times) % unit == x % unit
  {
    var k, r := x / unit % times, x % unit;
    Split(x, unit, times);
    ShiftedDivision(r, k, unit);
    DivisionIsUnique(r, 0, r, unit);
  }

  lemma ShiftedIn(x: nat, d: nat, unit: nat, bits: nat, b: nat, times: nat)
    requires unit >= 1 && times >= 1 && x == d * unit + bits % unit && b < 256
    ensures x * 256 + b == d * (unit * 256) + (bits * 256 + b) % (unit * 256 * times) % (unit * 256)
  {
    var q, r := bits / unit, bits % unit;
    WrapsAlike(bits * 256 + b, unit * 256, times);
    Distributed(q, unit, r, 256, b);
    DivisionIsUnique(bits * 256 + b, q, r * 256 + b, unit * 256);
    Distributed(d, unit, r, 256, b);
  }

  /** The high bits a `uint32` shifts out are not among those held. */
  lemma TakeIn(bytes: seq<nat>, digits: seq<nat>, bits: nat, held: nat, b: Byte)
    requires Accounts(bytes, digits, bits, held) && held <= 24
    ensures Accounts(bytes + [b], digits, (bits * 256 + b) % WORD, held + 8)
  {
    PowersMultiply(2, held, 8);
    PowersMultiply(2, held + 8, 24 - held);
    WordIsAPower();
    assert Power(2, 8) == 256;
    ShiftedIn(Value(256, bytes), Value(32, digits), Power(2, held), bits, b, Power(2, 24 - held));
    Snoc(256, bytes, b);
  }

  lemma ShiftedOut(x: nat, d: nat, unit: nat, bits: nat)
    requires unit >= 1 && x == d * (unit * 32) + bits % (unit * 32)
    ensures x == (d * 32 + bits / unit % 32) * unit + bits % unit
  {
    Split(bits, unit, 32);
    Distributed(d, 32, bits / unit % 32, unit, bits % unit);
  }

  lemma GiveOut(bytes: seq<nat>, digits: seq<nat>, bits: nat, held: nat)
    requires Accounts(bytes, digits, bits, held) && held >= 5
    ensures Accounts(bytes, digits + [bits / Power(2, held - 5) % 32], bits, held - 5)
  {
    PowersMultiply(2, held - 5, 5);
    assert Power(2, 5) == 32;
    ShiftedOut(Value(256, bytes), Value(32, digits), Power(2, held - 5), bits);
    Snoc(32, digits, bits / Power(2, held - 5) % 32);
  }

  /** Writes out five bits at a time while five are held. */
  method Drain(text: array<char>, ghost bytes: seq<nat>, ghost digits0: seq<nat>, bits: nat, held0: nat, written0: nat)
    returns (held: nat, written: nat, ghost digits: seq<nat>)
    requires text.Length == 26 && written0 * 5 + held0 <= 130 && |digits0| == written0 && Spells(text[..written0], digits0)
    requires Accounts(bytes, digits0, bits, held0)
    modifies text
    ensures held < 5 && written * 5 + held == written0 * 5 + held0
    ensures |digits| == written <= 26 && Spells(text[..written], digits) && Accounts(bytes, digits, bits, held)
  {
    held, written, digits := held0, written0, digits0;
    while held >= 5
      invariant written * 5 + held == written0 * 5 + held0
      invariant |digits| == written <= 26 && Spells(text[..written], digits) && Accounts(bytes, digits, bits, held)
    {
      GiveOut(bytes, digits, bits, held);
      held := held - 5;
      var digit := bits / Power(2, held) % 32;
      text[written] := CROCKFORD[digit];
      digits := digits + [digit];
      written := written + 1;
    }
  }

  /** Shifts one byte in, and writes out what it completes. */
  method TakeByte(text: array<char>, ghost bytes: seq<Byte>, b: Byte, ghost digits0: seq<nat>, bits0: nat, held0: nat, written0: nat)
    returns (bits: nat, held: nat, written: nat, ghost digits: seq<nat>)
    requires text.Length == 26 && held0 <= 24 && written0 * 5 + held0 <= 122 && |digits0| == written0 && Spells(text[..written0], digits0)
    requires Accounts(bytes, digits0, bits0, held0)
    modifies text
    ensures held < 5 && written * 5 + held == written0 * 5 + held0 + 8
    ensures |digits| == written <= 26 && Spells(text[..written], digits) && Accounts(bytes + [b], digits, bits, held)
  {
    TakeIn(bytes, digits0, bits0, held0, b);
    bits := (bits0 * 256 + b) % WORD;
    held, written, digits := Drain(text, bytes + [b], digits0, bits, held0 + 8, written0);
  }

  lemma FirstByte(b: Byte)
    ensures Accounts([b], [b / 32], b % 32, 5)
  {
    assert Power(2, 5) == 32;
    Snoc(256, [], b);
    Snoc(32, [], b / 32);
    assert [] + [b] == [b] && [] + [b / 32] == [b / 32];
  }

  /** The loop over the bytes of the id. */
  method Pack(id: seq<Byte>, text: array<char>) returns (ghost digits: seq<nat>)
    requires |id| == 16 && text.Length == 26
    modifies text
    ensures Spells(text[..], digits) && Value(32, digits) == Value(256, id)
  {
    text[0] := CROCKFORD[id[0] / 32];
    var bits: nat, held: nat, written: nat := id[0] % 32, 5, 1;
    digits := [id[0] / 32];
    assert id[..1] == [id[0]];
    FirstByte(id[0]);
    for j := 1 to 16
      invariant written * 5 + held == 8 * j + 2 && (if j == 1 then held == 5 else held < 5)
      invariant |digits| == written <= 26 && Spells(text[..written], digits) && Accounts(id[..j], digits, bits, held)
    {
      assert id[..j + 1] == id[..j] + [id[j]];
      bits, held, written, digits := TakeByte(text, id[..j], id[j], digits, bits, held, written);
    }
    assert id[..16] == id;
    assert text[..26] == text[..];
  }

  method EncodeMessageID(at: int, entropy: seq<Byte>) returns (text: string)
    requires |entropy| == 10
    ensures IsTextOf(text, Number(at, entropy))
  {
    var id := Packed(at, entropy);
    var written := new char[26](_ => '0');
    ghost var digits := Pack(id[..], written);
    text := written[..];
  }

  /** So ids sort by their milliseconds and then by their entropy, and differ whenever either does. */
  lemma IdsSortByTimeAndEntropy(s: string, at: int, e: seq<Byte>, t: string, at': int, e': seq<Byte>)
    requires |e| == |e'| == 10 && IsTextOf(s, Number(at, e)) && IsTextOf(t, Number(at', e'))
    ensures Before(s, t, LESS_CHAR) <==> Kept(at) < Kept(at') || (Kept(at) == Kept(at') && Before<nat>(e, e', LESS))
    ensures s == t <==> Kept(at) == Kept(at') && e == e'
  {
    TextsSortAsNumbers(s, Number(at, e), t, Number(at', e'));
    DigitsSortAsNumbers(256, e, e');
    Bounded(256, e);
    Bounded(256, e');
    PowerOfTen();
    Carries(Power(256, 10), Kept(at), Value(256, e), Kept(at'), Value(256, e'));
  }

  lemma {:induction false} Bounded(base: nat, digits: seq<nat>)
    requires AreDigits(base, digits)
    ensures Value(base, digits) < Power(base, |digits|)
  {
    if digits != [] {
      var n := |digits| - 1;
      Bounded(base, digits[..n]);
      Carries(base, Value(base, digits[..n]), digits[n], Power(base, n), 0);
    }
  }
}
