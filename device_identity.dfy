/**
 * Device identity (src/lib/deviceIdentity.ts): the dual djb2 hash that
 * turns the joined fingerprint signals into a 16-digit hex string, the
 * ledger of device records kept under one storage key, and the
 * six-month rejection cooldown.
 *
 * The input of the hash is the sequence of UTF-16 code units of the
 * signal string (what `charCodeAt` returns). Each accumulator is held
 * as its unsigned 32-bit value: the source keeps the signed value that
 * `^` produces and reads it unsigned only at the end (`>>> 0`), and the
 * two agree modulo 2^32, which is all that `* 33`, `^` and `>>> 0` see.
 *
 * Storage is a status plus, when the item parses, the map of records;
 * JSON text is not modelled. Times are integer milliseconds.
 */
module DeviceIdentity {

  import opened Wrappers
  import opened Bits
  import opened Types
  import opened Constants

  // ---------------------------------------------------------------
  // 32-bit xor on unsigned values
  // ---------------------------------------------------------------

  /** Bit `i` of `n` (bit 0 is the least significant). */
  function Bit(n: nat, i: nat): bool
  {
    if i == 0 then n % 2 == 1 else Bit(n / 2, i - 1)
  }

  /** The xor of the low `k` bits of `a` and `b`; `XorBits(a, b, 32)` is the unsigned reading of `a ^ b`. */
  function XorBits(a: nat, b: nat, k: nat): nat
  {
    if k == 0 then 0
    else (if a % 2 == b % 2 then 0 else 1) + 2 * XorBits(a / 2, b / 2, k - 1)
  }

  lemma {:induction false} XorBitsBound(a: nat, b: nat, k: nat)
    ensures XorBits(a, b, k) < Pow2(k)
  {
    if k > 0 {
      XorBitsBound(a / 2, b / 2, k - 1);
    }
  }

  lemma {:induction false} BitOfZero(i: nat)
    ensures !Bit(0, i)
  {
    if i > 0 {
      BitOfZero(i - 1);
    }
  }

  /** `XorBits` is bitwise exclusive or on the low `k` bits, and clears every higher bit. */
  lemma {:induction false} XorBitwise(a: nat, b: nat, k: nat, i: nat)
    ensures Bit(XorBits(a, b, k), i) == (i < k && Bit(a, i) != Bit(b, i))
  {
    if k == 0 {
      BitOfZero(i);
    } else if i > 0 {
      var x := XorBits(a, b, k);
      assert x / 2 == XorBits(a / 2, b / 2, k - 1);
      XorBitwise(a / 2, b / 2, k - 1, i - 1);
    }
  }

  /** A value below 2^k has no bit at position k or above. */
  lemma {:induction false} BitAbove(n: nat, k: nat, i: nat)
    requires n < Pow2(k) && k <= i
    ensures !Bit(n, i)
  {
    if k == 0 {
      assert n == 0;
      BitOfZero(i);
    } else {
      BitAbove(n / 2, k - 1, i - 1);
    }
  }

  // ---------------------------------------------------------------
  // The djb2 accumulators
  // ---------------------------------------------------------------

  /** A UTF-16 code unit, as `charCodeAt` returns it. */
  type CodeUnit = c: nat | c < 0x1_0000

  const Seed1: nat := 5381
  const Seed2: nat := 52711

  /** One step of an accumulator: `h = (h * 33) ^ c`, read as an unsigned 32-bit value. */
  function Djb2Step(h: nat, c: CodeUnit): nat
  {
    XorBits((h * 33) % Word, c, 32)
  }

  /** An accumulator after the whole input, folded from the left. */
  function Djb2(seed: nat, units: seq<CodeUnit>): nat
  {
    if |units| == 0 then seed
    else Djb2Step(Djb2(seed, units[..|units| - 1]), units[|units| - 1])
  }

  /** Every step wraps at 32 bits, so an accumulator started below 2^32 stays below it. */
  lemma {:induction false} Djb2Bound(seed: nat, units: seq<CodeUnit>)
    requires seed < Word
    ensures Djb2(seed, units) < Word
  {
    if |units| > 0 {
      XorBitsBound((Djb2(seed, units[..|units| - 1]) * 33) % Word, units[|units| - 1], 32);
      Pow2Of32();
    }
  }

  /**
   * A step is the bitwise xor of the wrapped product with the code unit;
   * since a code unit has 16 bits, the upper 16 bits of the result are
   * those of the product.
   */
  lemma Djb2StepBits(h: nat, c: CodeUnit, i: nat)
    requires i < 32
    ensures Bit(Djb2Step(h, c), i) == (Bit((h * 33) % Word, i) != Bit(c, i))
    ensures 16 <= i ==> Bit(Djb2Step(h, c), i) == Bit((h * 33) % Word, i)
  {
    XorBitwise((h * 33) % Word, c, 32, i);
    if 16 <= i {
      assert Pow2(4) == 16;
      Pow2Add(4, 4);
      Pow2Add(8, 8);
      BitAbove(c, 16, i);
    }
  }

  // ---------------------------------------------------------------
  // Hex rendering: `toString(16).padStart(8, '0')`
  // ---------------------------------------------------------------

  predicate IsLowerHex(ch: char)
  {
    '0' <= ch <= '9' || 'a' <= ch <= 'f'
  }

  function HexDigit(d: nat): (ch: char)
    requires d < 16
    ensures IsLowerHex(ch)
  {
    if d < 10 then ('0' as int + d) as char else ('a' as int + d - 10) as char
  }

  /** The digit a lower-case hex character stands for. */
  function HexDigitValue(ch: char): (d: nat)
    requires IsLowerHex(ch)
    ensures d < 16
  {
    if ch <= '9' then ch as int - '0' as int else ch as int - 'a' as int + 10
  }

  /** `Number.prototype.toString(16)` of a non-negative integer: no leading zeros, "0" for zero. */
  function ToHex(n: nat): string
  {
    if n < 16 then [HexDigit(n)] else ToHex(n / 16) + [HexDigit(n % 16)]
  }

  /** `String.prototype.padStart(len, pad)` with a one-character pad. */
  function PadStart(s: string, len: nat, pad: char): (r: string)
    ensures |r| == if |s| >= len then |s| else len
    ensures r[|r| - |s|..] == s
    ensures forall i :: 0 <= i < |r| - |s| ==> r[i] == pad
  {
    if |s| >= len then s else seq(len - |s|, _ => pad) + s
  }

  /** One half of the fingerprint: the unsigned accumulator as 8 zero-padded hex digits. */
  function Hex8(h: nat): string
  {
    PadStart(ToHex(h), 8, '0')
  }

  predicate AllLowerHex(s: string)
  {
    forall i :: 0 <= i < |s| ==> IsLowerHex(s[i])
  }

  /** The value of a string of lower-case hex digits, most significant first: the partner of `ToHex`. */
  function HexValue(s: string): nat
    requires AllLowerHex(s)
  {
    if |s| == 0 then 0 else 16 * HexValue(s[..|s| - 1]) + HexDigitValue(s[|s| - 1])
  }

  lemma {:induction false} ToHexDecodes(n: nat)
    ensures AllLowerHex(ToHex(n))
    ensures HexValue(ToHex(n)) == n
  {
    if n >= 16 {
      ToHexDecodes(n / 16);
      var s := ToHex(n);
      assert s[..|s| - 1] == ToHex(n / 16);
    }
  }

  /** A number below 16^k has at most k hex digits. */
  lemma {:induction false} ToHexLength(n: nat, k: nat)
    requires 1 <= k && n < Pow2(4 * k)
    ensures |ToHex(n)| <= k
  {
    assert Pow2(4) == 16;
    if n >= 16 {
      Pow2Add(4, 4 * (k - 1));
      ToHexLength(n / 16, k - 1);
    }
  }

  lemma {:induction false} ZerosDecode(k: nat)
    ensures AllLowerHex(seq(k, _ => '0'))
    ensures HexValue(seq(k, _ => '0')) == 0
  {
    if k > 0 {
      ZerosDecode(k - 1);
      assert seq(k, _ => '0')[..k - 1] == seq(k - 1, _ => '0');
    }
  }

  /** Leading zeros do not change the value a hex string decodes to. */
  lemma {:induction false} LeadingZerosDecode(z: string, s: string)
    requires AllLowerHex(z) && HexValue(z) == 0 && AllLowerHex(s)
    ensures AllLowerHex(z + s)
    ensures HexValue(z + s) == HexValue(s)
  {
    if |s| > 0 {
      LeadingZerosDecode(z, s[..|s| - 1]);
      assert (z + s)[..|z + s| - 1] == z + s[..|s| - 1];
    } else {
      assert z + s == z;
    }
  }

  /** Each half has exactly 8 lower-case hex digits and decodes back to its accumulator. */
  lemma Hex8Decodes(h: nat)
    requires h < Word
    ensures |Hex8(h)| == 8
    ensures AllLowerHex(Hex8(h))
    ensures HexValue(Hex8(h)) == h
  {
    Pow2Of32();
    ToHexLength(h, 8);
    ToHexDecodes(h);
    var s := ToHex(h);
    var z := seq(8 - |s|, _ => '0');
    ZerosDecode(8 - |s|);
    LeadingZerosDecode(z, s);
    assert Hex8(h) == z + s;
  }

  // ---------------------------------------------------------------
  // hashString
  // ---------------------------------------------------------------

  /** The fingerprint of an input: both accumulators, each as 8 hex digits. */
  function HashOf(units: seq<CodeUnit>): string
  {
    Hex8(Djb2(Seed1, units)) + Hex8(Djb2(Seed2, units))
  }

  /** hashString: one pass over the code units, updating both accumulators. */
  method HashString(str: seq<CodeUnit>) returns (r: string)
    ensures r == HashOf(str)
  {
    var hash1: nat := Seed1;
    var hash2: nat := Seed2;
    for i := 0 to |str|
      invariant hash1 == Djb2(Seed1, str[..i])
      invariant hash2 == Djb2(Seed2, str[..i])
    {
      assert str[..i + 1][..i] == str[..i];
      var c := str[i];
      hash1 := XorBits((hash1 * 33) % Word, c, 32);
      hash2 := XorBits((hash2 * 33) % Word, c, 32);
    }
    assert str[..|str|] == str;
    r := Hex8(hash1) + Hex8(hash2);
  }

  /**
   * Every fingerprint is 16 lower-case hex digits, and its two halves
   * decode to the two accumulators.
   */
  lemma HashShape(units: seq<CodeUnit>)
    ensures |HashOf(units)| == 16
    ensures AllLowerHex(HashOf(units))
    ensures AllLowerHex(HashOf(units)[..8]) && HexValue(HashOf(units)[..8]) == Djb2(Seed1, units)
    ensures AllLowerHex(HashOf(units)[8..]) && HexValue(HashOf(units)[8..]) == Djb2(Seed2, units)
  {
    Djb2Bound(Seed1, units);
    Djb2Bound(Seed2, units);
    Hex8Decodes(Djb2(Seed1, units));
    Hex8Decodes(Djb2(Seed2, units));
    var h := HashOf(units);
    assert h[..8] == Hex8(Djb2(Seed1, units));
    assert h[8..] == Hex8(Djb2(Seed2, units));
  }

  /** Equal fingerprints have equal accumulators. */
  lemma HashDeterminesAccumulators(u: seq<CodeUnit>, v: seq<CodeUnit>)
    requires HashOf(u) == HashOf(v)
    ensures Djb2(Seed1, u) == Djb2(Seed1, v)
    ensures Djb2(Seed2, u) == Djb2(Seed2, v)
  {
    HashShape(u);
    HashShape(v);
  }

  /** The empty input leaves both seeds untouched. */
  lemma HashOfEmpty()
    ensures HashOf([]) == "000015050000cde7"
  {
    assert HexDigit(0) == '0' && HexDigit(1) == '1' && HexDigit(5) == '5';
    assert ToHex(5381) == ToHex(21) + [HexDigit(0)] + [HexDigit(5)];
    assert ToHex(5381) == "1505";
    assert HexDigit(7) == '7' && HexDigit(12) == 'c' && HexDigit(13) == 'd' && HexDigit(14) == 'e';
    assert ToHex(52711) == ToHex(205) + [HexDigit(14)] + [HexDigit(7)];
    assert ToHex(52711) == "cde7";
  }

  // ---------------------------------------------------------------
  // The ledger
  // ---------------------------------------------------------------

  /**
   * The storage item under the identity key. `Absent` is a missing or
   * empty item; `Unparsable` is an item whose text does not parse to a
   * records object; `Unavailable` is storage whose read throws.
   */
  datatype Storage =
    | Unavailable
    | Absent
    | Unparsable
    | Records(records: map<string, DeviceRecord>)

  /** The records a writer starts from: `stored ? JSON.parse(stored) : {}`, or nothing when that throws. */
  function Loaded(st: Storage): (m: Option<map<string, DeviceRecord>>)
    ensures m.None? <==> st.Unavailable? || st.Unparsable?
    ensures st.Absent? ==> m == Some(map[])
    ensures st.Records? ==> m == Some(st.records)
  {
    match st
    case Unavailable => None
    case Absent => Some(map[])
    case Unparsable => None
    case Records(m) => Some(m)
  }

  /** getDeviceRecord on a given storage item. */
  function LookupIn(st: Storage, fp: string): (r: Option<DeviceRecord>)
    ensures r.Some? <==> st.Records? && fp in st.records
    ensures r.Some? ==> r.value == st.records[fp]
  {
    if st.Records? && fp in st.records then Some(st.records[fp]) else None
  }

  /** The record recordRejection writes, given the record already stored (if any). */
  function RejectedRecord(existing: Option<DeviceRecord>, fp: string, now: int): DeviceRecord
  {
    var attempts := if existing.Some? then existing.value.attempts else 0;
    var firstSeen := if existing.Some? && existing.value.firstSeenAt != 0 then existing.value.firstSeenAt else now;
    DeviceRecord(fp, Some(now), attempts + 1, firstSeen)
  }

  /** The storage item after recordRejection(fp) at time `now`; `writable` says whether setItem succeeds. */
  function AfterRejection(st: Storage, writable: bool, fp: string, now: int): Storage
  {
    match Loaded(st)
    case None => st
    case Some(m) =>
      if writable then Records(m[fp := RejectedRecord(if fp in m then Some(m[fp]) else None, fp, now)]) else st
  }

  /** The storage item after recordAttempt(fp) at time `now`. */
  function AfterAttempt(st: Storage, writable: bool, fp: string, now: int): Storage
  {
    match Loaded(st)
    case None => st
    case Some(m) =>
      if writable && fp !in m then Records(m[fp := DeviceRecord(fp, None, 1, now)]) else st
  }

  /** The ledger: the storage item and whether writes to it succeed. */
  class IdentityStore {
    var storage: Storage
    var writable: bool

    constructor (storage: Storage, writable: bool)
      ensures this.storage == storage && this.writable == writable
    {
      this.storage := storage;
      this.writable := writable;
    }

    /** getDeviceRecord: any failure to read or parse yields no record. */
    function GetDeviceRecord(fp: string): (r: Option<DeviceRecord>)
      reads this
      ensures r.Some? <==> storage.Records? && fp in storage.records
      ensures r.Some? ==> r.value == storage.records[fp]
    {
      LookupIn(storage, fp)
    }

    /** recordRejection: read the records, overwrite this device's entry, write them back. */
    method RecordRejection(fp: string, now: int)
      modifies this
      ensures storage == AfterRejection(old(storage), old(writable), fp, now)
      ensures writable == old(writable)
    {
      if storage.Unavailable? || storage.Unparsable? {
        return;
      }
      var records: map<string, DeviceRecord> := if storage.Records? then storage.records else map[];
      var existing := if fp in records then Some(records[fp]) else None;
      records := records[fp := RejectedRecord(existing, fp, now)];
      if writable {
        storage := Records(records);
      }
    }

    /** recordAttempt: add a fresh record for this device unless one exists. */
    method RecordAttempt(fp: string, now: int)
      modifies this
      ensures storage == AfterAttempt(old(storage), old(writable), fp, now)
      ensures writable == old(writable)
    {
      if storage.Unavailable? || storage.Unparsable? {
        return;
      }
      var records: map<string, DeviceRecord> := if storage.Records? then storage.records else map[];
      if fp !in records {
        records := records[fp := DeviceRecord(fp, None, 1, now)];
        if writable {
          storage := Records(records);
        }
      }
    }
  }

  /** Whether a write goes through: the item is readable and parses, and setItem succeeds. */
  predicate Writes(st: Storage, writable: bool)
  {
    Loaded(st).Some? && writable
  }

  /**
   * After a successful recordRejection the device's record carries the
   * rejection time, one more attempt than before (1 for a new record),
   * and its old first-seen time unless that was missing or 0.
   */
  lemma RejectionRecord(st: Storage, writable: bool, fp: string, now: int)
    requires Writes(st, writable)
    ensures var r := LookupIn(AfterRejection(st, writable, fp, now), fp);
      && r.Some?
      && r.value.fingerprint == fp
      && r.value.rejectedAt == Some(now)
      && r.value.attempts == (if LookupIn(st, fp).Some? then LookupIn(st, fp).value.attempts else 0) + 1
      && r.value.firstSeenAt ==
           (if LookupIn(st, fp).Some? && LookupIn(st, fp).value.firstSeenAt != 0
            then LookupIn(st, fp).value.firstSeenAt else now)
  {
  }

  /**
   * recordAttempt creates the record {attempts 1, never rejected, first
   * seen now} only when none exists; an existing record leaves the whole
   * item untouched.
   */
  lemma AttemptRecord(st: Storage, writable: bool, fp: string, now: int)
    ensures LookupIn(st, fp).Some? ==> AfterAttempt(st, writable, fp, now) == st
    ensures Writes(st, writable) && LookupIn(st, fp).None? ==>
      LookupIn(AfterAttempt(st, writable, fp, now), fp) == Some(DeviceRecord(fp, None, 1, now))
  {
  }

  /** recordAttempt is idempotent, whatever the time of the second call. */
  lemma AttemptIdempotent(st: Storage, writable: bool, fp: string, now: int, later: int)
    ensures AfterAttempt(AfterAttempt(st, writable, fp, now), writable, fp, later)
         == AfterAttempt(st, writable, fp, now)
  {
  }

  /** Both writers touch only the given fingerprint's entry. */
  lemma WritersTouchOneEntry(st: Storage, writable: bool, fp: string, now: int, other: string)
    requires other != fp
    ensures LookupIn(AfterRejection(st, writable, fp, now), other) == LookupIn(st, other)
    ensures LookupIn(AfterAttempt(st, writable, fp, now), other) == LookupIn(st, other)
  {
  }

  /**
   * Unreadable or unparsable storage, or a failing write, makes both
   * writers no-ops, and a read of unreadable or unparsable storage finds
   * nothing; nothing is thrown.
   */
  lemma FailuresAreSilent(st: Storage, writable: bool, fp: string, now: int)
    ensures !Writes(st, writable) ==> AfterRejection(st, writable, fp, now) == st
    ensures !Writes(st, writable) ==> AfterAttempt(st, writable, fp, now) == st
    ensures st.Unavailable? || st.Unparsable? ==> LookupIn(st, fp).None?
  {
  }

  /** A missing item behaves as an empty records object. */
  lemma AbsentIsEmpty(writable: bool, fp: string, now: int)
    ensures LookupIn(Absent, fp) == LookupIn(Records(map[]), fp)
    ensures writable ==> AfterRejection(Absent, writable, fp, now) == AfterRejection(Records(map[]), writable, fp, now)
    ensures writable ==> AfterAttempt(Absent, writable, fp, now) == AfterAttempt(Records(map[]), writable, fp, now)
  {
  }

  // ---------------------------------------------------------------
  // The cooldown
  // ---------------------------------------------------------------

  /** isWithinCooldown at time `now`: `rejectedAt` null or 0 means never rejected. */
  function IsWithinCooldown(r: DeviceRecord, now: int): bool
  {
    r.rejectedAt.Some? && r.rejectedAt.value != 0 && now - r.rejectedAt.value < RejectionCooldownMs
  }

  /** getCooldownExpiryDate, as a millisecond timestamp. */
  function CooldownExpiry(r: DeviceRecord): Option<int>
  {
    if r.rejectedAt.Some? && r.rejectedAt.value != 0 then Some(r.rejectedAt.value + RejectionCooldownMs) else None
  }

  /** A device is within its cooldown exactly when it has an expiry and the time is before it. */
  lemma CooldownUntilExpiry(r: DeviceRecord, now: int)
    ensures IsWithinCooldown(r, now) <==> CooldownExpiry(r).Some? && now < CooldownExpiry(r).value
    ensures CooldownExpiry(r).None? <==> r.rejectedAt == None || r.rejectedAt == Some(0)
  {
  }

  /** Once a cooldown is over it stays over. */
  lemma CooldownEnds(r: DeviceRecord, t1: int, t2: int)
    requires t1 <= t2 && !IsWithinCooldown(r, t1)
    ensures !IsWithinCooldown(r, t2)
  {
  }

  /**
   * A successful rejection at a time other than 0 blocks the device
   * until exactly 15,552,000,000 ms later; one at time 0 is read back as
   * no rejection at all.
   */
  lemma RejectionStartsCooldown(st: Storage, writable: bool, fp: string, now: int, t: int)
    requires Writes(st, writable)
    ensures LookupIn(AfterRejection(st, writable, fp, now), fp).Some?
    ensures var r := LookupIn(AfterRejection(st, writable, fp, now), fp).value;
      IsWithinCooldown(r, t) <==> now != 0 && t < now + 15_552_000_000
  {
  }

  // ---------------------------------------------------------------
  // checkIPHistory
  // ---------------------------------------------------------------

  /** What the backend would report about other devices behind the same IP. */
  datatype IpHistory = IpHistory(hasRejectedDevices: bool, rejectedCount: int)

  /** checkIPHistory: a stub that always resolves to null. */
  function CheckIpHistory(): (r: Option<IpHistory>)
    ensures r.None?
  {
    None
  }
}
