// The byte-level formats: message padding (lib/packet.cpp), big-endian numbers
// (lib/endianness.hpp) and the signed prekey list (lib/molch.cpp).
module Padding {
  import opened Results

  const BLOCK: nat := 255

  // What padding may look like: a marker and zeros up to the end.
  ghost predicate IsPadded(padded: seq<Byte>, message: seq<Byte>) {
    && message < padded
    && padded[|message|] == 0x80
    && forall i :: |message| < i < |padded| ==> padded[i] == 0
  }

  lemma {:induction false} PaddedSize(n: nat)
    ensures (n + (BLOCK - n % BLOCK)) % BLOCK == 0
    ensures n + (BLOCK - 1 - n % BLOCK) + 1 == n + (BLOCK - n % BLOCK)
  {
    assert n == n / BLOCK * BLOCK + n % BLOCK;
    assert n + (BLOCK - n % BLOCK) == (n / BLOCK + 1) * BLOCK;
  }

  // The wrapper checks its sizes, then the library writes the marker and zeros behind the
  // message, up to the end of its block.
  method SodiumPad(buffer: array<Byte>, unpadded: nat, block: nat) returns (r: Result<nat>)
    requires block > 0
    modifies buffer
    ensures r.Ok? <==>
              && unpadded < buffer.Length && block <= buffer.Length
              && unpadded + (block - unpadded % block) <= buffer.Length
    ensures r.Ok? ==> r.value == unpadded + (block - unpadded % block)
    ensures r.Err? ==>
              r == Err(if unpadded < buffer.Length && block <= buffer.Length then GenericError else ExpectationFailed)
    ensures r.Ok? ==> buffer[unpadded] == 0x80 && forall i :: unpadded < i < r.value ==> buffer[i] == 0
    ensures forall i :: 0 <= i < buffer.Length && (r.Err? || i < unpadded || i >= r.value) ==>
              buffer[i] == old(buffer[i])
  {
    if !(unpadded < buffer.Length && block <= buffer.Length) {
      return Err(ExpectationFailed);
    }
    var last := unpadded + (block - 1 - unpadded % block);
    if last >= buffer.Length {
      return Err(GenericError);
    }
    buffer[unpadded] := 0x80;
    for i := unpadded + 1 to last + 1
      invariant buffer[unpadded] == 0x80
      invariant forall k :: unpadded < k < i ==> buffer[k] == 0
      invariant forall k :: 0 <= k < buffer.Length && (k < unpadded || k >= i) ==> buffer[k] == old(buffer[k])
    {
      buffer[i] := 0;
    }
    r := Ok(last + 1);
  }

  // packet_encrypt: a buffer one to 255 bytes longer than the message, filled by `sodium_pad`.
  method Pad(message: seq<Byte>) returns (r: Result<seq<Byte>>)
    ensures r.Ok? && IsPadded(r.value, message)
    ensures |r.value| % 255 == 0 && |message| < |r.value| <= |message| + 255
  {
    var amount := BLOCK - |message| % BLOCK;
    var buffer := new Byte[|message| + amount](_ => 0);
    for i := 0 to |message|
      invariant buffer[..i] == message[..i]
    {
      buffer[i] := message[i];
    }
    assert buffer[..|message|] == message;
    PaddedSize(|message|);
    var padded := SodiumPad(buffer, |message|, BLOCK);
    match padded {
      case Err(error) => r := Err(error);
      case Ok(size) => r := if size != buffer.Length then Err(GenericError) else Ok(buffer[..]);
    }
  }

  // packet_decrypt_message: too short a buffer is refused, then the last non-zero byte of the
  // final block must be the marker.
  method Unpad(padded: seq<Byte>) returns (r: Result<seq<Byte>>)
    ensures |padded| < BLOCK ==> r == Err(IncorrectBufferSize)
    ensures |padded| >= BLOCK ==>
              (r.Ok? <==> exists n :: |padded| - BLOCK <= n < |padded| && IsPadded(padded, padded[..n]))
    ensures r.Ok? ==> IsPadded(padded, r.value)
    ensures r.Err? && |padded| >= BLOCK ==> r == Err(GenericError)
  {
    if |padded| < BLOCK {
      return Err(IncorrectBufferSize);
    }
    var n := |padded|;
    while n > |padded| - BLOCK && padded[n - 1] == 0
      invariant |padded| - BLOCK <= n <= |padded|
      invariant forall i :: n <= i < |padded| ==> padded[i] == 0
    {
      n := n - 1;
    }
    if n == |padded| - BLOCK || padded[n - 1] != 0x80 {
      return Err(GenericError);
    }
    assert IsPadded(padded, padded[..n - 1]);
    r := Ok(padded[..n - 1]);
  }

  // A padded buffer determines its message, whatever the message ends in.
  lemma {:induction false} PaddingIsUnambiguous(padded: seq<Byte>, a: seq<Byte>, b: seq<Byte>)
    requires IsPadded(padded, a) && IsPadded(padded, b)
    ensures a == b
  {
    assert |a| == |b|;
    assert a == padded[..|a|];
  }

  // Unpadding undoes padding, for every message.
  method PadThenUnpad(message: seq<Byte>) returns (padded: seq<Byte>, r: Result<seq<Byte>>)
    ensures r == Ok(message)
  {
    var p := Pad(message);
    padded := p.value;
    assert padded[..|message|] == message;
    r := Unpad(padded);
    PaddingIsUnambiguous(padded, message, r.value);
  }
}

module Endianness {
  import opened Results

  // The value of a byte string, most significant byte first.
  function Value(bytes: seq<Byte>): nat {
    if bytes == [] then 0 else Value(bytes[..|bytes| - 1]) * 0x100 + bytes[|bytes| - 1] as nat
  }

  function Power(n: nat): nat {
    if n == 0 then 1 else Power(n - 1) * 0x100
  }

  // The `n` low bytes of a number, most significant first.
  function Bytes(value: nat, n: nat): (bytes: seq<Byte>)
    ensures |bytes| == n
  {
    if n == 0 then [] else Bytes(value / 0x100, n - 1) + [(value % 0x100) as Byte]
  }

  function Reverse(s: seq<Byte>): (r: seq<Byte>)
    ensures |r| == |s|
    ensures forall i :: 0 <= i < |s| ==> r[i] == s[|s| - 1 - i]
  {
    seq(|s|, i requires 0 <= i < |s| => s[|s| - 1 - i])
  }

  // How a machine keeps a number in memory, and what it reads from there.
  function InMemory(value: nat, n: nat, little: bool): seq<Byte> {
    if little then Reverse(Bytes(value, n)) else Bytes(value, n)
  }

  function FromMemory(bytes: seq<Byte>, little: bool): nat {
    Value(if little then Reverse(bytes) else bytes)
  }

  // `std::reverse` on the bytes of a number: what lies outside of `low` and `high` is in place.
  method SwapByteOrder(memory: array<Byte>)
    modifies memory
    ensures memory[..] == Reverse(old(memory[..]))
  {
    ghost var before := memory[..];
    var low, high := 0, memory.Length;
    while low < high
      invariant 0 <= low <= memory.Length && low + high == memory.Length && low <= high + 1
      invariant forall k :: 0 <= k < memory.Length ==>
                  memory[k] == if low <= k < high then before[k] else Reverse(before)[k]
    {
      high := high - 1;
      memory[low], memory[high] := memory[high], memory[low];
      low := low + 1;
    }
  }

  // `memory` is the number as the machine holds it.
  method ToBigEndian(memory: array<Byte>, little: bool) returns (output: seq<Byte>)
    modifies memory
    ensures output == if little then Reverse(old(memory[..])) else old(memory[..])
  {
    if little {
      SwapByteOrder(memory);
    }
    output := memory[..];
  }

  method FromBigEndian(memory: array<Byte>, input: seq<Byte>, little: bool) returns (r: Result<()>)
    modifies memory
    ensures r == if |input| == memory.Length then Ok(()) else Err(ExpectationFailed)
    ensures r.Ok? ==> memory[..] == if little then Reverse(input) else input
  {
    if |input| != memory.Length {
      return Err(ExpectationFailed);
    }
    for i := 0 to |input|
      invariant memory[..i] == input[..i]
    {
      memory[i] := input[i];
    }
    assert memory[..] == input;
    if little {
      SwapByteOrder(memory);
    }
    r := Ok(());
  }

  lemma {:induction false} ValueOfBytes(value: nat, n: nat)
    requires value < Power(n)
    ensures Value(Bytes(value, n)) == value
  {
    if n == 0 {
    } else {
      ValueOfBytes(value / 0x100, n - 1);
      var rest := Bytes(value / 0x100, n - 1);
      assert Bytes(value, n)[..n - 1] == rest;
    }
  }

  lemma {:induction false} PowerIsPositive(n: nat)
    ensures Power(n) > 0
  {
    if n == 0 {
    } else {
      PowerIsPositive(n - 1);
    }
  }

  lemma {:induction false} MultipleIsFar(k: int, d: int)
    requires d > 0
    ensures k >= 1 ==> k * d >= d
    ensures k <= -1 ==> k * d <= -d
  {
    if k >= 1 {
      assert (k - 1) * d >= 0;
    } else if k <= -1 {
      assert (-1 - k) * d >= 0;
    }
  }

  lemma {:induction false} QuotientIs(value: nat, divisor: nat, quotient: nat, rest: nat)
    requires divisor > 0 && rest < divisor && value == quotient * divisor + rest
    ensures value / divisor == quotient
  {
    var q, r := value / divisor, value % divisor;
    MultipleIsFar(q - quotient, divisor);
    assert (q - quotient) * divisor == rest - r;
  }

  lemma {:induction false} DividesTwice(value: nat, weight: nat)
    requires weight > 0
    ensures value / 0x100 / weight == value / (weight * 0x100)
  {
    var q, r := value / 0x100, value % 0x100;
    var s, u := q / weight, q % weight;
    assert value == s * (weight * 0x100) + (u * 0x100 + r);
    assert 0 <= u * 0x100 + r < weight * 0x100;
    QuotientIs(value, weight * 0x100, s, u * 0x100 + r);
  }

  // Most significant first: position i holds the digit of weight 256 to the power of n - 1 - i.
  lemma {:induction false} BytesAreDigits(value: nat, n: nat, i: nat)
    requires i < n
    ensures Power(n - 1 - i) > 0
    ensures Bytes(value, n)[i] as nat == value / Power(n - 1 - i) % 0x100
  {
    PowerIsPositive(n - 1 - i);
    if i == n - 1 {
    } else {
      BytesAreDigits(value / 0x100, n - 1, i);
      PowerIsPositive(n - 2 - i);
      DividesTwice(value, Power(n - 2 - i));
    }
  }

  lemma {:induction false} ValueFits(bytes: seq<Byte>)
    ensures Value(bytes) < Power(|bytes|)
  {
    if bytes == [] {
    } else {
      ValueFits(bytes[..|bytes| - 1]);
    }
  }

  lemma {:induction false} ReverseTwice(s: seq<Byte>)
    ensures Reverse(Reverse(s)) == s
  {
  }

  // Encoding does not depend on the byte order of the machine, and a number encoded on one
  // machine is read back on any other.
  lemma {:induction false} BigEndianRoundTrip(value: nat, n: nat, writer: bool, reader: bool)
    requires value < Power(n)
    ensures var encoded := if writer then Reverse(InMemory(value, n, writer)) else InMemory(value, n, writer);
            && encoded == Bytes(value, n)
            && FromMemory(if reader then Reverse(encoded) else encoded, reader) == value
  {
    ReverseTwice(Bytes(value, n));
    ValueOfBytes(value, n);
  }
}

module PrekeyList {
  import opened Results
  import opened Endianness
  import opened PrekeyStorage

  const KEY_SIZE: nat := 32

  const SIGNATURE_SIZE: nat := 64

  const DATE_SIZE: nat := 8

  const DATE_OFFSET: nat := KEY_SIZE + PREKEY_AMOUNT * KEY_SIZE

  const THREE_MONTHS: nat := 3 * 31 * 24 * 3600

  function Concat(keys: seq<seq<Byte>>): seq<Byte> {
    if keys == [] then [] else Concat(keys[..|keys| - 1]) + keys[|keys| - 1]
  }

  ghost predicate AllKeys(keys: seq<seq<Byte>>) {
    forall i :: 0 <= i < |keys| ==> |keys[i]| == KEY_SIZE
  }

  lemma {:induction false} ConcatAt(keys: seq<seq<Byte>>, i: nat)
    requires AllKeys(keys) && i <= |keys|
    ensures |Concat(keys)| == |keys| * KEY_SIZE
    ensures i < |keys| ==> Concat(keys)[i * KEY_SIZE..(i + 1) * KEY_SIZE] == keys[i]
    ensures Concat(keys)[..i * KEY_SIZE] == Concat(keys[..i])
  {
    if keys == [] {
    } else {
      var n := |keys| - 1;
      ConcatAt(keys[..n], if i <= n then i else n);
      if i <= n {
        assert keys[..n][..i] == keys[..i];
      } else {
        assert keys[..i] == keys;
      }
    }
  }

  // The unsigned list: identity, prekeys, expiration date.
  function Layout(identity: seq<Byte>, prekeys: seq<seq<Byte>>, date: nat): seq<Byte> {
    identity + Concat(prekeys) + Bytes(date, DATE_SIZE)
  }

  method CopyInto(source: seq<Byte>, target: array<Byte>, at: nat)
    requires at + |source| <= target.Length
    modifies target
    ensures target[at..at + |source|] == source
    ensures target[..at] == old(target[..at]) && target[at + |source|..] == old(target[at + |source|..])
  {
    for i := 0 to |source|
      invariant target[at..at + i] == source[..i]
      invariant target[..at] == old(target[..at]) && target[at + |source|..] == old(target[at + |source|..])
    {
      target[at + i] := source[i];
      assert target[at..at + i + 1] == target[at..at + i] + [source[i]];
    }
  }

  // create_prekey_list, behind the rotation of the prekeys. `sign` is the signature of the
  // user's key; a signed message is the signature followed by the message. An int64 holds every
  // date below 2^63.
  method Create(
    identity: seq<Byte>, prekeys: seq<seq<Byte>>, now: nat, sign: seq<Byte> -> seq<Byte>) returns (list: seq<Byte>)
    requires |identity| == KEY_SIZE && |prekeys| == PREKEY_AMOUNT && AllKeys(prekeys)
    requires forall m :: |sign(m)| == SIGNATURE_SIZE
    ensures var unsigned := Layout(identity, prekeys, now + 8_035_200); list == sign(unsigned) + unsigned
  {
    ConcatAt(prekeys, 0);
    var buffer := new Byte[DATE_OFFSET + DATE_SIZE](_ => 0);
    CopyInto(identity, buffer, 0);
    var i := 0;
    while i < PREKEY_AMOUNT
      invariant 0 <= i <= PREKEY_AMOUNT
      invariant buffer[..KEY_SIZE] == identity
      invariant buffer[KEY_SIZE..KEY_SIZE + i * KEY_SIZE] == Concat(prekeys[..i])
    {
      var at := KEY_SIZE + i * KEY_SIZE;
      ghost var before := buffer[..at];
      assert buffer[KEY_SIZE..at] == before[KEY_SIZE..] && buffer[..KEY_SIZE] == before[..KEY_SIZE];
      CopyInto(prekeys[i], buffer, at);
      assert buffer[..at + KEY_SIZE] == before + prekeys[i];
      assert prekeys[..i + 1][..i] == prekeys[..i];
      assert buffer[KEY_SIZE..at + KEY_SIZE] == before[KEY_SIZE..] + prekeys[i];
      i := i + 1;
    }
    assert prekeys[..PREKEY_AMOUNT] == prekeys;
    ghost var body := buffer[..DATE_OFFSET];
    assert body == buffer[..KEY_SIZE] + buffer[KEY_SIZE..DATE_OFFSET];
    CopyInto(Bytes(now + THREE_MONTHS, DATE_SIZE), buffer, DATE_OFFSET);
    assert buffer[..] == buffer[..DATE_OFFSET] + buffer[DATE_OFFSET..DATE_OFFSET + DATE_SIZE];
    assert buffer[..] == Layout(identity, prekeys, now + THREE_MONTHS);
    list := sign(buffer[..]) + buffer[..];
  }

  // The two's complement reading of eight bytes.
  function SignedValue(bytes: seq<Byte>): int {
    if Value(bytes) < 0x8000_0000_0000_0000 then Value(bytes) else Value(bytes) - 0x1_0000_0000_0000_0000
  }

  lemma {:induction false} EightBytes()
    ensures Power(DATE_SIZE) == 0x1_0000_0000_0000_0000
  {
    assert Power(4) == 0x1_0000_0000;
  }

  // The number in the range of an int64 that agrees with the bytes up to a multiple of 2^64.
  lemma {:induction false} SignedValueIsTwosComplement(bytes: seq<Byte>)
    requires |bytes| == DATE_SIZE
    ensures -0x8000_0000_0000_0000 <= SignedValue(bytes) < 0x8000_0000_0000_0000
    ensures SignedValue(bytes) in {Value(bytes) as int, Value(bytes) - 0x1_0000_0000_0000_0000}
  {
    ValueFits(bytes);
    EightBytes();
  }

  // verify_prekey_list. The C interface refuses lists that cannot hold a signature, a key and a
  // date, and a signature covers only what its owner laid out.
  function Verify(list: seq<Byte>, now: nat, sign: seq<Byte> -> seq<Byte>): Result<seq<Byte>> {
    if |list| < SIGNATURE_SIZE then Err(VerificationFailed)
    else
      var message := list[SIGNATURE_SIZE..];
      if list[..SIGNATURE_SIZE] != sign(message) then Err(VerificationFailed)
      else if |message| < DATE_OFFSET + DATE_SIZE then Err(ExpectationFailed)
      else if SignedValue(message[DATE_OFFSET..DATE_OFFSET + DATE_SIZE]) < now then Err(Outdated)
      else Ok(message[..KEY_SIZE])
  }

  // start_send_conversation and createSendConversation: the bytes the i-th prekey is read from.
  function Slice(list: seq<Byte>, i: nat): seq<Byte>
    requires |list| >= KEY_SIZE + SIGNATURE_SIZE + DATE_SIZE
    requires (i + 1) * KEY_SIZE <= |list| - KEY_SIZE - SIGNATURE_SIZE - DATE_SIZE
  {
    list[KEY_SIZE + SIGNATURE_SIZE..|list| - DATE_SIZE][i * KEY_SIZE..(i + 1) * KEY_SIZE]
  }

  // A created list is accepted exactly while its date is not past, gives back the identity, and
  // its i-th slice is the i-th prekey.
  lemma {:induction false} ListRoundTrip(
    identity: seq<Byte>, prekeys: seq<seq<Byte>>, date: nat, now: nat, sign: seq<Byte> -> seq<Byte>, i: nat)
    requires |identity| == KEY_SIZE && |prekeys| == PREKEY_AMOUNT && AllKeys(prekeys) && i < PREKEY_AMOUNT
    requires forall m :: |sign(m)| == SIGNATURE_SIZE
    requires date < 0x8000_0000_0000_0000
    ensures var unsigned := Layout(identity, prekeys, date);
            var list := sign(unsigned) + unsigned;
            && Verify(list, now, sign) == (if date < now then Err(Outdated) else Ok(identity))
            && |list| == 3304
            && list[..64] == sign(list[64..])
            && list[64..96] == identity
            && list[96 + 32 * i..128 + 32 * i] == prekeys[i] == Slice(list, i)
            && list[3296..] == Bytes(date, 8)
  {
    var unsigned := Layout(identity, prekeys, date);
    var list := sign(unsigned) + unsigned;
    ConcatAt(prekeys, i);
    assert list[..SIGNATURE_SIZE] == sign(unsigned) && list[SIGNATURE_SIZE..] == unsigned;
    assert unsigned[DATE_OFFSET..DATE_OFFSET + DATE_SIZE] == Bytes(date, DATE_SIZE);
    assert unsigned[..KEY_SIZE] == identity;
    EightBytes();
    ValueOfBytes(date, DATE_SIZE);
    assert list[KEY_SIZE + SIGNATURE_SIZE..|list| - DATE_SIZE] == Concat(prekeys);
    assert list[96 + 32 * i..128 + 32 * i] == Concat(prekeys)[i * KEY_SIZE..(i + 1) * KEY_SIZE];
    assert list[64..96] == unsigned[..KEY_SIZE];
    assert list[3296..] == unsigned[DATE_OFFSET..DATE_OFFSET + DATE_SIZE];
  }

  // Whatever list arrives: it is accepted exactly when it is long enough to hold a date, its
  // first 64 bytes are the signature of the rest, and the date in the last eight of the first
  // 3304 bytes has not passed. Then the identity is what the bytes behind the signature say.
  lemma {:induction false} AcceptedExactly(list: seq<Byte>, now: nat, sign: seq<Byte> -> seq<Byte>)
    ensures var r := Verify(list, now, sign);
            && (r.Ok? <==> |list| >= 3304 && list[..64] == sign(list[64..]) && SignedValue(list[3296..3304]) >= now)
            && (r.Ok? ==> r == Ok(list[64..96]))
            && (|list| < 64 || list[..64] != sign(list[64..]) ==> r == Err(VerificationFailed))
            && (|list| >= 3304 && list[..64] == sign(list[64..]) && SignedValue(list[3296..3304]) < now ==>
                  r == Err(Outdated))
  {
    if |list| >= 3304 {
      assert list[64..][3232..3240] == list[3296..3304];
      assert list[64..][..32] == list[64..96];
    }
  }

  // The owner of the key has signed nothing but lists of its own identity: whatever message the
  // first 64 bytes of a list are a signature of was laid out by the owner.
  ghost predicate SignedByOwner(list: seq<Byte>, sign: seq<Byte> -> seq<Byte>, identity: seq<Byte>) {
    |list| >= 64 && list[..64] == sign(list[64..]) ==>
      exists prekeys, date: nat ::
        |prekeys| == PREKEY_AMOUNT && AllKeys(prekeys) && date < 0x8000_0000_0000_0000
        && list[64..] == Layout(identity, prekeys, date)
  }

  // Whoever relays or alters a list: if it is accepted at all, it gives the owner's identity and
  // the prekeys of one of the owner's lists, at a time before that list's date.
  lemma {:induction false} AcceptedIsOwners(
    list: seq<Byte>, now: nat, sign: seq<Byte> -> seq<Byte>, identity: seq<Byte>)
    requires |identity| == KEY_SIZE && (forall m :: |sign(m)| == SIGNATURE_SIZE)
    requires SignedByOwner(list, sign, identity) && Verify(list, now, sign).Ok?
    ensures Verify(list, now, sign) == Ok(identity)
    ensures exists prekeys, date: nat ::
              && |prekeys| == PREKEY_AMOUNT && AllKeys(prekeys) && now <= date
              && list == sign(Layout(identity, prekeys, date)) + Layout(identity, prekeys, date)
  {
    AcceptedExactly(list, now, sign);
    var prekeys, date: nat :| |prekeys| == PREKEY_AMOUNT && AllKeys(prekeys) && date < 0x8000_0000_0000_0000
                              && list[64..] == Layout(identity, prekeys, date);
    ListRoundTrip(identity, prekeys, date, now, sign, 0);
    assert list == list[..64] + list[64..];
  }
}
