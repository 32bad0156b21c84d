/** Positional numerals in any base, and conversion between bases that keeps leading zeros. */
module Numerals {
  type Digits = seq<nat>

  predicate InBase(base: nat, ds: Digits)
  {
    forall i :: 0 <= i < |ds| ==> ds[i] < base
  }

  function Value(base: nat, ds: Digits): nat
  {
    if ds == [] then 0 else base * Value(base, ds[..|ds| - 1]) + ds[|ds| - 1]
  }

  /** The shortest numeral of a number, most significant digit first; zero has no digits. */
  function Shortest(base: nat, n: nat): (ds: Digits)
    requires base >= 2
    ensures InBase(base, ds)
  {
    if n == 0 then [] else Shortest(base, n / base) + [n % base]
  }

  function LeadingZeros(ds: Digits): (z: nat)
    ensures z <= |ds|
  {
    if ds == [] || ds[0] != 0 then 0 else 1 + LeadingZeros(ds[1..])
  }

  function Repeat(z: nat): (ds: Digits)
    ensures |ds| == z && forall i :: 0 <= i < z ==> ds[i] == 0
  {
    seq(z, i => 0)
  }

  /** Same number, same count of leading zeros. */
  function Convert(from: nat, to: nat, ds: Digits): (r: Digits)
    requires to >= 2
    ensures InBase(to, r)
  {
    Repeat(LeadingZeros(ds)) + Shortest(to, Value(from, ds))
  }

  lemma {:induction false} ShortestReadsBack(base: nat, n: nat)
    requires base >= 2
    ensures Value(base, Shortest(base, n)) == n
  {
    if n > 0 {
      ShortestReadsBack(base, n / base);
      assert Shortest(base, n)[..|Shortest(base, n)| - 1] == Shortest(base, n / base);
    }
  }

  lemma {:induction false} ShortestStartsNonzero(base: nat, n: nat)
    requires base >= 2
    ensures n > 0 ==> Shortest(base, n) != [] && Shortest(base, n)[0] != 0
  {
    if n > 0 {
      ShortestStartsNonzero(base, n / base);
      if n / base == 0 {
        assert n % base == n;
      }
    }
  }

  lemma OneMoreTime(base: nat, a: nat, b: nat)
    requires a < b
    ensures base * a + base <= base * b
  {
    assert base * a + base == base * (a + 1);
  }

  lemma DivisionIsUnique(base: nat, q: nat, d: nat, q': nat, d': nat)
    requires base * q + d == base * q' + d' && d < base && d' < base
    ensures q == q' && d == d'
  {
    if q < q' {
      OneMoreTime(base, q, q');
    } else if q' < q {
      OneMoreTime(base, q', q);
    }
  }

  lemma DivisionByDigit(base: nat, q: nat, d: nat)
    requires d < base
    ensures (base * q + d) / base == q && (base * q + d) % base == d
  {
    var n := base * q + d;
    DivisionIsUnique(base, q, d, n / base, n % base);
  }

  lemma {:induction false} NonzeroHasValue(base: nat, ds: Digits)
    requires base >= 2 && ds != [] && ds[0] != 0
    ensures Value(base, ds) > 0
    decreases |ds|
  {
    if |ds| > 1 {
      NonzeroHasValue(base, ds[..|ds| - 1]);
      assert base * Value(base, ds[..|ds| - 1]) > 0;
    }
  }

  lemma {:induction false} ShortestIsUnique(base: nat, ds: Digits)
    requires base >= 2 && InBase(base, ds) && (ds == [] || ds[0] != 0)
    ensures Shortest(base, Value(base, ds)) == ds
    decreases |ds|
  {
    if ds != [] {
      var most, last := ds[..|ds| - 1], ds[|ds| - 1];
      NonzeroHasValue(base, ds);
      ShortestIsUnique(base, most);
      DivisionByDigit(base, Value(base, most), last);
      assert ds == most + [last];
    }
  }

  lemma {:induction false} ZerosAddNothing(base: nat, z: nat, ds: Digits)
    ensures Value(base, Repeat(z) + ds) == Value(base, ds)
    decreases |ds| + z
  {
    var all := Repeat(z) + ds;
    if ds != [] {
      ZerosAddNothing(base, z, ds[..|ds| - 1]);
      assert all[..|all| - 1] == Repeat(z) + ds[..|ds| - 1];
    } else if z > 0 {
      ZerosAddNothing(base, z - 1, ds);
      assert all[..|all| - 1] == Repeat(z - 1) + ds;
    }
  }

  lemma OneMoreZero(z: nat, ds: Digits)
    ensures [0] + (Repeat(z) + ds) == Repeat(z + 1) + ds
  {
  }

  lemma {:induction false} SplitZeros(ds: Digits)
    ensures ds == Repeat(LeadingZeros(ds)) + ds[LeadingZeros(ds)..]
    ensures LeadingZeros(ds) < |ds| ==> ds[LeadingZeros(ds)] != 0
    decreases |ds|
  {
    if ds != [] && ds[0] == 0 {
      var z := LeadingZeros(ds[1..]);
      SplitZeros(ds[1..]);
      OneMoreZero(z, ds[1..][z..]);
      assert ds == [0] + ds[1..];
      assert ds[1..][z..] == ds[z + 1..];
    }
  }

  lemma {:induction false} CountZeros(z: nat, ds: Digits)
    requires ds == [] || ds[0] != 0
    ensures LeadingZeros(Repeat(z) + ds) == z
    decreases z
  {
    if z > 0 {
      CountZeros(z - 1, ds);
      assert (Repeat(z) + ds)[1..] == Repeat(z - 1) + ds;
    } else {
      assert Repeat(z) + ds == ds;
    }
  }

  /** Converting to another base and back gives the same digits, leading zeros included. */
  lemma ConvertBack(from: nat, to: nat, ds: Digits)
    requires from >= 2 && to >= 2 && InBase(from, ds)
    ensures Convert(to, from, Convert(from, to, ds)) == ds
  {
    var z, n := LeadingZeros(ds), Value(from, ds);
    var there := Shortest(to, n);
    ShortestStartsNonzero(to, n);
    CountZeros(z, there);
    ZerosAddNothing(to, z, there);
    ShortestReadsBack(to, n);
    SplitZeros(ds);
    ZerosAddNothing(from, z, ds[z..]);
    ShortestIsUnique(from, ds[z..]);
  }
}

/** Base58 text of byte strings, and the account addresses built on it. */
module Base58 {
  import opened Outcomes
  import opened Bytes
  import opened Numerals

  /** `count` consecutive characters. */
  function Range(first: char, count: nat): (s: string)
    requires first as int + count <= 0xD800
    ensures |s| == count
  {
    seq(count, i requires 0 <= i < count => (first as int + i) as char)
  }

  /** The digits without 0, the capitals without I and O, and the small letters without l. */
  const ALPHABET: string :=
    Range('1', 9) + Range('A', 8) + Range('J', 5) + Range('P', 11) + Range('a', 11) + Range('m', 14)

  const ADDRESS_VERSION: Byte := 58

  type Digit58 = d: nat | d < 58

  /** The position of a character in the alphabet. */
  function Find(c: char): (r: Option<Digit58>)
  {
    if '1' <= c <= '9' then Some(c as int - '1' as int)
    else if 'A' <= c <= 'H' then Some(c as int - 'A' as int + 9)
    else if 'J' <= c <= 'N' then Some(c as int - 'J' as int + 17)
    else if 'P' <= c <= 'Z' then Some(c as int - 'P' as int + 22)
    else if 'a' <= c <= 'k' then Some(c as int - 'a' as int + 33)
    else if 'm' <= c <= 'z' then Some(c as int - 'm' as int + 44)
    else None
  }

  lemma FindIsPosition(c: char, i: Digit58)
    ensures |ALPHABET| == 58 && (Find(c) == Some(i) <==> ALPHABET[i] == c)
  {
    assert |ALPHABET| == 58;
  }

  // ------------------------------------------------------------------- the texts

  function Text(ds: Digits): (s: string)
    requires InBase(58, ds)
    ensures |s| == |ds|
  {
    FindIsPosition('1', 0);
    seq(|ds|, i requires 0 <= i < |ds| => ALPHABET[ds[i]])
  }

  predicate InAlphabet(s: string)
  {
    forall i :: 0 <= i < |s| ==> Find(s[i]).Some?
  }

  function Positions(s: string): (ds: Digits)
    requires InAlphabet(s)
    ensures |ds| == |s| && InBase(58, ds)
  {
    seq(|s|, i requires 0 <= i < |s| => Find(s[i]).value)
  }

  lemma TextIsRead(ds: Digits)
    requires InBase(58, ds)
    ensures InAlphabet(Text(ds)) && Positions(Text(ds)) == ds
  {
    forall i | 0 <= i < |ds| ensures Find(Text(ds)[i]) == Some(ds[i]) {
      FindIsPosition(Text(ds)[i], ds[i]);
    }
  }

  lemma ReadIsText(s: string)
    requires InAlphabet(s)
    ensures Text(Positions(s)) == s
  {
    forall i | 0 <= i < |s| ensures Text(Positions(s))[i] == s[i] {
      FindIsPosition(s[i], Find(s[i]).value);
    }
  }

  function Encoded(value: ByteString): string
  {
    Text(Convert(256, 58, value))
  }

  function Decoded(s: string): Result<ByteString, string>
  {
    if s == "" || !InAlphabet(s) then Err("invalid Base58 value") else Ok(Convert(58, 256, Positions(s)))
  }

  /** A byte string of some length has a text of some length. */
  lemma EncodedIsNonempty(value: ByteString)
    requires value != []
    ensures Encoded(value) != ""
  {
    if LeadingZeros(value) == 0 {
      NonzeroHasValue(256, value);
      ShortestStartsNonzero(58, Value(256, value));
    }
  }

  /** Decoding undoes encoding on every non-empty byte string. */
  lemma DecodeUndoesEncode(value: ByteString)
    requires value != []
    ensures Decoded(Encoded(value)) == Ok(value)
  {
    EncodedIsNonempty(value);
    TextIsRead(Convert(256, 58, value));
    ConvertBack(256, 58, value);
  }

  /** Encoding undoes decoding on every text that decodes, so no two texts name the same bytes. */
  lemma EncodeUndoesDecode(s: string)
    requires Decoded(s).Ok?
    ensures Encoded(Decoded(s).value) == s && Decoded(s).value != []
  {
    assert Convert(256, 58, []) == [];
    ConvertBack(58, 256, Positions(s));
    ReadIsText(s);
  }

  // ------------------------------------------------------------------- the loops

  function Reversed(s: string): (r: string)
    ensures |r| == |s|
  {
    if s == "" then "" else [s[|s| - 1]] + Reversed(s[..|s| - 1])
  }

  method CountZeros(ds: Digits) returns (z: nat)
    ensures z == LeadingZeros(ds)
  {
    z := 0;
    while z < |ds| && ds[z] == 0
      invariant z <= |ds| && LeadingZeros(ds) == z + LeadingZeros(ds[z..])
    {
      assert ds[z..][1..] == ds[z + 1..];
      z := z + 1;
    }
  }

  lemma TextOfOneMore(ds: Digits, d: Digit58, tail: string)
    requires InBase(58, ds)
    ensures Text(ds + [d]) + tail == Text(ds) + ([ALPHABET[d]] + tail)
  {
    assert Text(ds + [d]) == Text(ds) + [ALPHABET[d]];
  }

  lemma TextOfZeros(z: nat, ds: Digits)
    requires InBase(58, ds)
    ensures Text(Repeat(z) + ds) == seq(z, i => ALPHABET[0]) + Text(ds)
  {
  }

  method Encode(value: ByteString) returns (s: string)
    ensures s == Encoded(value)
  {
    FindIsPosition('1', 0);
    var zeroes := CountZeros(value);
    var number: nat := Value(256, value);
    var encoded := "";
    assert Text(Shortest(58, number)) + "" == Text(Shortest(58, number));
    while number > 0
      invariant Text(Shortest(58, Value(256, value))) == Text(Shortest(58, number)) + Reversed(encoded)
    {
      var remainder: Digit58 := number % 58;
      TextOfOneMore(Shortest(58, number / 58), remainder, Reversed(encoded));
      assert (encoded + [ALPHABET[remainder]])[..|encoded|] == encoded;
      encoded := encoded + [ALPHABET[remainder]];
      number := number / 58;
    }
    s := seq(zeroes, i => ALPHABET[0]) + Reversed(encoded);
    TextOfZeros(LeadingZeros(value), Shortest(58, Value(256, value)));
  }

  function BitLength(n: nat): nat
  {
    if n == 0 then 0 else 1 + BitLength(n / 2)
  }

  lemma TwoBits(n: nat)
    ensures n >= 4 ==> BitLength(n) == 2 + BitLength(n / 4)
    ensures 0 < n < 4 ==> 1 <= BitLength(n) <= 2
  {
    assert n / 2 / 2 == n / 4;
  }

  lemma FourBits(n: nat)
    ensures n >= 16 ==> BitLength(n) == 4 + BitLength(n / 16)
    ensures 0 < n < 16 ==> 1 <= BitLength(n) <= 4
  {
    TwoBits(n);
    TwoBits(n / 4);
    assert n / 4 / 4 == n / 16;
  }

  lemma EightBits(n: nat)
    ensures n >= 256 ==> BitLength(n) == 8 + BitLength(n / 256)
    ensures 0 < n < 256 ==> 1 <= BitLength(n) <= 8
  {
    FourBits(n);
    FourBits(n / 16);
    assert n / 16 / 16 == n / 256;
  }

  /** The bytes that the bit length asks for are the shortest numeral. */
  lemma {:induction false} BytesOfBitLength(n: nat)
    ensures BigEndian(n, (BitLength(n) + 7) / 8) == Shortest(256, n)
  {
    EightBits(n);
    if n >= 256 {
      BytesOfBitLength(n / 256);
      assert (BitLength(n) + 7) / 8 == (BitLength(n / 256) + 7) / 8 + 1;
    } else if n > 0 {
      assert (BitLength(n) + 7) / 8 == 1;
      assert BigEndian(n, 1) == BigEndian(0, 0) + [n];
      assert Shortest(256, n) == Shortest(256, 0) + [n];
    }
  }

  method Decode(value: string) returns (r: Result<ByteString, string>)
    ensures r == Decoded(value)
  {
    if value == "" {
      return Err("invalid Base58 value");
    }
    var number: nat := 0;
    var i := 0;
    while i < |value|
      invariant i <= |value| && InAlphabet(value[..i])
      invariant number == Value(58, Positions(value[..i]))
    {
      var index := Find(value[i]);
      if index.None? {
        return Err("invalid Base58 value");
      }
      assert value[..i + 1] == value[..i] + [value[i]];
      assert Positions(value[..i + 1])[..i] == Positions(value[..i]);
      number := number * 58 + index.value;
      i := i + 1;
    }
    assert value[..i] == value;
    var decoded := BigEndian(number, (BitLength(number) + 7) / 8);
    BytesOfBitLength(number);
    var zeroes := CountZeros(Positions(value));
    return Ok(seq(zeroes, i => 0) + decoded);
  }

  // ------------------------------------------------------------------- addresses

  type Hash = ByteString -> ByteString

  /** The lengths of the two digests. */
  ghost predicate AreDigests(sha256: Hash, ripemd160: Hash)
  {
    forall x: ByteString :: |sha256(x)| == 32 && |ripemd160(x)| == 20
  }

  function Checksum(sha256: Hash, versioned: ByteString): ByteString
    requires |sha256(sha256(versioned))| >= 4
  {
    sha256(sha256(versioned))[..4]
  }

  ghost function Address(sha256: Hash, ripemd160: Hash, publicKey: ByteString): Result<string, string>
    requires AreDigests(sha256, ripemd160)
  {
    if |publicKey| != 32 then Err("Qortal public key must be 32 bytes")
    else
      var versioned := [ADDRESS_VERSION] + ripemd160(sha256(publicKey));
      Ok(Encoded(versioned + Checksum(sha256, versioned)))
  }

  ghost predicate IsAddress(sha256: Hash, ripemd160: Hash, s: string)
    requires AreDigests(sha256, ripemd160)
  {
    Decoded(s).Ok? &&
    var decoded := Decoded(s).value;
    |decoded| == 25 && decoded[0] == ADDRESS_VERSION && decoded[21..] == Checksum(sha256, decoded[..21])
  }

  /** The address of an account digest. */
  ghost function AddressOf(sha256: Hash, ripemd160: Hash, digest: ByteString): string
    requires AreDigests(sha256, ripemd160)
  {
    var versioned := [ADDRESS_VERSION] + digest;
    Encoded(versioned + Checksum(sha256, versioned))
  }

  /** The accepted texts are exactly the addresses of twenty-byte account digests. */
  lemma AddressesExactly(sha256: Hash, ripemd160: Hash, s: string)
    requires AreDigests(sha256, ripemd160)
    ensures IsAddress(sha256, ripemd160, s) <==>
      exists digest: ByteString :: |digest| == 20 && s == AddressOf(sha256, ripemd160, digest)
  {
    if IsAddress(sha256, ripemd160, s) {
      var decoded := Decoded(s).value;
      EncodeUndoesDecode(s);
      var digest := decoded[1..21];
      assert [ADDRESS_VERSION] + digest == decoded[..21];
      assert decoded == decoded[..21] + decoded[21..];
      assert s == AddressOf(sha256, ripemd160, digest);
    }
    forall digest: ByteString | |digest| == 20 && s == AddressOf(sha256, ripemd160, digest)
      ensures IsAddress(sha256, ripemd160, s)
    {
      DigestHasAddress(sha256, ripemd160, digest);
    }
  }

  lemma DigestHasAddress(sha256: Hash, ripemd160: Hash, digest: ByteString)
    requires AreDigests(sha256, ripemd160) && |digest| == 20
    ensures IsAddress(sha256, ripemd160, AddressOf(sha256, ripemd160, digest))
  {
    var versioned := [ADDRESS_VERSION] + digest;
    var whole := versioned + Checksum(sha256, versioned);
    DecodeUndoesEncode(whole);
    assert whole[..21] == versioned && whole[21..] == Checksum(sha256, versioned);
  }

  /** The address of every public key of the right length is accepted. */
  lemma KeyHasAddress(sha256: Hash, ripemd160: Hash, publicKey: ByteString)
    requires AreDigests(sha256, ripemd160) && |publicKey| == 32
    ensures Address(sha256, ripemd160, publicKey).Ok?
    ensures IsAddress(sha256, ripemd160, Address(sha256, ripemd160, publicKey).value)
  {
    DigestHasAddress(sha256, ripemd160, ripemd160(sha256(publicKey)));
  }
}
