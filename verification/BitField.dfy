/** How the bytes of a BIT column become a number. */
module BitFields {
  type Byte = x: int | 0 <= x < 256

  /** The range of an `unsigned long long`. */
  const RANGE := 0x1_0000_0000_0000_0000

  /** `v << 8`, which drops what does not fit into 64 bits. */
  function ShiftedLeft(v: nat): nat {
    (v * 256) % RANGE
  }

  /** Bitwise or. */
  function Or(a: nat, b: nat): nat {
    if a == 0 && b == 0 then 0
    else 2 * Or(a / 2, b / 2) + if a % 2 == 1 || b % 2 == 1 then 1 else 0
  }

  function Power(base: nat, e: nat): nat {
    if e == 0 then 1 else base * Power(base, e - 1)
  }

  /** The big-endian value: the first byte weighs most. */
  function BigEndian(bytes: seq<Byte>): nat {
    if bytes == [] then 0 else bytes[0] * Power(256, |bytes| - 1) + BigEndian(bytes[1..])
  }

  /** The `n` big-endian bytes of a value. */
  function Encoded(v: nat, n: nat): (r: seq<Byte>)
    ensures |r| == n
  {
    if n == 0 then [] else Encoded(v / 256, n - 1) + [v % 256]
  }

  function FirstEight(bytes: seq<Byte>): seq<Byte> {
    if |bytes| <= 8 then bytes else bytes[..8]
  }

  /** The loop that decodes a BIT column. */
  method Decode(bytes: seq<Byte>) returns (value: nat)
    ensures value == BigEndian(FirstEight(bytes)) < Power(256, |FirstEight(bytes)|) <= RANGE
  {
    value := 0;
    var i := 0;
    while i < |bytes| && i < 8
      invariant 0 <= i <= |bytes| && i <= 8
      invariant value == BigEndian(bytes[..i]) < Power(256, i)
    {
      PowerFits(i);
      assert bytes[..i + 1][..i] == bytes[..i];
      Horner(bytes[..i + 1]);
      ShiftFits(value);
      OrIsSum(value, bytes[i], 8);
      value := Or(ShiftedLeft(value), bytes[i]);
      BigEndianBound(bytes[..i + 1]);
      i := i + 1;
    }
    PowerFits(i);
    assert bytes[..i] == FirstEight(bytes);
  }

  lemma ShiftFits(v: nat)
    requires v * 256 < RANGE
    ensures ShiftedLeft(v) == v * Power(2, 8)
  {
    assert Power(2, 8) == 256 by {
      assert Power(2, 4) == 16 && Power(2, 8) == 16 * Power(2, 4);
    }
  }

  lemma PowerFits(i: nat)
    requires i <= 8
    ensures Power(256, i) <= RANGE && (i < 8 ==> Power(256, i) * 256 <= RANGE)
  {
    assert Power(256, 2) == 65536 && Power(256, 4) == 65536 * Power(256, 2) && Power(256, 6) == 65536 * Power(256, 4);
    assert Power(256, 8) == 65536 * Power(256, 6) == RANGE;
    PowerGrows(i, 8);
    if i < 8 {
      PowerGrows(i + 1, 8);
    }
  }

  lemma {:induction false} PowerGrows(i: nat, j: nat)
    requires i <= j
    ensures 1 <= Power(256, i) <= Power(256, j)
    decreases j
  {
    if i < j {
      PowerGrows(i, j - 1);
    } else if i > 0 {
      PowerGrows(i - 1, j - 1);
    }
  }

  /** Bits that a shift has cleared can be set by or as well as by addition. */
  lemma {:induction false} OrIsSum(v: nat, b: nat, k: nat)
    requires b < Power(2, k)
    ensures Or(v * Power(2, k), b) == v * Power(2, k) + b
  {
    if k == 0 {
      OrZero(v);
    } else {
      var half := v * Power(2, k - 1);
      assert v * Power(2, k) == 2 * half;
      OrIsSum(v, b / 2, k - 1);
      assert (2 * half) / 2 == half && (2 * half) % 2 == 0;
    }
  }

  lemma {:induction false} OrZero(v: nat)
    ensures Or(v, 0) == v
  {
    if v > 0 {
      OrZero(v / 2);
    }
  }

  /** Appending a byte multiplies by 256 and adds it. */
  lemma {:induction false} Horner(bytes: seq<Byte>)
    requires bytes != []
    ensures BigEndian(bytes) == BigEndian(bytes[..|bytes| - 1]) * 256 + bytes[|bytes| - 1]
  {
    if |bytes| > 1 {
      Horner(bytes[1..]);
      var init := bytes[..|bytes| - 1];
      assert bytes[1..][..|bytes| - 2] == init[1..];
      assert Power(256, |bytes| - 1) == 256 * Power(256, |bytes| - 2);
      assert bytes[0] * Power(256, |bytes| - 1) == bytes[0] * Power(256, |bytes| - 2) * 256;
    } else {
      assert bytes[..0] == [] && Power(256, 0) == 1;
    }
  }

  lemma {:induction false} BigEndianBound(bytes: seq<Byte>)
    ensures BigEndian(bytes) < Power(256, |bytes|)
    decreases |bytes|
  {
    if bytes != [] {
      BigEndianBound(bytes[..|bytes| - 1]);
      Horner(bytes);
    }
  }

  /** Encoding and decoding are inverse to each other. */
  lemma {:induction false} EncodedDecodes(v: nat, n: nat)
    requires v < Power(256, n)
    ensures BigEndian(Encoded(v, n)) == v && (n <= 8 ==> FirstEight(Encoded(v, n)) == Encoded(v, n))
  {
    if n > 0 {
      EncodedDecodes(v / 256, n - 1);
      Horner(Encoded(v, n));
      assert Encoded(v, n)[..n - 1] == Encoded(v / 256, n - 1);
    }
  }

  lemma {:induction false} DecodedEncodes(bytes: seq<Byte>)
    ensures Encoded(BigEndian(bytes), |bytes|) == bytes
  {
    if bytes != [] {
      var n := |bytes|;
      Horner(bytes);
      DecodedEncodes(bytes[..n - 1]);
      assert bytes == bytes[..n - 1] + [bytes[n - 1]];
    }
  }
}
