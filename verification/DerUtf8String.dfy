/** The DER encoding of a UTF8String: dt_image_search/identity/device_identity.py. The text is its UTF-8 octets;
    which octet strings are UTF-8 is a parameter of the decoder. */
module DerUtf8String {
  import opened Options
  import opened Octets

  const TAG: Octet := 0x0C

  function Pow256(k: nat): nat {
    if k == 0 then 1 else 256 * Pow256(k - 1)
  }

  /** The octets of a number, most significant first, none for zero. */
  function BigEndian(n: nat): Bytes {
    if n == 0 then [] else BigEndian(n / 256) + [(n % 256) as Octet]
  }

  /** `int.from_bytes(…, "big")`. */
  function FromBig(octets: Bytes): nat {
    if octets == [] then 0 else 256 * FromBig(octets[..|octets| - 1]) + octets[|octets| - 1] as nat
  }

  /** `0x80 | k` as an octet; from 256 on `bytes` refuses it. */
  function LongForm(k: nat): Option<Octet> {
    if k < 128 then Some((128 + k) as Octet) else if k < 256 then Some(k as Octet) else None
  }

  function LengthOctets(length: nat): Option<Bytes> {
    if length < 128 then Some([length as Octet])
    else match LongForm(|BigEndian(length)|)
      case None => None
      case Some(first) => Some([first] + BigEndian(length))
  }

  /** None stands for the exception. */
  function Encode(data: Bytes): Option<Bytes> {
    match LengthOctets(|data|)
    case None => None
    case Some(octets) => Some([TAG] + octets + data)
  }

  function Decode(b: Bytes, utf8: Bytes -> bool): Option<Bytes> {
    if |b| < 2 || b[0] != TAG then None
    else
      var k := if b[1] >= 0x80 then b[1] as nat - 0x80 else 0;
      if |b| < 2 + k then None
      else
        var length := if b[1] >= 0x80 then FromBig(b[2..2 + k]) else b[1] as nat;
        if |b| < 2 + k + length || !utf8(b[2 + k..2 + k + length]) then None
        else Some(b[2 + k..2 + k + length])
  }

  method EncodeUtf8String(data: Bytes) returns (r: Option<Bytes>)
    ensures r == Encode(data)
  {
    var length := |data|;
    if length < 128 {
      assert [TAG, length as Octet] == [TAG] + [length as Octet];
      return Some([TAG, length as Octet] + data);
    }
    var lengthBytes: Bytes := [];
    var n: nat := length;
    while n > 0
      invariant BigEndian(length) == BigEndian(n) + lengthBytes
    {
      lengthBytes := [(n % 256) as Octet] + lengthBytes;
      n := n / 256;
    }
    assert BigEndian(0) + lengthBytes == lengthBytes;
    match LongForm(|lengthBytes|) {
      case None => return None;
      case Some(first) =>
        assert [TAG, first] + lengthBytes == [TAG] + ([first] + BigEndian(length));
        return Some([TAG, first] + lengthBytes + data);
    }
  }

  // ----- numbers in base 256 -----

  lemma {:induction false} FromBigOfBigEndian(n: nat)
    ensures FromBig(BigEndian(n)) == n
  {
    if n > 0 {
      FromBigOfBigEndian(n / 256);
      assert BigEndian(n)[..|BigEndian(n)| - 1] == BigEndian(n / 256);
    }
  }

  lemma {:induction false} FromBigBound(octets: Bytes)
    ensures FromBig(octets) < Pow256(|octets|)
  {
    if octets != [] {
      FromBigBound(octets[..|octets| - 1]);
    }
  }

  /** Without a leading zero the octets are the number's own. */
  lemma {:induction false} NoLeadingZero(octets: Bytes)
    ensures (octets == [] || octets[0] != 0) <==> octets == BigEndian(FromBig(octets))
    ensures octets != [] && octets[0] != 0 ==> FromBig(octets) > 0
  {
    if octets != [] {
      var front, last := octets[..|octets| - 1], octets[|octets| - 1];
      NoLeadingZero(front);
      assert octets == front + [last];
      assert FromBig(octets) / 256 == FromBig(front) && FromBig(octets) % 256 == last as nat;
      BigEndianStarts(FromBig(octets));
    }
  }

  lemma {:induction false} BigEndianStarts(n: nat)
    ensures n > 0 ==> BigEndian(n) != [] && BigEndian(n)[0] != 0
  {
    if n >= 256 {
      BigEndianStarts(n / 256);
    }
  }

  lemma {:induction false} OctetsNeeded(n: nat, k: nat)
    ensures |BigEndian(n)| <= k <==> n < Pow256(k)
  {
    if n > 0 && k > 0 {
      OctetsNeeded(n / 256, k - 1);
    }
    if k > 0 {
      PowPositive(k);
    }
  }

  lemma {:induction false} PowPositive(k: nat)
    ensures Pow256(k) > 0
  {
    if k > 0 {
      PowPositive(k - 1);
    }
  }

  lemma PowGrows(j: nat, k: nat)
    requires j <= k
    ensures Pow256(j) <= Pow256(k)
  {
    if j < k {
      PowGrows(j, k - 1);
      PowPositive(k - 1);
    }
  }

  lemma {:induction false} PrefixIsSmaller(n: nat, j: nat)
    requires j < |BigEndian(n)|
    ensures FromBig(BigEndian(n)[..j]) < n
  {
    var front := BigEndian(n / 256);
    assert BigEndian(n)[..j] == front[..j];
    if j < |front| {
      PrefixIsSmaller(n / 256, j);
    } else {
      assert front[..j] == front;
      FromBigOfBigEndian(n / 256);
    }
  }

  // ----- the encoding -----

  /** The length octets are the shortest (ITU-T X.690, sections 8.1.3 and 10.1): one octet below 128, and above
      that no octet string of the same value is shorter. */
  lemma LengthIsShortest(length: nat, octets: Bytes)
    requires length >= 128 && FromBig(octets) == length
    ensures |BigEndian(length)| <= |octets| && BigEndian(length)[0] != 0 && FromBig(BigEndian(length)) == length
  {
    FromBigBound(octets);
    OctetsNeeded(length, |octets|);
    BigEndianStarts(length);
    FromBigOfBigEndian(length);
  }

  /** Section 8.1.3.5 reserves the initial octet 0xFF. The encoder produces it exactly for 127 or 255 length
      octets, so never below 256^126 octets of text. */
  lemma ReservedOctetIff(data: Bytes)
    requires Encode(data).Some?
    ensures Encode(data).value[1] == 0xFF <==> |data| >= 128 && |BigEndian(|data|)| in {127, 255}
    ensures |data| < Pow256(126) ==> Encode(data).value[1] != 0xFF
  {
    OctetsNeeded(|data|, 126);
  }

  lemma EncodesIff(data: Bytes)
    ensures Encode(data).Some? <==> |data| < Pow256(255)
  {
    OctetsNeeded(|data|, 255);
    if |data| < 128 {
      PowGrows(1, 255);
    }
  }

  lemma DecodeLong(data: Bytes, tail: Bytes, k: nat, utf8: Bytes -> bool)
    requires |data| >= 128 && k == |BigEndian(|data|)| < 256
    ensures var e, j := Encode(data).value + tail, if k < 128 then k else k - 128;
            Encode(data).Some? && |e| >= 2 + k && e[0] == TAG && e[1] >= 0x80 && e[1] as nat - 0x80 == j
            && e[2..2 + j] == BigEndian(|data|)[..j] && e[2 + k..2 + k + |data|] == data
  {
    var octets := BigEndian(|data|);
    var first := LongForm(k).value;
    var e := Encode(data).value + tail;
    assert e == [TAG, first] + octets + data + tail;
    var j := if k < 128 then k else k - 128;
    assert e[2..2 + k] == octets;
    assert e[2..2 + j] == octets[..j];
  }

  lemma ShortRoundTrip(data: Bytes, tail: Bytes, utf8: Bytes -> bool)
    requires |data| < 128 && utf8(data)
    ensures Encode(data).Some? && Decode(Encode(data).value + tail, utf8) == Some(data)
  {
    var e := Encode(data).value + tail;
    assert e == [TAG, |data| as Octet] + data + tail;
    assert e[2..2 + |data|] == data;
  }

  /** Decoding undoes encoding, whatever follows it, exactly below 256^127 octets of text. */
  lemma RoundTripIff(data: Bytes, tail: Bytes, utf8: Bytes -> bool)
    requires utf8(data) && Encode(data).Some?
    ensures Decode(Encode(data).value + tail, utf8) == Some(data) <==> |data| < Pow256(127)
  {
    if |data| < 128 {
      PowGrows(1, 127);
      ShortRoundTrip(data, tail, utf8);
    } else {
      var k := |BigEndian(|data|)|;
      OctetsNeeded(|data|, 127);
      DecodeLong(data, tail, k, utf8);
      if k < 128 {
        assert BigEndian(|data|)[..k] == BigEndian(|data|);
        FromBigOfBigEndian(|data|);
      } else {
        PrefixIsSmaller(|data|, k - 128);
      }
    }
  }

  /** The length octets of what the decoder accepts are the shortest. */
  predicate MinimalLength(b: Bytes)
    requires |b| >= 2 && (b[1] >= 0x80 ==> |b| >= 2 + (b[1] as nat - 0x80))
  {
    b[1] < 0x80 || (b[1] > 0x80 && b[2] != 0 && FromBig(b[2..2 + (b[1] as nat - 0x80)]) >= 128)
  }

  /** The decoder accepts more than DER: what it reads encodes back to the octets it read exactly when their
      length was minimal. */
  lemma ReencodesIff(b: Bytes, utf8: Bytes -> bool)
    requires Decode(b, utf8).Some?
    ensures var e := Encode(Decode(b, utf8).value);
            (e.Some? && e.value <= b) <==> MinimalLength(b)
  {
    var v := Decode(b, utf8).value;
    if b[1] < 0x80 {
      assert Encode(v).value == [TAG, b[1]] + v;
      assert b == b[..2] + v + b[2 + |v|..];
    } else {
      var k := b[1] as nat - 0x80;
      var octets := b[2..2 + k];
      NoLeadingZero(octets);
      FromBigBound(octets);
      if |v| >= 128 {
        OctetsNeeded(|v|, k);
        ReencodesLong(b, v, k);
      } else {
        assert Encode(v).value[1] == |v| as Octet;
      }
    }
  }

  lemma ReencodesLong(b: Bytes, v: Bytes, k: nat)
    requires |v| >= 128 && k < 128 && |b| >= 2 + k + |v| && b[0] == TAG && b[1] as nat == 0x80 + k
    requires b[2 + k..2 + k + |v|] == v && |BigEndian(|v|)| <= k
    ensures Encode(v).Some? && (Encode(v).value <= b <==> b[2..2 + k] == BigEndian(|v|))
  {
    var own := BigEndian(|v|);
    var e := Encode(v).value;
    assert e == [TAG, (128 + |own|) as Octet] + own + v;
    if e <= b {
      assert e[1] == b[1];
      assert e[2..2 + k] == own;
      assert b[2..2 + k] == e[2..2 + k];
    }
    if b[2..2 + k] == own {
      assert b == b[..2] + b[2..2 + k] + b[2 + k..2 + k + |v|] + b[2 + k + |v|..];
      assert b[..2] == [TAG, b[1]];
    }
  }
}
