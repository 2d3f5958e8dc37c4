/** Big-endian byte fields and buffer filling, as used by SCSI command
    descriptor blocks and parameter data. */
module ScsiBytes {

  /** 256 to the power n: one more than the largest value an n-byte field holds. */
  function Pow256(n: nat): (p: nat)
    ensures p >= 1
  {
    if n == 0 then 1 else 256 * Pow256(n - 1)
  }

  /** The unsigned value of a big-endian byte field (most significant byte first). */
  function BigEndian(s: seq<bv8>): (v: nat)
    ensures v < Pow256(|s|)
  {
    if |s| == 0 then 0
    else
      var hi := BigEndian(s[..|s| - 1]);
      StepBound(hi, s[|s| - 1] as nat, Pow256(|s| - 1));
      hi * 256 + s[|s| - 1] as nat
  }

  lemma StepBound(hi: nat, lo: nat, p: nat)
    requires hi < p && lo < 256
    ensures hi * 256 + lo < 256 * p
  {
  }

  /** The n-byte big-endian encoding of v: what a device writes into such a field. */
  function ToBigEndian(v: nat, n: nat): (s: seq<bv8>)
    requires v < Pow256(n)
    ensures |s| == n
  {
    if n == 0 then []
    else
      DivBound(v, Pow256(n - 1));
      ToBigEndian(v / 256, n - 1) + [(v % 256) as bv8]
  }

  /** A field of zero bytes holds zero. */
  lemma {:induction false} ZeroField(s: seq<bv8>)
    requires forall i | 0 <= i < |s| :: s[i] == 0
    ensures BigEndian(s) == 0
  {
    if |s| > 0 {
      ZeroField(s[..|s| - 1]);
    }
  }

  lemma DivBound(v: nat, p: nat)
    requires v < 256 * p
    ensures v / 256 < p
  {
  }

  lemma ByteValue(x: nat)
    requires x < 256
    ensures (x as bv8) as nat == x
  {
    if x < 128 {
      if x < 64 { } else { }
    } else {
      if x < 192 { } else { }
    }
  }

  /** Decoding an encoded field gives back the value. */
  lemma {:induction false} DecodeEncode(v: nat, n: nat)
    requires v < Pow256(n)
    ensures BigEndian(ToBigEndian(v, n)) == v
  {
    if n > 0 {
      DivBound(v, Pow256(n - 1));
      var s := ToBigEndian(v, n);
      assert s[..n - 1] == ToBigEndian(v / 256, n - 1);
      ByteValue(v % 256);
      DecodeEncode(v / 256, n - 1);
      calc {
        BigEndian(s);
        BigEndian(s[..n - 1]) * 256 + s[n - 1] as nat;
        (v / 256) * 256 + v % 256;
        v;
      }
    }
  }

  /** Encoding the value of a field gives back the field. */
  lemma {:induction false} EncodeDecode(s: seq<bv8>)
    ensures ToBigEndian(BigEndian(s), |s|) == s
  {
    if |s| > 0 {
      var n := |s|;
      var hi := BigEndian(s[..n - 1]);
      var v := BigEndian(s);
      assert v / 256 == hi && v % 256 == s[n - 1] as nat;
      EncodeDecode(s[..n - 1]);
      assert s == s[..n - 1] + [s[n - 1]];
    }
  }

  /** n zero bytes (what memset(p, 0, n) leaves behind). */
  function Zeros(n: nat): (z: seq<bv8>)
    ensures |z| == n
    ensures forall i | 0 <= i < n :: z[i] == 0
  {
    seq(n, _ => 0)
  }

  /** The first alloc bytes of a buffer that is cleared and then receives
      data from a device that may transfer fewer bytes than allocated; bytes
      past the allocation length are never transferred. */
  function Transferred(data: seq<bv8>, alloc: nat): (b: seq<bv8>)
    ensures |b| == alloc
    ensures forall i | 0 <= i < alloc :: b[i] == if i < |data| then data[i] else 0
  {
    if |data| >= alloc then data[..alloc] else data + Zeros(alloc - |data|)
  }
}
