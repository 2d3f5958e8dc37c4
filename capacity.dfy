/** Capacity arithmetic of the prober: the READ CAPACITY (16) parameter data
    (section 5.16 of SCSI Block Commands, SBC-3) turned into whole mebibytes
    with the unsigned 64-bit arithmetic of the C code. */
module Capacity {
  import opened ScsiBytes

  const TWO_32: nat := 0x1_0000_0000
  const TWO_44: nat := 0x1000_0000_0000
  const TWO_64: nat := 0x1_0000_0000_0000_0000
  const MIB: nat := 1024 * 1024

  /** Bytes 0..7 of the parameter data hold the last logical block address,
      bytes 8..11 the logical block length in bytes. */
  const LBA_FIELD_LEN: nat := 8
  const BLOCK_LEN_FIELD_LEN: nat := 4

  /** An `unsigned long long` result: arithmetic modulo 2^64. */
  function WrapU64(x: nat): (w: nat)
    ensures w < TWO_64
    ensures x < TWO_64 ==> w == x
  {
    x % TWO_64
  }

  /** The size in whole mebibytes computed from the last LBA and the block
      length: `((lba + 1) * sector_size) / 1024 / 1024` where lba is 64-bit
      unsigned and sector_size is promoted to it, so both the increment and
      the product wrap modulo 2^64. */
  function CapacityMib(lba: nat, sectorSize: nat): (mib: nat)
    requires lba < TWO_64 && sectorSize < TWO_32
    ensures mib < TWO_44
    ensures (lba + 1) * sectorSize < TWO_64 ==> mib == (lba + 1) * sectorSize / MIB
  {
    var bytes := WrapU64(WrapU64(lba + 1) * sectorSize);
    DivDiv(bytes);
    NoWrap(lba, sectorSize);
    bytes / 1024 / 1024
  }

  lemma DivDiv(x: nat)
    requires x < TWO_64
    ensures x / 1024 / 1024 == x / MIB
    ensures x / MIB < TWO_44
  {
    var q1, r1 := x / 1024, x % 1024;
    var q2, r2 := q1 / 1024, q1 % 1024;
    assert x == q2 * MIB + (r2 * 1024 + r1);
    assert 0 <= r2 * 1024 + r1 < MIB;
    assert x / MIB == q2;
  }

  lemma NoWrap(lba: nat, sectorSize: nat)
    requires lba < TWO_64
    ensures (lba + 1) * sectorSize < TWO_64 ==> WrapU64(WrapU64(lba + 1) * sectorSize) == (lba + 1) * sectorSize
  {
    if (lba + 1) * sectorSize < TWO_64 && lba + 1 == TWO_64 {
      assert sectorSize == 0;
    }
  }

  /** The mebibyte estimate read from READ CAPACITY (16) parameter data. */
  function DecodeReadCapacity16(param: seq<bv8>): (mib: nat)
    requires |param| >= LBA_FIELD_LEN + BLOCK_LEN_FIELD_LEN
    ensures mib < TWO_44
  {
    PowersOfField();
    CapacityMib(BigEndian(param[0..8]), BigEndian(param[8..12]))
  }

  lemma PowersOfField()
    ensures Pow256(4) == TWO_32 && Pow256(8) == TWO_64
  {
    calc {
      Pow256(8);
      256 * Pow256(7);
      256 * (256 * Pow256(6));
      256 * (256 * (256 * Pow256(5)));
      256 * (256 * (256 * (256 * Pow256(4))));
    }
    assert Pow256(4) == 256 * (256 * (256 * (256 * Pow256(0))));
  }

  /** Parameter data that reports last LBA lba and block length sectorSize
      decodes to the capacity of lba + 1 blocks of that length, whatever the
      rest of the data holds. */
  lemma {:induction false} DecodeReportedCapacity(lba: nat, sectorSize: nat, rest: seq<bv8>)
    requires lba < TWO_64 && sectorSize < TWO_32
    ensures DecodeReadCapacity16(ToBigEndian(lba, 8) + ToBigEndian(sectorSize, 4) + rest)
              == CapacityMib(lba, sectorSize)
  {
    PowersOfField();
    var param := ToBigEndian(lba, 8) + ToBigEndian(sectorSize, 4) + rest;
    assert param[0..8] == ToBigEndian(lba, 8);
    assert param[8..12] == ToBigEndian(sectorSize, 4);
    DecodeEncode(lba, 8);
    DecodeEncode(sectorSize, 4);
  }

  /** The largest last LBA wraps the block count to zero: such a device reads
      as 0 MiB. */
  lemma LargestLbaWrapsToZero(sectorSize: nat)
    requires sectorSize < TWO_32
    ensures CapacityMib(TWO_64 - 1, sectorSize) == 0
  {
    assert WrapU64(TWO_64 - 1 + 1) == 0;
  }

  /** A 512-byte-block device reporting last LBA 630783 holds 308 MiB. */
  lemma SmallDiskEstimate()
    ensures CapacityMib(630783, 512) == 308
  {
  }
}
