/** The capacity prober: `opportunistic_read_capacity` and the two command
    builders it calls. The device is an oracle that answers the n-th command
    (counted from 0) with the return value of `scsi_execute_req`, the sense
    header it filled in and the parameter data it transferred. Sleeping is
    counted, not timed. */
module Prober {
  import opened ScsiBytes
  import opened Capacity

  const SCSI_RC16_LEN: nat := 32
  const SCSI_BUF_SIZE: nat := 512
  const SCSI_CAP_MAX_RETRIES: nat := 3
  /** READ CAPACITY (10) returns 8 bytes of parameter data. */
  const RC10_LEN: nat := 8

  const SERVICE_ACTION_IN_16: bv8 := 0x9E
  const SAI_READ_CAPACITY_16: bv8 := 0x10
  const READ_CAPACITY: bv8 := 0x25

  /** Sense keys of section 4.5.6 of SPC-4. */
  const ILLEGAL_REQUEST: bv8 := 0x05
  const UNIT_ATTENTION: bv8 := 0x06

  const EIO: int := 5
  const EINVAL: int := 22

  /** A sense header as `scsi_execute_req` leaves it; `valid` is what
      `scsi_sense_valid` says of it. */
  datatype SenseHdr = SenseHdr(valid: bool, senseKey: bv8, asc: bv8, ascq: bv8)

  /** What one command does: the return value (0 success, positive a SCSI
      error that may be recoverable, negative a failure to issue), the sense
      header and the bytes the device transferred into the buffer. */
  datatype CmdOutcome = CmdOutcome(ret: int, sense: SenseHdr, data: seq<bv8>)

  /** A device answering the command with the given number and CDB. */
  type CommandOracle = (nat, seq<bv8>) -> CmdOutcome

  /** The result of a probe, the CDBs it sent in order and how many 500 ms
      sleeps it took. */
  datatype ProbeRun = ProbeRun(result: int, issued: seq<seq<bv8>>, sleeps: nat)

  /** INVALID COMMAND OPERATION CODE (0x20/0x00) or INVALID FIELD IN CDB
      (0x24/0x00) under ILLEGAL REQUEST: the drive will never answer. */
  predicate IsHardReject(s: SenseHdr)
  {
    s.senseKey == ILLEGAL_REQUEST && (s.asc == 0x20 || s.asc == 0x24) && s.ascq == 0x00
  }

  /** POWER ON, RESET, OR BUS DEVICE RESET OCCURRED (0x29/0x00) under UNIT
      ATTENTION: the drive is still coming up. */
  predicate IsResetAttention(s: SenseHdr)
  {
    s.senseKey == UNIT_ATTENTION && s.asc == 0x29 && s.ascq == 0x00
  }

  /** The READ CAPACITY (16) CDB: SERVICE ACTION IN (16) with service action
      READ CAPACITY (16) and an allocation length of SCSI_RC16_LEN bytes in
      bytes 10..13 (section 5.16 of SBC-3); every other field zero. */
  function ReadCapacity16Cdb(): (cdb: seq<bv8>)
    ensures |cdb| == 16
    ensures cdb[0] == SERVICE_ACTION_IN_16 && cdb[1] == SAI_READ_CAPACITY_16
    ensures BigEndian(cdb[10..14]) == SCSI_RC16_LEN
    ensures forall i | 2 <= i < 16 && i != 13 :: cdb[i] == 0
  {
    var cdb := [SERVICE_ACTION_IN_16, SAI_READ_CAPACITY_16] + Zeros(11) + [SCSI_RC16_LEN as bv8, 0, 0];
    assert cdb[10] == 0 && cdb[11] == 0 && cdb[12] == 0 && cdb[13] == 32;
    ZeroField(cdb[10..13]);
    assert cdb[10..14][..3] == cdb[10..13];
    cdb
  }

  /** The READ CAPACITY (10) CDB: the operation code and nine zero bytes. */
  function ReadCapacity10Cdb(): (cdb: seq<bv8>)
    ensures |cdb| == 10 && cdb[0] == READ_CAPACITY
    ensures forall i | 1 <= i < 10 :: cdb[i] == 0
  {
    [READ_CAPACITY] + Zeros(9)
  }

  function CdbFor(useCap16: bool): seq<bv8>
  {
    if useCap16 then ReadCapacity16Cdb() else ReadCapacity10Cdb()
  }

  function AllocLen(useCap16: bool): nat
  {
    if useCap16 then SCSI_RC16_LEN else RC10_LEN
  }

  /** The first SCSI_RC16_LEN bytes of the buffer after a command: the
      command clears its allocation length and the device's data lands
      there; the bytes past it keep what they held. */
  function AfterCommand(useCap16: bool, o: CmdOutcome, buf: seq<bv8>): (buf': seq<bv8>)
    requires |buf| == SCSI_RC16_LEN
    ensures |buf'| == SCSI_RC16_LEN
    ensures useCap16 ==> buf' == Transferred(o.data, SCSI_RC16_LEN)
  {
    Transferred(o.data, AllocLen(useCap16)) + buf[AllocLen(useCap16)..]
  }

  /** How one pass of the loop body ends. */
  datatype Step = Completed | Refused | Retry(slept: bool, useCap16: bool)

  /** The loop body's decision on the outcome of its command. The first test
      is the code's inverted fallback check: it fires only when READ
      CAPACITY (10) is already in use, so READ CAPACITY (16) is never left. */
  function StepOf(useCap16: bool, o: CmdOutcome): Step
  {
    if o.ret == 0 then Completed
    else if o.ret > 0 then
      if !useCap16 then Retry(false, false)
      else if !o.sense.valid then Retry(false, useCap16)
      else if IsHardReject(o.sense) then Refused
      else if IsResetAttention(o.sense) then Retry(true, useCap16)
      else Retry(false, useCap16)
    else Retry(false, useCap16)
  }

  /** The two sense classes the loop tests for never overlap. */
  lemma SenseClassesDisjoint(s: SenseHdr)
    ensures !(IsHardReject(s) && IsResetAttention(s))
    ensures IsHardReject(s) ==> s.senseKey == ILLEGAL_REQUEST && s.ascq == 0
    ensures IsResetAttention(s) ==> s.senseKey == UNIT_ATTENTION && s.ascq == 0
  {
  }

  /** The loop body with its two sense tests swapped decides the same: the
      order of the ILLEGAL REQUEST and UNIT ATTENTION tests does not matter. */
  lemma SenseTestOrderIrrelevant(useCap16: bool, o: CmdOutcome)
    ensures StepOf(useCap16, o)
            == if o.ret == 0 then Completed
               else if o.ret > 0 then
                 if !useCap16 then Retry(false, false)
                 else if !o.sense.valid then Retry(false, useCap16)
                 else if IsResetAttention(o.sense) then Retry(true, useCap16)
                 else if IsHardReject(o.sense) then Refused
                 else Retry(false, useCap16)
               else Retry(false, useCap16)
  {
    SenseClassesDisjoint(o.sense);
  }

  /** What one pass of the loop decides: it completes exactly on success,
      gives up exactly on a valid hard-rejection sense while READ CAPACITY
      (16) is in use, sleeps exactly on a valid reset attention while READ
      CAPACITY (16) is in use, and never changes the command variant. */
  lemma StepOfMeaning(useCap16: bool, o: CmdOutcome)
    ensures var step := StepOf(useCap16, o);
            && (step == Completed <==> o.ret == 0)
            && (step == Refused <==> o.ret > 0 && useCap16 && o.sense.valid && IsHardReject(o.sense))
            && (step.Retry? ==> step.useCap16 == useCap16)
            && (step.Retry? && step.slept <==> o.ret > 0 && useCap16 && o.sense.valid && IsResetAttention(o.sense))
  {
  }

  /** The probe from the top of a loop pass with readRetry passes left,
      attempt commands already sent, the given variant in use and the given
      first SCSI_RC16_LEN bytes in the buffer. */
  function ProbeFrom(t: CommandOracle, readRetry: nat, attempt: nat, useCap16: bool, buf: seq<bv8>): (r: ProbeRun)
    requires 1 <= readRetry && |buf| == SCSI_RC16_LEN
    ensures 1 <= |r.issued| <= readRetry
    ensures r.sleeps <= |r.issued|
    ensures r.sleeps == |r.issued| ==> r.result == -EIO
    ensures r.result == -EINVAL || r.result == -EIO || 0 <= r.result < TWO_44
    decreases readRetry
  {
    var cdb := CdbFor(useCap16);
    var o := t(attempt, cdb);
    var buf' := AfterCommand(useCap16, o, buf);
    match StepOf(useCap16, o)
    case Completed => ProbeRun(DecodeReadCapacity16(buf'), [cdb], 0)
    case Refused => ProbeRun(-EINVAL, [cdb], 0)
    case Retry(slept, nextCap16) =>
      var s := if slept then 1 else 0;
      if readRetry == 1 then ProbeRun(-EIO, [cdb], s)
      else
        var rest := ProbeFrom(t, readRetry - 1, attempt + 1, nextCap16, buf');
        ProbeRun(rest.result, [cdb] + rest.issued, s + rest.sleeps)
  }

  /** The whole probe: SCSI_CAP_MAX_RETRIES passes starting with READ
      CAPACITY (16). */
  function Probe(t: CommandOracle): (r: ProbeRun)
    ensures 1 <= |r.issued| <= SCSI_CAP_MAX_RETRIES
    ensures r.sleeps == |r.issued| ==> r.result == -EIO
    ensures r.result == -EINVAL || r.result == -EIO || 0 <= r.result < TWO_44
  {
    ProbeFrom(t, SCSI_CAP_MAX_RETRIES, 0, true, Zeros(SCSI_RC16_LEN))
  }

  // ---------------------------------------------------------------------
  // The prober described attempt by attempt

  /** The answer to the i-th command when every command is READ CAPACITY (16). */
  function Attempt(t: CommandOracle, i: nat): CmdOutcome
  {
    t(i, ReadCapacity16Cdb())
  }

  predicate Succeeded(o: CmdOutcome)
  {
    o.ret == 0
  }

  predicate HardRejected(o: CmdOutcome)
  {
    o.ret > 0 && o.sense.valid && IsHardReject(o.sense)
  }

  predicate ResetAttention(o: CmdOutcome)
  {
    o.ret > 0 && o.sense.valid && IsResetAttention(o.sense)
  }

  /** An outcome after which the prober sends no further command. */
  predicate Decisive(o: CmdOutcome)
  {
    Succeeded(o) || HardRejected(o)
  }

  /** What the prober reports when o is the answer to its last command. */
  function Verdict(o: CmdOutcome): int
  {
    if Succeeded(o) then DecodeReadCapacity16(Transferred(o.data, SCSI_RC16_LEN))
    else if HardRejected(o) then -EINVAL
    else -EIO
  }

  /** The number of reset attentions among the answers to commands k .. k+n-1. */
  function ResetsIn(t: CommandOracle, k: nat, n: nat): nat
    decreases n
  {
    if n == 0 then 0
    else (if ResetAttention(Attempt(t, k)) then 1 else 0) + ResetsIn(t, k + 1, n - 1)
  }

  /** From any pass that uses READ CAPACITY (16): every command is READ
      CAPACITY (16), the probe stops at the first success or hard rejection
      and only there or when the budget is spent, it reports what the last
      answer means, and it sleeps once per reset attention. */
  lemma ProbeFromCharacterised(t: CommandOracle, readRetry: nat, k: nat, buf: seq<bv8>)
    requires 1 <= readRetry && |buf| == SCSI_RC16_LEN
    ensures var r := ProbeFrom(t, readRetry, k, true, buf);
            var n := |r.issued|;
            && 1 <= n <= readRetry
            && (forall i | 0 <= i < n :: r.issued[i] == ReadCapacity16Cdb())
            && (forall i | k <= i < k + n - 1 :: !Decisive(Attempt(t, i)))
            && (Decisive(Attempt(t, k + n - 1)) || n == readRetry)
            && r.result == Verdict(Attempt(t, k + n - 1))
            && r.sleeps == ResetsIn(t, k, n)
  {
    ProbeFromStops(t, readRetry, k, buf);
    ProbeFromReports(t, readRetry, k, buf);
    ProbeFromSleeps(t, readRetry, k, buf);
  }

  /** Which commands a probe from a READ CAPACITY (16) pass sends. */
  lemma {:induction false} ProbeFromStops(t: CommandOracle, readRetry: nat, k: nat, buf: seq<bv8>)
    requires 1 <= readRetry && |buf| == SCSI_RC16_LEN
    ensures var r := ProbeFrom(t, readRetry, k, true, buf);
            var n := |r.issued|;
            && (forall i | 0 <= i < n :: r.issued[i] == ReadCapacity16Cdb())
            && (forall i | k <= i < k + n - 1 :: !Decisive(Attempt(t, i)))
            && (Decisive(Attempt(t, k + n - 1)) || n == readRetry)
  {
    var o := Attempt(t, k);
    FirstPass(t, readRetry, k, buf);
    if !Decisive(o) && readRetry > 1 {
      ProbeFromStops(t, readRetry - 1, k + 1, AfterCommand(true, o, buf));
    }
  }

  /** What a probe from a READ CAPACITY (16) pass reports: what the answer
      to its last command means. */
  lemma {:induction false} ProbeFromReports(t: CommandOracle, readRetry: nat, k: nat, buf: seq<bv8>)
    requires 1 <= readRetry && |buf| == SCSI_RC16_LEN
    ensures var r := ProbeFrom(t, readRetry, k, true, buf);
            r.result == Verdict(Attempt(t, k + |r.issued| - 1))
  {
    var o := Attempt(t, k);
    var r := ProbeFrom(t, readRetry, k, true, buf);
    FirstPass(t, readRetry, k, buf);
    if !Decisive(o) && readRetry > 1 {
      var rest := ProbeFrom(t, readRetry - 1, k + 1, true, AfterCommand(true, o, buf));
      assert r.result == rest.result && |r.issued| == 1 + |rest.issued|;
      ProbeFromReports(t, readRetry - 1, k + 1, AfterCommand(true, o, buf));
    } else {
      assert r.result == Verdict(o) && |r.issued| == 1;
    }
  }

  /** How often a probe from a READ CAPACITY (16) pass sleeps: once per reset
      attention among the answers it got. */
  lemma {:induction false} ProbeFromSleeps(t: CommandOracle, readRetry: nat, k: nat, buf: seq<bv8>)
    requires 1 <= readRetry && |buf| == SCSI_RC16_LEN
    ensures var r := ProbeFrom(t, readRetry, k, true, buf);
            r.sleeps == ResetsIn(t, k, |r.issued|)
  {
    var o := Attempt(t, k);
    var slept := if ResetAttention(o) then 1 else 0;
    var r := ProbeFrom(t, readRetry, k, true, buf);
    FirstPass(t, readRetry, k, buf);
    if !Decisive(o) && readRetry > 1 {
      var rest := ProbeFrom(t, readRetry - 1, k + 1, true, AfterCommand(true, o, buf));
      assert r.sleeps == slept + rest.sleeps && |r.issued| == 1 + |rest.issued|;
      ProbeFromSleeps(t, readRetry - 1, k + 1, AfterCommand(true, o, buf));
      assert ResetsIn(t, k, 1 + |rest.issued|) == slept + ResetsIn(t, k + 1, |rest.issued|);
    } else {
      assert r.sleeps == slept && |r.issued| == 1;
      assert ResetsIn(t, k, 1) == slept + ResetsIn(t, k + 1, 0);
    }
  }

  /** The first pass of a probe that uses READ CAPACITY (16), in terms of the
      answer to its command: it ends the probe on a decisive answer or when
      it is the last pass, and otherwise hands over to the next pass. */
  lemma FirstPass(t: CommandOracle, readRetry: nat, k: nat, buf: seq<bv8>)
    requires 1 <= readRetry && |buf| == SCSI_RC16_LEN
    ensures var o := Attempt(t, k);
            var r := ProbeFrom(t, readRetry, k, true, buf);
            var slept := if ResetAttention(o) then 1 else 0;
            && (Decisive(o) || readRetry == 1 ==> r == ProbeRun(Verdict(o), [ReadCapacity16Cdb()], slept))
            && (!Decisive(o) && readRetry > 1 ==>
                  var rest := ProbeFrom(t, readRetry - 1, k + 1, true, AfterCommand(true, o, buf));
                  r == ProbeRun(rest.result, [ReadCapacity16Cdb()] + rest.issued, slept + rest.sleeps))
  {
    var o := Attempt(t, k);
    assert CdbFor(true) == ReadCapacity16Cdb();
    match StepOf(true, o)
    case Completed =>
      assert AfterCommand(true, o, buf) == Transferred(o.data, SCSI_RC16_LEN);
    case Refused =>
    case Retry(_, _) =>
  }

  /** The same for the whole probe: at most SCSI_CAP_MAX_RETRIES commands, all
      READ CAPACITY (16); a capacity exactly when the deciding command
      succeeded, -EINVAL exactly when it was hard-rejected, -EIO exactly when
      the budget ran out; one sleep per reset attention. */
  lemma ProbeCharacterised(t: CommandOracle)
    ensures var r := Probe(t);
            var n := |r.issued|;
            var last := Attempt(t, n - 1);
            && 1 <= n <= SCSI_CAP_MAX_RETRIES
            && (forall i | 0 <= i < n :: r.issued[i] == ReadCapacity16Cdb())
            && (forall i | 0 <= i < n - 1 :: !Decisive(Attempt(t, i)))
            && (Decisive(last) || n == SCSI_CAP_MAX_RETRIES)
            && (r.result >= 0 <==> Succeeded(last))
            && (Succeeded(last) ==> r.result == DecodeReadCapacity16(Transferred(last.data, SCSI_RC16_LEN)))
            && (r.result == -EINVAL <==> HardRejected(last))
            && (r.result == -EIO <==> !Decisive(last))
            && r.sleeps == ResetsIn(t, 0, n)
  {
    ProbeFromCharacterised(t, SCSI_CAP_MAX_RETRIES, 0, Zeros(SCSI_RC16_LEN));
    var r := Probe(t);
    VerdictMeaning(Attempt(t, |r.issued| - 1));
  }

  /** What the verdict on an answer says about it. */
  lemma VerdictMeaning(o: CmdOutcome)
    ensures Verdict(o) >= 0 <==> Succeeded(o)
    ensures Verdict(o) == -EINVAL <==> HardRejected(o)
    ensures Verdict(o) == -EIO <==> !Decisive(o)
  {
  }

  /** The buffer's earlier contents (kmalloc does not clear it) never reach
      the result while READ CAPACITY (16) is in use. */
  lemma StaleBufferIgnored(t: CommandOracle, readRetry: nat, k: nat, b1: seq<bv8>, b2: seq<bv8>)
    requires 1 <= readRetry && |b1| == SCSI_RC16_LEN && |b2| == SCSI_RC16_LEN
    ensures ProbeFrom(t, readRetry, k, true, b1) == ProbeFrom(t, readRetry, k, true, b2)
  {
    var o := t(k, CdbFor(true));
    assert AfterCommand(true, o, b1) == AfterCommand(true, o, b2);
  }

  /** Busy, busy, success: the decoded size after exactly two sleeps. */
  lemma TwoResetsThenSuccess(t: CommandOracle)
    requires ResetAttention(Attempt(t, 0)) && ResetAttention(Attempt(t, 1)) && Succeeded(Attempt(t, 2))
    ensures Probe(t) == ProbeRun(DecodeReadCapacity16(Transferred(Attempt(t, 2).data, SCSI_RC16_LEN)),
                                 [ReadCapacity16Cdb(), ReadCapacity16Cdb(), ReadCapacity16Cdb()], 2)
  {
    ProbeCharacterised(t);
    var r := Probe(t);
    assert |r.issued| == 3;
    assert r.issued == [ReadCapacity16Cdb(), ReadCapacity16Cdb(), ReadCapacity16Cdb()];
    assert ResetsIn(t, 0, 3) == 2;
  }

  /** A hard rejection of the first command: -EINVAL with no second command. */
  lemma RefusedAtOnce(t: CommandOracle)
    requires HardRejected(Attempt(t, 0))
    ensures Probe(t) == ProbeRun(-EINVAL, [ReadCapacity16Cdb()], 0)
  {
    ProbeCharacterised(t);
    var r := Probe(t);
    assert |r.issued| == 1;
    assert r.issued == [ReadCapacity16Cdb()];
  }

  // ---------------------------------------------------------------------
  // The code

  /** `scsi_read_cap16`: sends READ CAPACITY (16) after clearing the first
      SCSI_RC16_LEN bytes of the buffer. */
  method ScsiReadCap16(t: CommandOracle, attempt: nat, buffer: array<bv8>) returns (out: int, sshdr: SenseHdr, cdb: seq<bv8>)
    requires buffer.Length == SCSI_BUF_SIZE
    modifies buffer
    ensures cdb == ReadCapacity16Cdb()
    ensures out == t(attempt, cdb).ret && sshdr == t(attempt, cdb).sense
    ensures buffer[..SCSI_RC16_LEN] == AfterCommand(true, t(attempt, cdb), old(buffer[..SCSI_RC16_LEN]))
    ensures buffer[SCSI_RC16_LEN..] == old(buffer[SCSI_RC16_LEN..])
  {
    var cmd := new bv8[16](_ => 0);
    cmd[0] := SERVICE_ACTION_IN_16;
    cmd[1] := SAI_READ_CAPACITY_16;
    cmd[13] := SCSI_RC16_LEN as bv8;
    cdb := cmd[..];
    assert cdb == ReadCapacity16Cdb();
    forall i | 0 <= i < SCSI_RC16_LEN {
      buffer[i] := 0;
    }
    var o := t(attempt, cdb);
    forall i | 0 <= i < SCSI_RC16_LEN && i < |o.data| {
      buffer[i] := o.data[i];
    }
    assert buffer[..SCSI_RC16_LEN] == Transferred(o.data, SCSI_RC16_LEN);
    out, sshdr := o.ret, o.sense;
  }

  /** `scsi_read_cap10`: sends READ CAPACITY (10) after clearing the first
      RC10_LEN bytes of the buffer. */
  method ScsiReadCap10(t: CommandOracle, attempt: nat, buffer: array<bv8>) returns (out: int, sshdr: SenseHdr, cdb: seq<bv8>)
    requires buffer.Length == SCSI_BUF_SIZE
    modifies buffer
    ensures cdb == ReadCapacity10Cdb()
    ensures out == t(attempt, cdb).ret && sshdr == t(attempt, cdb).sense
    ensures buffer[..SCSI_RC16_LEN] == AfterCommand(false, t(attempt, cdb), old(buffer[..SCSI_RC16_LEN]))
    ensures buffer[SCSI_RC16_LEN..] == old(buffer[SCSI_RC16_LEN..])
  {
    var cmd := new bv8[10](_ => 0);
    cmd[0] := READ_CAPACITY;
    cdb := cmd[..];
    assert cdb == ReadCapacity10Cdb();
    forall i | 0 <= i < RC10_LEN {
      buffer[i] := 0;
    }
    var o := t(attempt, cdb);
    forall i | 0 <= i < RC10_LEN && i < |o.data| {
      buffer[i] := o.data[i];
    }
    assert buffer[..SCSI_RC16_LEN] == Transferred(o.data, RC10_LEN) + old(buffer[..SCSI_RC16_LEN])[RC10_LEN..];
    out, sshdr := o.ret, o.sense;
  }

  /** The command the loop body sends: `scsi_read_cap16` or, when the
      fallback is in use, `scsi_read_cap10`. */
  method ScsiReadCap(useCap16: bool, t: CommandOracle, attempt: nat, buffer: array<bv8>)
    returns (out: int, sshdr: SenseHdr, cdb: seq<bv8>)
    requires buffer.Length == SCSI_BUF_SIZE
    modifies buffer
    ensures cdb == CdbFor(useCap16)
    ensures out == t(attempt, cdb).ret && sshdr == t(attempt, cdb).sense
    ensures buffer[..SCSI_RC16_LEN] == AfterCommand(useCap16, t(attempt, cdb), old(buffer[..SCSI_RC16_LEN]))
    ensures buffer[SCSI_RC16_LEN..] == old(buffer[SCSI_RC16_LEN..])
  {
    if useCap16 {
      out, sshdr, cdb := ScsiReadCap16(t, attempt, buffer);
    } else {
      out, sshdr, cdb := ScsiReadCap10(t, attempt, buffer);
    }
  }

  /** `opportunistic_read_capacity`: the size in whole mebibytes, or -EINVAL
      when the drive refuses the command, or -EIO when the retry budget runs
      out; every pass of the do/while loop, `continue` included, spends one
      unit of the budget. */
  method OpportunisticReadCapacity(t: CommandOracle) returns (capacityMib: int, issued: seq<seq<bv8>>, sleeps: nat)
    ensures ProbeRun(capacityMib, issued, sleeps) == Probe(t)
    ensures capacityMib == -EINVAL || capacityMib == -EIO || 0 <= capacityMib < TWO_44
    ensures 1 <= |issued| <= SCSI_CAP_MAX_RETRIES
    ensures forall i | 0 <= i < |issued| :: issued[i] == ReadCapacity16Cdb()
  {
    var useCap16 := true;
    var buffer := new bv8[SCSI_BUF_SIZE];
    ghost var whole := ProbeFrom(t, SCSI_CAP_MAX_RETRIES, 0, true, buffer[..SCSI_RC16_LEN]);
    StaleBufferIgnored(t, SCSI_CAP_MAX_RETRIES, 0, buffer[..SCSI_RC16_LEN], Zeros(SCSI_RC16_LEN));

    var out: int;
    var readRetry: nat := SCSI_CAP_MAX_RETRIES;
    issued, sleeps := [], 0;
    while true
      invariant 1 <= readRetry <= SCSI_CAP_MAX_RETRIES && |issued| + readRetry == SCSI_CAP_MAX_RETRIES
      invariant buffer.Length == SCSI_BUF_SIZE
      invariant ProbedSoFar(t, whole, issued, sleeps, readRetry, useCap16, buffer[..SCSI_RC16_LEN])
      decreases readRetry
    {
      ghost var before := buffer[..SCSI_RC16_LEN];
      ghost var wasCap16 := useCap16;
      ghost var sleptBefore := sleeps;
      PassPreserves(t, whole, issued, sleeps, readRetry, useCap16, before);
      var sshdr, cdb;
      out, sshdr, cdb := ScsiReadCap(useCap16, t, |issued|, buffer);
      ghost var o := t(|issued|, cdb);
      issued := issued + [cdb];
      if out == 0 {
        assert StepOf(wasCap16, o) == Completed;
        break;
      }
      if out > 0 {
        if !useCap16 {
          useCap16 := false;
        } else if sshdr.valid {
          if IsHardReject(sshdr) {
            assert StepOf(wasCap16, o) == Refused;
            ProbeSendsOnlyReadCapacity16(t);
            capacityMib := -EINVAL;
            return;
          }
          if IsResetAttention(sshdr) {
            sleeps := sleeps + 1;
          }
        }
      }
      assert StepOf(wasCap16, o) == Retry(sleeps == sleptBefore + 1, useCap16);
      readRetry := readRetry - 1;
      if readRetry == 0 {
        break;
      }
    }
    ProbeSendsOnlyReadCapacity16(t);
    if out != 0 {
      capacityMib := -EIO;
      return;
    }
    var sectorSize := BigEndian(buffer[8..12]);
    var lba := BigEndian(buffer[0..8]);
    assert buffer[..SCSI_RC16_LEN][0..8] == buffer[0..8] && buffer[..SCSI_RC16_LEN][8..12] == buffer[8..12];
    capacityMib := CapacityMib(lba, sectorSize);
  }

  lemma ProbeSendsOnlyReadCapacity16(t: CommandOracle)
    ensures forall i | 0 <= i < |Probe(t).issued| :: Probe(t).issued[i] == ReadCapacity16Cdb()
  {
    ProbeCharacterised(t);
  }

  /** The loop invariant of the prober: what is left of the probe, after the
      commands sent and the sleeps taken so far, completes the whole probe. */
  ghost predicate ProbedSoFar(t: CommandOracle, whole: ProbeRun, issued: seq<seq<bv8>>, sleeps: nat,
                              readRetry: nat, useCap16: bool, buf: seq<bv8>)
  {
    && 1 <= readRetry && |buf| == SCSI_RC16_LEN
    && var rest := ProbeFrom(t, readRetry, |issued|, useCap16, buf);
       whole == ProbeRun(rest.result, issued + rest.issued, sleeps + rest.sleeps)
  }

  /** One pass of the loop body keeps ProbedSoFar, or ends the probe with
      the whole result. */
  lemma PassPreserves(t: CommandOracle, whole: ProbeRun, issued: seq<seq<bv8>>, sleeps: nat,
                      readRetry: nat, useCap16: bool, buf: seq<bv8>)
    requires ProbedSoFar(t, whole, issued, sleeps, readRetry, useCap16, buf)
    ensures var cdb := CdbFor(useCap16);
            var o := t(|issued|, cdb);
            var after := AfterCommand(useCap16, o, buf);
            var issued' := issued + [cdb];
            match StepOf(useCap16, o)
            case Completed => whole == ProbeRun(DecodeReadCapacity16(after), issued', sleeps)
            case Refused => whole == ProbeRun(-EINVAL, issued', sleeps)
            case Retry(slept, next) =>
              var sleeps' := sleeps + (if slept then 1 else 0);
              && (readRetry == 1 ==> whole == ProbeRun(-EIO, issued', sleeps'))
              && (readRetry > 1 ==> ProbedSoFar(t, whole, issued', sleeps', readRetry - 1, next, after))
  {
    var cdb := CdbFor(useCap16);
    var o := t(|issued|, cdb);
    var after := AfterCommand(useCap16, o, buf);
    if StepOf(useCap16, o).Retry? && readRetry > 1 {
      var rest := ProbeFrom(t, readRetry - 1, |issued| + 1, StepOf(useCap16, o).useCap16, after);
      assert issued + ([cdb] + rest.issued) == (issued + [cdb]) + rest.issued;
    }
  }
}
