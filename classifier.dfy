/** The device classifier: `is_sata_disk` and the decision of
    `is_shim_target`. */
module Classifier {
  import opened ScsiBytes
  import opened Capacity
  import opened Prober

  /** The SCSI peripheral device type of a direct-access block device. */
  const TYPE_DISK: int := 0x00

  /** The port type Synology's kernel records in a SCSI host template. */
  datatype HostPortType = SynoPortTypeSata | OtherPortType

  /** What `is_sata_disk` looks at: whether the generic device is a SCSI
      leaf device, its peripheral device type and its host's port type. */
  datatype Attachment = Attachment(isSdev: bool, devType: int, portType: HostPortType)

  /** A SCSI leaf device of disk type behind a host whose port type is SATA. */
  function IsSataDisk(a: Attachment): (sata: bool)
    ensures sata <==> a.isSdev && a.devType == TYPE_DISK && a.portType == SynoPortTypeSata
  {
    if !a.isSdev then false
    else if a.devType != TYPE_DISK || a.portType != SynoPortTypeSata then false
    else true
  }

  /** The decision of `is_shim_target` once the capacity has been probed. */
  function ShimDecision(capacityMib: int, maxDomSizeMib: nat, deviceMapped: bool): (target: bool)
    ensures target <==> 0 <= capacityMib <= maxDomSizeMib && !deviceMapped
  {
    if capacityMib < 0 then false
    else if capacityMib > maxDomSizeMib then false
    else if deviceMapped then false
    else true
  }

  /** The case in which `is_shim_target` warns: a device that would match
      appears after one was already relabelled. */
  function WarnDecision(capacityMib: int, maxDomSizeMib: nat, deviceMapped: bool): (warn: bool)
    ensures warn <==> deviceMapped && ShimDecision(capacityMib, maxDomSizeMib, false)
    ensures warn ==> !ShimDecision(capacityMib, maxDomSizeMib, deviceMapped)
  {
    0 <= capacityMib <= maxDomSizeMib && deviceMapped
  }

  /** Whether `is_shim_target` says yes to the device the oracle t stands for. */
  function ShimTarget(t: CommandOracle, maxDomSizeMib: nat, deviceMapped: bool): bool
  {
    ShimDecision(Probe(t).result, maxDomSizeMib, deviceMapped)
  }

  /** Whether `is_shim_target` warns about that device. */
  function AmbiguousMatch(t: CommandOracle, maxDomSizeMib: nat, deviceMapped: bool): bool
  {
    WarnDecision(Probe(t).result, maxDomSizeMib, deviceMapped)
  }

  /** The capacity read from the answer that ended the probe. */
  function MeasuredMib(o: CmdOutcome): nat
  {
    DecodeReadCapacity16(Transferred(o.data, SCSI_RC16_LEN))
  }

  /** A device is a shim target exactly when nothing was relabelled yet, the
      command that ended its probe succeeded, and the capacity it reported
      is at most the threshold: a device that refused, failed three times or
      is larger is never a target. */
  lemma ShimTargetMeaning(t: CommandOracle, maxDomSizeMib: nat, deviceMapped: bool)
    ensures var last := Attempt(t, |Probe(t).issued| - 1);
            ShimTarget(t, maxDomSizeMib, deviceMapped) <==> (!deviceMapped && Succeeded(last) && MeasuredMib(last) <= maxDomSizeMib)
  {
    ProbeCharacterised(t);
  }

  /** The warning fires exactly for the devices that would have been the
      target had nothing been relabelled, and never together with a match. */
  lemma WarningIsMissedTarget(t: CommandOracle, maxDomSizeMib: nat, deviceMapped: bool)
    ensures (AmbiguousMatch(t, maxDomSizeMib, deviceMapped)
             <==> deviceMapped && ShimTarget(t, maxDomSizeMib, false))
    ensures !(AmbiguousMatch(t, maxDomSizeMib, deviceMapped) && ShimTarget(t, maxDomSizeMib, deviceMapped))
  {
  }

  /** A device whose first command succeeds is measured from that answer alone. */
  lemma ImmediateSuccess(t: CommandOracle)
    requires Succeeded(Attempt(t, 0))
    ensures Probe(t) == ProbeRun(MeasuredMib(Attempt(t, 0)), [ReadCapacity16Cdb()], 0)
  {
    ProbeCharacterised(t);
    var r := Probe(t);
    assert |r.issued| == 1;
    assert r.issued == [ReadCapacity16Cdb()];
  }
  /** A disk that answers every command at once with the given last LBA and
      block length. */
  function HealthyDisk(lba: nat, blockLen: nat): CommandOracle
    requires lba < TWO_64 && blockLen < TWO_32
  {
    PowersOfField();
    (i: nat, cdb: seq<bv8>) => CmdOutcome(0, SenseHdr(false, 0, 0, 0), ToBigEndian(lba, 8) + ToBigEndian(blockLen, 4))
  }

  /** With a 100 MiB threshold, a 200 MiB disk is never the target, an 80 MiB
      disk is the target while nothing was relabelled, and afterwards it only
      draws the warning. */
  lemma ThresholdScenario()
    ensures !ShimTarget(HealthyDisk(409599, 512), 100, false)
    ensures ShimTarget(HealthyDisk(163839, 512), 100, false)
    ensures !ShimTarget(HealthyDisk(163839, 512), 100, true)
    ensures AmbiguousMatch(HealthyDisk(163839, 512), 100, true)
  {
    HealthyDiskMeasured(409599, 512);
    HealthyDiskMeasured(163839, 512);
  }

  lemma HealthyDiskMeasured(lba: nat, blockLen: nat)
    requires lba < TWO_64 && blockLen < TWO_32
    ensures Probe(HealthyDisk(lba, blockLen)).result == CapacityMib(lba, blockLen)
  {
    PowersOfField();
    var t := HealthyDisk(lba, blockLen);
    var data := ToBigEndian(lba, 8) + ToBigEndian(blockLen, 4);
    assert Attempt(t, 0).data == data;
    ImmediateSuccess(t);
    assert Transferred(data, SCSI_RC16_LEN) == data + Zeros(20);
    DecodeReportedCapacity(lba, blockLen, Zeros(20));
  }
}
