# SATA boot shim: a Dafny model

redpill-lkm can boot from a small SATA disk posing as Synology's "SATA DOM" boot device. The SATA boot shim
(`shim/boot_dev/sata_boot_shim.c`) does this by replacing the probe routine of the kernel's "sd" driver. Every new
SCSI device that is a SATA disk gets its capacity probed with READ CAPACITY (16). The first one no larger than the
configured threshold (`dom_size_mib`) has its vendor and model strings overwritten with the DOM strings. The device
is always handed on to the original probe. On registration, the shim sweeps the devices already on the bus. A
matching one is removed and its host rescanned, so that it comes back through the shim.

The model has five modules:

- `ScsiBytes` (`bytes.dfy`): big-endian byte fields and the buffer a command clears and the device fills. Decoding
  and encoding are inverse to each other, proved in both directions.
- `Capacity` (`capacity.dfy`): the READ CAPACITY (16) parameter data (section 5.16 of SCSI Block Commands, SBC-3)
  turned into whole mebibytes.
  - The arithmetic is unsigned 64-bit, wrap-around included.
  - The result is therefore always below 2^44.
  - A device reporting the largest LBA reads as 0 MiB.
- `Prober` (`prober.dfy`): the commands `scsi_read_cap16` / `scsi_read_cap10` and the bounded retry loop
  `opportunistic_read_capacity`.
  - The device is an oracle: a function from the attempt number and the CDB to the outcome of `scsi_execute_req`.
    The outcome is a return code, a sense header and the transferred data.
  - The loop is a `method` over a heap buffer, proved equal to the specification function `ProbeFrom`. That
    function is characterised as follows:
    - every command is READ CAPACITY (16);
    - the probe stops at the first success or hard rejection, or after three commands;
    - the result is the decoded size exactly when the last command succeeded, -EINVAL exactly when it was
      hard-rejected (ILLEGAL REQUEST, ASC 0x20 or 0x24), and -EIO exactly when it was neither;
    - there is one sleep per UNIT ATTENTION with ASC 0x29.
- `Classifier` (`classifier.dfy`): `is_sata_disk`, and the decision of `is_shim_target` in terms of what the
  device answered.
- `Shim` (`shim.dfy`): the classes for the "sd" driver, the SCSI device and the shim's global state.
  - It covers the probe wrapper, the sweep over existing devices, and register/unregister.
  - The class invariant says four things:
    - the wrapper is installed exactly while the original probe is saved;
    - the threshold is zero while the shim is not registered;
    - at most one device is ever relabelled;
    - `device_mapped` records whether one was.
  - Removing a device, rescanning a host and calling the original probe are recorded as events.

In the code, the fallback test at line 171 reads `if (!use_cap16)`. It only fires once READ CAPACITY (10) is
already in use, so the READ CAPACITY (10) path can never be reached. The model follows the code as written:
`StepOf` keeps the inverted test, and `ProbeCharacterised` proves that every command sent is READ CAPACITY (16). Code
that fell back to READ CAPACITY (10) would behave differently. The code has no decoder for the
8-byte READ CAPACITY (10) answer either, so no corrected version is modelled.

## Model

| member | source | states |
|---|---|---|
| ScsiBytes.BigEndian | shim/boot_dev/sata_boot_shim.c:209-210 | the value of an n-byte big-endian field is below 256^n |
| ScsiBytes.ToBigEndian | shim/boot_dev/sata_boot_shim.c:209-210 | the n-byte encoding of a value that fits has length n |
| ScsiBytes.DecodeEncode | shim/boot_dev/sata_boot_shim.c:209-210 | decoding an encoded field gives back the value |
| ScsiBytes.EncodeDecode | shim/boot_dev/sata_boot_shim.c:209-210 | encoding a field's value gives back the field |
| ScsiBytes.Zeros | shim/boot_dev/sata_boot_shim.c:104 | memset leaves n zero bytes |
| ScsiBytes.Transferred | shim/boot_dev/sata_boot_shim.c:108-111 | after clearing and a transfer of up to alloc bytes, byte i is the device's byte i if it sent one, else 0 |
| Capacity.WrapU64 | shim/boot_dev/sata_boot_shim.c:213 | unsigned 64-bit results are below 2^64 and equal the exact value when it fits |
| Capacity.CapacityMib | shim/boot_dev/sata_boot_shim.c:209-213 | the size in whole MiB is below 2^44, and equals (lba+1)*block length / 2^20 whenever the product does not overflow |
| Capacity.DecodeReadCapacity16 | shim/boot_dev/sata_boot_shim.c:209-213 | the size read from the parameter data is below 2^44 (never negative) |
| Capacity.DecodeReportedCapacity | shim/boot_dev/sata_boot_shim.c:209-216 | parameter data reporting last LBA lba and block length b decodes to CapacityMib(lba, b), whatever follows byte 11 |
| Capacity.LargestLbaWrapsToZero | shim/boot_dev/sata_boot_shim.c:213 | a last LBA of 2^64-1 wraps the block count to zero, so the device reads as 0 MiB |
| Capacity.SmallDiskEstimate | shim/boot_dev/sata_boot_shim.c:213 | last LBA 630783 with 512-byte blocks reads as 308 MiB (rounded down) |
| Prober.ReadCapacity16Cdb | shim/boot_dev/sata_boot_shim.c:103-107 | the CDB is 16 bytes: SERVICE ACTION IN (16), service action READ CAPACITY (16), allocation length 32 in bytes 10..13, all else zero |
| Prober.ReadCapacity10Cdb | shim/boot_dev/sata_boot_shim.c:125-127 | the CDB is READ CAPACITY (10) followed by nine zero bytes |
| Prober.AfterCommand | shim/boot_dev/sata_boot_shim.c:108-111 | after a READ CAPACITY (16) command, the first 32 buffer bytes hold exactly what the device transferred, zero-padded |
| Prober.SenseTestOrderIrrelevant | shim/boot_dev/sata_boot_shim.c:181-199 | one pass decides the same when the UNIT ATTENTION test is made before the ILLEGAL REQUEST test: the order of the two sense tests does not matter |
| Prober.StepOfMeaning | shim/boot_dev/sata_boot_shim.c:165-199 | one pass completes iff the command succeeded, gives up iff READ CAPACITY (16) got a valid hard-rejection sense, sleeps iff it got a valid reset attention, and never changes the command variant (the inverted test at :171) |
| Prober.ProbeFrom | shim/boot_dev/sata_boot_shim.c:161-216 | from any loop pass with r passes left: 1..r commands, no more sleeps than commands, a sleep on every pass only when the result is -EIO, result -EINVAL, -EIO or a size in [0, 2^44) |
| Prober.Probe | shim/boot_dev/sata_boot_shim.c:146-217 | the whole probe sends 1..3 commands, returns -EINVAL, -EIO or a size in [0, 2^44), and sleeps after every command only when it returns -EIO |
| Prober.FirstPass | shim/boot_dev/sata_boot_shim.c:161-200 | a READ CAPACITY (16) pass ends the probe with what its answer means when the answer is decisive or the budget is spent, and otherwise hands over to the next pass, having slept once if the drive reported a reset |
| Prober.ProbeFromStops | shim/boot_dev/sata_boot_shim.c:161-200 | every command is READ CAPACITY (16); every answer before the last is neither success nor hard rejection; the last is one of them or the budget is spent |
| Prober.ProbeFromReports | shim/boot_dev/sata_boot_shim.c:181-216 | the result is what the last answer means: its decoded size on success, -EINVAL on hard rejection, else -EIO |
| Prober.ProbeFromSleeps | shim/boot_dev/sata_boot_shim.c:193-197 | the number of sleeps is the number of reset attentions among the answers |
| Prober.ProbeFromCharacterised | shim/boot_dev/sata_boot_shim.c:161-216 | every command is READ CAPACITY (16); every answer before the last is neither success nor hard rejection; the last one is, or the budget is spent; the result is what the last answer means; the number of sleeps is the number of reset attentions |
| Prober.VerdictMeaning | shim/boot_dev/sata_boot_shim.c:181-206 | the verdict on an answer is non-negative iff the command succeeded, -EINVAL iff it was hard-rejected, and -EIO iff it was neither |
| Prober.ProbeCharacterised | shim/boot_dev/sata_boot_shim.c:146-216 | at most 3 commands, all READ CAPACITY (16); the result is non-negative iff the last command succeeded, and is then its decoded size; it is -EINVAL iff the last answer was a hard rejection, and -EIO iff it was neither; one sleep per reset attention |
| Prober.StaleBufferIgnored | shim/boot_dev/sata_boot_shim.c:152-216 | the uninitialised contents of the allocated buffer never affect the result |
| Prober.TwoResetsThenSuccess | shim/boot_dev/sata_boot_shim.c:181-198 | busy, busy, success gives the decoded size after three READ CAPACITY (16) commands and exactly two sleeps |
| Prober.RefusedAtOnce | shim/boot_dev/sata_boot_shim.c:186-191 | a hard rejection of the first command returns -EINVAL with no further command and no sleep |
| Prober.ScsiReadCap16 | shim/boot_dev/sata_boot_shim.c:101-112 | sends the READ CAPACITY (16) CDB, returns the device's code and sense, leaves its data in the cleared first 32 bytes of the buffer and the other 480 bytes unchanged |
| Prober.ScsiReadCap10 | shim/boot_dev/sata_boot_shim.c:123-131 | sends the READ CAPACITY (10) CDB, with the buffer's first 8 bytes cleared and then filled and the bytes past them unchanged |
| Prober.ScsiReadCap | shim/boot_dev/sata_boot_shim.c:165 | sends the command the current variant selects; buffer bytes past the first 32 are unchanged |
| Prober.OpportunisticReadCapacity | shim/boot_dev/sata_boot_shim.c:146-217 | the loop's result, commands and sleeps are exactly those of Probe; the result is -EINVAL, -EIO or a size in [0, 2^44); 1..3 commands, all READ CAPACITY (16) |
| Prober.PassPreserves | shim/boot_dev/sata_boot_shim.c:161-200 | one pass of the loop body, `continue` included, spends one unit of budget and either ends with the whole result or keeps the loop invariant |
| Prober.ProbeSendsOnlyReadCapacity16 | shim/boot_dev/sata_boot_shim.c:165-174 | the inverted fallback test never switches to READ CAPACITY (10) |
| Classifier.ShimDecision | shim/boot_dev/sata_boot_shim.c:246-266 | the probed size makes a target iff it is non-negative, at most the threshold, and nothing was relabelled yet |
| Classifier.WarnDecision | shim/boot_dev/sata_boot_shim.c:257-262 | the warning is given iff a device was relabelled and this size would otherwise make a target; it never comes with a match |
| Classifier.IsSataDisk | shim/boot_dev/sata_boot_shim.c:222-237 | a device is a SATA disk iff it is a SCSI leaf device, of disk type, behind a host whose port type is SATA |
| Classifier.ShimTargetMeaning | shim/boot_dev/sata_boot_shim.c:241-267 | a device is the target iff nothing was relabelled yet, the command that ended its probe succeeded, and the capacity it reported is at most the threshold |
| Classifier.WarningIsMissedTarget | shim/boot_dev/sata_boot_shim.c:257-262 | the warning fires iff a device was already relabelled and this one would otherwise be the target; a warned device is never the target |
| Classifier.ImmediateSuccess | shim/boot_dev/sata_boot_shim.c:161-216 | a device whose first command succeeds is measured from that answer after one command and no sleep |
| Classifier.HealthyDiskMeasured | shim/boot_dev/sata_boot_shim.c:209-216 | a disk that answers at once is measured as CapacityMib of its last LBA and block length |
| Classifier.ThresholdScenario | shim/boot_dev/sata_boot_shim.c:241-267 | with a 100 MiB threshold, a 200 MiB disk is not the target; an 80 MiB disk is, until a device has been relabelled, after which it only draws the warning |
| Shim.Claims | shim/boot_dev/sata_boot_shim.c:272-280 | a claimed device is a SCSI leaf device behind a SATA host, and nothing was relabelled before it (the full condition is ClaimsMeaning) |
| Shim.ClaimsMeaning | shim/boot_dev/sata_boot_shim.c:272-280 | the wrapper and the sweep claim a device iff it is a SCSI leaf device of disk type behind a SATA host, nothing was relabelled yet, the command that ended its capacity probe succeeded, and the capacity it reported is at most the threshold |
| Shim.ScanKindOf | shim/boot_dev/sata_boot_shim.c:336-344 | the host is rescanned through its transport's user_scan iff it has one, else by the generic scan |
| Shim.ReconcileEvents | shim/boot_dev/sata_boot_shim.c:310-348 | one device yields events iff it is claimable, and then exactly its removal followed by a rescan of its own host, through user_scan iff the host has one (ScanKindOf) |
| Shim.SweepEvents | shim/boot_dev/sata_boot_shim.c:354-358 | the sweep yields at most two events per device and never calls the original probe itself |
| Shim.ReconcileRemoves | shim/boot_dev/sata_boot_shim.c:310-348 | one device is removed by the sweep iff it is a SATA disk and the shim target |
| Shim.SweepRemovesOnlyClaimable | shim/boot_dev/sata_boot_shim.c:310-358 | a device name is removed during the sweep iff some device of that name on the bus is a SATA disk and the shim target |
| Shim.SweepAfterClaimIsQuiet | shim/boot_dev/sata_boot_shim.c:255-262 | once device_mapped is set, a sweep removes and rescans nothing |
| Shim.SataBootShim.constructor | shim/boot_dev/sata_boot_shim.c:239-240 | the initial state: threshold 0, no saved probe, nothing mapped, which satisfies the invariant |
| Shim.SataBootShim.IsShimTarget | shim/boot_dev/sata_boot_shim.c:241-267 | returns whether the probed device is the target, and whether it warns; changes neither the shim nor the device |
| Shim.SataBootShim.SdProbeShim | shim/boot_dev/sata_boot_shim.c:270-288 | relabels the device and sets device_mapped iff it is a SATA disk and the shim target; once device_mapped is set it relabels nothing; calls the saved probe exactly once on the device as left and returns its result; keeps the invariant |
| Shim.SataBootShim.OnExistingDevice | shim/boot_dev/sata_boot_shim.c:310-349 | returns 0 for every device; removes the device and rescans its host (user_scan if the transport has it, else the generic scan) iff it is a SATA disk and the shim target; changes nothing else, device_mapped included |
| Shim.SataBootShim.ProbeExistingDevices | shim/boot_dev/sata_boot_shim.c:354-358 | walks every device on the bus in order and appends exactly the sweep's events |
| Shim.SataBootShim.Register | shim/boot_dev/sata_boot_shim.c:361-392 | -EINVAL for non-SATA media, then -EEXIST if already registered, then the lookup error, each with the state unchanged; on success it sets the threshold, saves the original probe, installs the wrapper and sweeps once; device_mapped unchanged; keeps the invariant |
| Shim.SataBootShim.Unregister | shim/boot_dev/sata_boot_shim.c:394-415 | -ENOENT if not registered, then the lookup error, each with the state unchanged; on success it restores the original probe, clears the saved one and zeroes the threshold; device_mapped unchanged; keeps the invariant |
| Shim.ReregisterAfterClaim | shim/boot_dev/sata_boot_shim.c:394-415 | unregister then register, after a device was relabelled: both succeed, and no device is removed or relabelled |
| Shim.TwoMatchingDisks | shim/boot_dev/sata_boot_shim.c:270-288 | of two matching disks plugged in one after the other, only the first is relabelled, and both reach the original probe |

## Left out

- Prober.OpportunisticReadCapacity: the kmalloc failure path returning -EFAULT is not modelled, and neither is the buffer that is not freed on the -EINVAL return. Both are memory management.
- Prober.OpportunisticReadCapacity: `msleep(500)` is counted, not timed. The timeout and the retries inside `scsi_execute_req` belong to the device oracle.
- Prober.ProbeFrom: the oracle is indexed from attempt 0 on every probe of a device. A device whose answers depend on earlier probes is outside the model.
- Prober: `scsi_sense_valid` is taken as the `valid` field of the sense header. Its internals are not modelled.
- The `pr_loc_*` logging is left out. The one warning of `is_shim_target` is returned as the `warn` flag.
- Shim.SataBootShim.OnExistingDevice: `scsi_remove_device`, `user_scan` and `_scsi_scan_host_selected` are recorded as events. The re-probe that the rescan causes, which runs the wrapper again, is not modelled. So `device_mapped` does not change during a sweep, and with two matching disks already on the bus one sweep removes and rescans both. In the kernel, a rescan that re-probes at once would relabel the first and leave the second only warned about, as the comment at lines 346-347 expects.
- Shim.SataBootShim.Register: `driver_find` is a lookup that either finds the "sd" driver or fails with an error pointer. A NULL return is not modelled.
- Shim.SataBootShim.Register: the original probe is always a function. An "sd" driver whose probe is NULL, which would leave the shim looking unregistered, is not modelled.
- Shim.SataBootShim.Register: `max_dom_size_mib` and `dom_size_mib` are unbounded naturals. The width of `unsigned long` is not modelled.
- Shim.SataBootShim.IsShimTarget: the capacity is compared with the threshold (line 252, decided by Classifier.ShimDecision) as integers once it is known to be non-negative. The conversion of both to `unsigned long long` is not modelled; it does not change the answer for non-negative sizes below 2^44.
- Shim.SataBootShim.Register: "device_mapped unchanged" holds only because the re-probe that the sweep's rescan causes is not modelled. In the kernel, that re-probe runs the wrapper and can set `device_mapped` before `register_sata_boot_shim` returns.
- `bus_for_each_dev` is a walk over a finite sequence of devices.
- The unsynchronised updates of `device_mapped` and of the probe hook, and any concurrent probe, are not modelled.
- `struct scsi_disk_stub` (lines 294-302) is unused by the code. It is not modelled.
- The `#else` stubs (lines 416-427), which return -ENODEV when SATA DOM support is absent, are not modelled.
