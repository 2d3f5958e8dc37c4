/** The SATA boot shim: the probe wrapper installed in the "sd" driver, the
    sweep over devices that were already probed, and the register/unregister
    state machine. Destructive kernel operations (removing a device,
    rescanning a host) and calls of the original probe are recorded as
    events. */
module Shim {
  import opened Prober
  import opened Classifier

  const EEXIST: int := 17
  const ENOENT: int := 2

  datatype Option<T> = None | Some(value: T)

  datatype BootMediaType = BootMediaUsb | BootMediaSata

  /** The boot device configuration handed to register: the media type and
      the largest size, in MiB, of a disk that may be taken for the boot
      device. */
  datatype BootMedia = BootMedia(mediaType: BootMediaType, domSizeMib: nat)

  /** What the original sd probe sees of a device: its name and its vendor
      and model strings at the time of the call. */
  datatype ProbeView = ProbeView(name: string, vendor: string, model: string)

  /** The driver's original probe routine, opaque to the shim. */
  type SdProbe = ProbeView -> int

  /** What `drv->probe` points to. */
  datatype ProbeHook = OriginalProbe(probe: SdProbe) | ShimProbe

  /** An error pointer: IS_ERR holds of it and PTR_ERR gives a negative errno. */
  type ErrPtr = e: int | -4095 <= e < 0 witness -1

  /** The answer of `driver_find("sd", &scsi_bus_type)`. */
  datatype DriverLookup = DriverFound | DriverLookupFailed(err: ErrPtr)

  /** A SCSI host: its number and whether its transport template has a
      `user_scan` routine. */
  datatype ScsiHost = ScsiHost(hostNo: nat, hasUserScan: bool)

  datatype ScanKind = TransportUserScan | GenericHostScan

  /** Every rescan is over all channels, ids and LUNs of the host. */
  datatype Event =
    | DeviceRemoved(name: string)
    | HostRescanned(hostNo: nat, kind: ScanKind)
    | OriginalProbeCalled(view: ProbeView)

  /** The "sd" driver; only its probe pointer matters here. */
  class SdDriver {
    var probe: ProbeHook

    constructor (sdProbe: SdProbe)
      ensures probe == OriginalProbe(sdProbe)
    {
      probe := OriginalProbe(sdProbe);
    }
  }

  /** A device on the SCSI bus. Its identity strings are what the shim
      overwrites; the capacity oracle answers its READ CAPACITY commands. */
  class ScsiDevice {
    const name: string
    const attachment: Attachment
    const host: ScsiHost
    const answers: CommandOracle
    var vendor: string
    var model: string

    constructor (name: string, attachment: Attachment, host: ScsiHost, answers: CommandOracle,
                 vendor: string, model: string)
      ensures this.name == name && this.attachment == attachment && this.host == host
      ensures this.answers == answers && this.vendor == vendor && this.model == model
    {
      this.name, this.attachment, this.host, this.answers := name, attachment, host, answers;
      this.vendor, this.model := vendor, model;
    }
  }

  /** Whether the wrapper relabels dev, and whether the sweep pulls it off
      its host: a SATA disk that is a shim target. */
  function Claims(dev: ScsiDevice, maxDomSizeMib: nat, deviceMapped: bool): (claimed: bool)
    ensures claimed ==> !deviceMapped && dev.attachment.isSdev && dev.attachment.portType == SynoPortTypeSata
  {
    IsSataDisk(dev.attachment) && ShimTarget(dev.answers, maxDomSizeMib, deviceMapped)
  }

  /** A device is claimed exactly when it is a SCSI leaf device of disk type
      behind a SATA host, nothing was relabelled yet, the command that ended
      its capacity probe succeeded, and the capacity it reported is at most
      the threshold. */
  lemma ClaimsMeaning(dev: ScsiDevice, maxDomSizeMib: nat, deviceMapped: bool)
    ensures var last := Attempt(dev.answers, |Probe(dev.answers).issued| - 1);
            Claims(dev, maxDomSizeMib, deviceMapped)
            <==> (&& dev.attachment.isSdev && dev.attachment.devType == TYPE_DISK
                  && dev.attachment.portType == SynoPortTypeSata
                  && !deviceMapped && Succeeded(last) && MeasuredMib(last) <= maxDomSizeMib)
  {
    assert Claims(dev, maxDomSizeMib, deviceMapped)
           <==> IsSataDisk(dev.attachment) && ShimTarget(dev.answers, maxDomSizeMib, deviceMapped);
    ShimTargetMeaning(dev.answers, maxDomSizeMib, deviceMapped);
  }

  /** How a host is rescanned: through its transport's `user_scan` when it
      has one, else by the generic host scan. */
  function ScanKindOf(host: ScsiHost): (kind: ScanKind)
    ensures kind == TransportUserScan <==> host.hasUserScan
  {
    if host.hasUserScan then TransportUserScan else GenericHostScan
  }

  /** What the sweep does to one device already on the bus. */
  function ReconcileEvents(dev: ScsiDevice, maxDomSizeMib: nat, deviceMapped: bool): (ev: seq<Event>)
    ensures ev != [] <==> Claims(dev, maxDomSizeMib, deviceMapped)
    ensures ev != [] ==> ev == [DeviceRemoved(dev.name), HostRescanned(dev.host.hostNo, ScanKindOf(dev.host))]
  {
    if Claims(dev, maxDomSizeMib, deviceMapped)
    then [DeviceRemoved(dev.name), HostRescanned(dev.host.hostNo, ScanKindOf(dev.host))]
    else []
  }

  /** What the sweep does to the devices on the bus, in bus order. */
  function SweepEvents(devices: seq<ScsiDevice>, maxDomSizeMib: nat, deviceMapped: bool): (ev: seq<Event>)
    ensures |ev| <= 2 * |devices|
    ensures forall e | e in ev :: !e.OriginalProbeCalled?
  {
    if devices == [] then []
    else
      var before := SweepEvents(devices[..|devices| - 1], maxDomSizeMib, deviceMapped);
      var here := ReconcileEvents(devices[|devices| - 1], maxDomSizeMib, deviceMapped);
      assert |here| <= 2 && forall e | e in here :: !e.OriginalProbeCalled?;
      before + here
  }

  /** One step of the sweep: the events of the first i devices followed by
      those of device i are the events of the first i + 1 devices. */
  lemma SweepStep(start: seq<Event>, sofar: seq<Event>, now: seq<Event>, devices: seq<ScsiDevice>, i: nat,
                  maxDomSizeMib: nat, deviceMapped: bool)
    requires i < |devices|
    requires sofar == start + SweepEvents(devices[..i], maxDomSizeMib, deviceMapped)
    requires now == sofar + ReconcileEvents(devices[i], maxDomSizeMib, deviceMapped)
    ensures now == start + SweepEvents(devices[..i + 1], maxDomSizeMib, deviceMapped)
  {
    var prefix := devices[..i + 1];
    assert prefix[..|prefix| - 1] == devices[..i] && prefix[|prefix| - 1] == devices[i];
    SweepEventsSnoc(prefix, maxDomSizeMib, deviceMapped);
    AppendAssociates(start, SweepEvents(devices[..i], maxDomSizeMib, deviceMapped),
                     ReconcileEvents(devices[i], maxDomSizeMib, deviceMapped));
  }

  lemma AppendAssociates<T>(a: seq<T>, b: seq<T>, c: seq<T>)
    ensures a + b + c == a + (b + c)
  {
  }

  /** The events of a non-empty bus are those of all but its last device,
      followed by those of the last device. */
  lemma SweepEventsSnoc(devices: seq<ScsiDevice>, maxDomSizeMib: nat, deviceMapped: bool)
    requires devices != []
    ensures SweepEvents(devices, maxDomSizeMib, deviceMapped)
            == SweepEvents(devices[..|devices| - 1], maxDomSizeMib, deviceMapped)
               + ReconcileEvents(devices[|devices| - 1], maxDomSizeMib, deviceMapped)
  {
  }

  /** The sweep removes exactly the devices that are claimable: SATA disks
      that are shim targets; a device that fails classification is never
      touched. */
  lemma {:induction false} SweepRemovesOnlyClaimable(devices: seq<ScsiDevice>, maxDomSizeMib: nat,
                                                     deviceMapped: bool, name: string)
    ensures DeviceRemoved(name) in SweepEvents(devices, maxDomSizeMib, deviceMapped)
            <==> exists i | 0 <= i < |devices| :: RemovedByName(devices[i], maxDomSizeMib, deviceMapped, name)
  {
    if devices != [] {
      var init, last := devices[..|devices| - 1], devices[|devices| - 1];
      SweepRemovesOnlyClaimable(init, maxDomSizeMib, deviceMapped, name);
      ReconcileRemoves(last, maxDomSizeMib, deviceMapped, name);
      ExistsInSnoc(init, last, d => RemovedByName(d, maxDomSizeMib, deviceMapped, name));
      assert devices == init + [last];
    }
  }

  /** Whether dev is called name and is claimable. */
  predicate RemovedByName(dev: ScsiDevice, maxDomSizeMib: nat, deviceMapped: bool, name: string)
  {
    dev.name == name && Claims(dev, maxDomSizeMib, deviceMapped)
  }

  lemma ReconcileRemoves(dev: ScsiDevice, maxDomSizeMib: nat, deviceMapped: bool, name: string)
    ensures DeviceRemoved(name) in ReconcileEvents(dev, maxDomSizeMib, deviceMapped)
            <==> RemovedByName(dev, maxDomSizeMib, deviceMapped, name)
  {
  }

  lemma ExistsInSnoc<T>(init: seq<T>, last: T, p: T -> bool)
    ensures (exists i | 0 <= i < |init + [last]| :: p((init + [last])[i]))
            <==> (exists i | 0 <= i < |init| :: p(init[i])) || p(last)
  {
    var s := init + [last];
    if exists i | 0 <= i < |s| :: p(s[i]) {
      var i :| 0 <= i < |s| && p(s[i]);
      if i < |init| {
        assert init[i] == s[i];
      }
    }
    if exists i | 0 <= i < |init| :: p(init[i]) {
      var i :| 0 <= i < |init| && p(init[i]);
      assert s[i] == init[i];
    }
    assert s[|init|] == last;
  }

  /** Once a device has been relabelled, a sweep removes and rescans nothing:
      registering again after unregistering cannot claim a second device. */
  lemma {:induction false} SweepAfterClaimIsQuiet(devices: seq<ScsiDevice>, maxDomSizeMib: nat)
    ensures SweepEvents(devices, maxDomSizeMib, true) == []
  {
    if devices != [] {
      SweepAfterClaimIsQuiet(devices[..|devices| - 1], maxDomSizeMib);
    }
  }

  /** The shim's global state: `max_dom_size_mib`, `org_sd_probe` and
      `device_mapped`, with the "sd" driver whose probe it swaps. */
  class SataBootShim {
    const drv: SdDriver
    /** The vendor and model strings the kernel accepts for a SATA DOM. */
    const domVendor: string
    const domModel: string

    var maxDomSizeMib: nat
    var orgSdProbe: Option<SdProbe>
    var deviceMapped: bool
    var events: seq<Event>
    /** The devices relabelled so far. */
    ghost var relabelled: seq<ScsiDevice>

    /** The wrapper is installed exactly while the original probe is saved;
        the threshold is zero while it is not; at most one device is ever
        relabelled and device_mapped records whether one was. */
    ghost predicate Valid()
      reads this, drv
    {
      && (orgSdProbe.Some? <==> drv.probe.ShimProbe?)
      && (orgSdProbe.None? ==> maxDomSizeMib == 0)
      && |relabelled| <= 1
      && (deviceMapped <==> |relabelled| == 1)
    }

    constructor (drv: SdDriver, domVendor: string, domModel: string)
      requires drv.probe.OriginalProbe?
      ensures Valid()
      ensures this.drv == drv && this.domVendor == domVendor && this.domModel == domModel
      ensures maxDomSizeMib == 0 && orgSdProbe == None && !deviceMapped
      ensures events == [] && relabelled == []
    {
      this.drv, this.domVendor, this.domModel := drv, domVendor, domModel;
      maxDomSizeMib, orgSdProbe, deviceMapped := 0, None, false;
      events, relabelled := [], [];
    }

    /** `is_shim_target`: probes the capacity and says whether dev is the
        device to relabel; warn is the warning it logs when dev would match
        but a device was already relabelled. It changes nothing. */
    method IsShimTarget(dev: ScsiDevice) returns (target: bool, warn: bool)
      ensures target == ShimTarget(dev.answers, maxDomSizeMib, deviceMapped)
      ensures warn == AmbiguousMatch(dev.answers, maxDomSizeMib, deviceMapped)
    {
      var capacityMib, issued, sleeps := OpportunisticReadCapacity(dev.answers);
      if capacityMib < 0 {
        return false, false;
      }
      if capacityMib > maxDomSizeMib {
        return false, false;
      }
      if deviceMapped {
        return false, true;
      }
      return true, false;
    }

    /** `sd_probe_shim`: relabels a SATA disk that is the shim target, then
        always hands the device to the original probe and returns its result. */
    method SdProbeShim(dev: ScsiDevice) returns (ret: int)
      requires Valid() && orgSdProbe.Some?
      modifies this`deviceMapped, this`relabelled, this`events, dev`vendor, dev`model
      ensures Valid()
      ensures Claims(dev, maxDomSizeMib, old(deviceMapped)) ==>
                && dev.vendor == domVendor && dev.model == domModel
                && deviceMapped && relabelled == [dev]
      ensures !Claims(dev, maxDomSizeMib, old(deviceMapped)) ==>
                && dev.vendor == old(dev.vendor) && dev.model == old(dev.model)
                && deviceMapped == old(deviceMapped) && relabelled == old(relabelled)
      ensures old(deviceMapped) ==> dev.vendor == old(dev.vendor) && dev.model == old(dev.model)
      ensures ret == orgSdProbe.value(ProbeView(dev.name, dev.vendor, dev.model))
      ensures events == old(events) + [OriginalProbeCalled(ProbeView(dev.name, dev.vendor, dev.model))]
    {
      if IsSataDisk(dev.attachment) {
        var target, warn := IsShimTarget(dev);
        if target {
          dev.vendor := domVendor;
          dev.model := domModel;
          deviceMapped := true;
          relabelled := relabelled + [dev];
        }
      }
      var view := ProbeView(dev.name, dev.vendor, dev.model);
      ret := orgSdProbe.value(view);
      events := events + [OriginalProbeCalled(view)];
    }

    /** `on_existing_device`: a SATA disk that is the shim target is removed
        from its host and the host is rescanned, so that the device comes
        back through the wrapper. Always returns 0, so the walk goes on. */
    method OnExistingDevice(dev: ScsiDevice) returns (code: int)
      modifies this`events
      ensures code == 0
      ensures events == old(events) + ReconcileEvents(dev, maxDomSizeMib, deviceMapped)
    {
      if !IsSataDisk(dev.attachment) {
        return 0;
      }
      var target, warn := IsShimTarget(dev);
      if !target {
        return 0;
      }
      events := events + [DeviceRemoved(dev.name)];
      if dev.host.hasUserScan {
        events := events + [HostRescanned(dev.host.hostNo, TransportUserScan)];
      } else {
        events := events + [HostRescanned(dev.host.hostNo, GenericHostScan)];
      }
      return 0;
    }

    /** `probe_existing_devices`: walks the devices on the bus in order, as
        `bus_for_each_dev` does, until the callback returns non-zero, which
        it never does. */
    method ProbeExistingDevices(devices: seq<ScsiDevice>)
      modifies this`events
      ensures events == old(events) + SweepEvents(devices, maxDomSizeMib, deviceMapped)
    {
      var i := 0;
      var code := 0;
      while i < |devices| && code == 0
        invariant 0 <= i <= |devices|
        invariant code == 0
        invariant events == old(events) + SweepEvents(devices[..i], maxDomSizeMib, deviceMapped)
      {
        ghost var sweptSoFar := events;
        code := OnExistingDevice(devices[i]);
        SweepStep(old(events), sweptSoFar, events, devices, i, maxDomSizeMib, deviceMapped);
        i := i + 1;
      }
      assert devices[..i] == devices;
    }

    /** `register_sata_boot_shim`. */
    method Register(config: BootMedia, lookup: DriverLookup, devices: seq<ScsiDevice>) returns (ret: int)
      requires Valid()
      modifies this`maxDomSizeMib, this`orgSdProbe, this`events, drv`probe
      ensures Valid()
      ensures deviceMapped == old(deviceMapped) && relabelled == old(relabelled)
      ensures config.mediaType != BootMediaSata ==> ret == -EINVAL
      ensures config.mediaType == BootMediaSata && old(orgSdProbe).Some? ==> ret == -EEXIST
      ensures config.mediaType == BootMediaSata && old(orgSdProbe).None? && lookup.DriverLookupFailed? ==>
                ret == lookup.err
      ensures ret != 0 ==> unchanged(this) && unchanged(drv)
      ensures config.mediaType == BootMediaSata && old(orgSdProbe).None? && lookup.DriverFound? ==>
                && ret == 0
                && maxDomSizeMib == config.domSizeMib
                && orgSdProbe == Some(old(drv.probe).probe)
                && drv.probe == ShimProbe
                && events == old(events) + SweepEvents(devices, config.domSizeMib, deviceMapped)
    {
      if config.mediaType != BootMediaSata {
        return -EINVAL;
      }
      if orgSdProbe.Some? {
        return -EEXIST;
      }
      if lookup.DriverLookupFailed? {
        return lookup.err;
      }
      maxDomSizeMib := config.domSizeMib;
      orgSdProbe := Some(drv.probe.probe);
      drv.probe := ShimProbe;
      ProbeExistingDevices(devices);
      return 0;
    }

    /** `unregister_sata_boot_shim`. device_mapped is left as it is. */
    method Unregister(lookup: DriverLookup) returns (ret: int)
      requires Valid()
      modifies this`maxDomSizeMib, this`orgSdProbe, drv`probe
      ensures Valid()
      ensures deviceMapped == old(deviceMapped) && relabelled == old(relabelled) && events == old(events)
      ensures old(orgSdProbe).None? ==> ret == -ENOENT
      ensures old(orgSdProbe).Some? && lookup.DriverLookupFailed? ==> ret == lookup.err
      ensures ret != 0 ==> unchanged(this) && unchanged(drv)
      ensures old(orgSdProbe).Some? && lookup.DriverFound? ==>
                && ret == 0
                && drv.probe == OriginalProbe(old(orgSdProbe).value)
                && orgSdProbe == None
                && maxDomSizeMib == 0
    {
      if orgSdProbe.None? {
        return -ENOENT;
      }
      if lookup.DriverLookupFailed? {
        return lookup.err;
      }
      drv.probe := OriginalProbe(orgSdProbe.value);
      orgSdProbe := None;
      maxDomSizeMib := 0;
      return 0;
    }
  }
  /** Unregistering and registering again after a device was relabelled
      removes and rescans nothing and relabels nothing more: device_mapped
      survives unregistration. */
  method ReregisterAfterClaim(shim: SataBootShim, config: BootMedia, devices: seq<ScsiDevice>)
    returns (unregistered: int, registered: int)
    requires shim.Valid() && shim.orgSdProbe.Some? && shim.deviceMapped
    requires config.mediaType == BootMediaSata
    modifies shim, shim.drv
    ensures shim.Valid()
    ensures unregistered == 0 && registered == 0
    ensures shim.drv.probe == ShimProbe && shim.maxDomSizeMib == config.domSizeMib
    ensures shim.deviceMapped && shim.relabelled == old(shim.relabelled)
    ensures shim.events == old(shim.events)
  {
    unregistered := shim.Unregister(DriverFound);
    registered := shim.Register(config, DriverFound, devices);
    SweepAfterClaimIsQuiet(devices, config.domSizeMib);
  }
  /** Of two matching disks plugged in one after the other, only the first is
      relabelled; both are handed to the original probe. */
  method TwoMatchingDisks(shim: SataBootShim, first: ScsiDevice, second: ScsiDevice)
    returns (r1: int, r2: int)
    requires shim.Valid() && shim.orgSdProbe.Some? && !shim.deviceMapped
    requires first != second
    requires Claims(first, shim.maxDomSizeMib, false) && Claims(second, shim.maxDomSizeMib, false)
    modifies shim, first, second
    ensures shim.Valid() && shim.relabelled == [first]
    ensures first.vendor == shim.domVendor && first.model == shim.domModel
    ensures second.vendor == old(second.vendor) && second.model == old(second.model)
    ensures shim.events == old(shim.events)
                           + [OriginalProbeCalled(ProbeView(first.name, shim.domVendor, shim.domModel)),
                              OriginalProbeCalled(ProbeView(second.name, old(second.vendor), old(second.model)))]
  {
    r1 := shim.SdProbeShim(first);
    r2 := shim.SdProbeShim(second);
  }
}
