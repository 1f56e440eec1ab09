/** `NationalGridEntity`: the device record it builds for its service point
    (`_build_device_info`) and the three lookups of its meter data
    (`account_id`, `meter`, `billing_account`). Python's `str.title` and
    `str.strip` are left uninterpreted. */
module DeviceEntity {
  import opened Text
  import opened Records
  import opened Series
  import opened Queries
  import opened UpdateCoordinator

  /** Home Assistant's `DeviceInfo`; a key the builder never sets is `None`. */
  datatype DeviceInfo = DeviceInfo(
    identifiers: set<(string, string)>,
    serialNumber: string,
    name: string,
    manufacturer: string,
    model: Option<string>,
    configurationUrl: Option<string>,
    suggestedArea: Option<string>,
    swVersion: Option<string>,
    hwVersion: Option<string>)

  const Manufacturer: string := "National Grid"
  const ConfigurationUrl: string := "https://myaccount.nationalgrid.com"
  const PartSeparator: string := " | "

  /** The model before the fuel prefix: AMI first, then smart, else standard. */
  function BaseModel(m: Meter): string
  {
    if m.hasAmiSmartMeter then "AMI Smart Meter"
    else if m.isSmartMeter then "Smart Meter"
    else "Standard Meter"
  }

  const DeviceLabel: string := "Device: "
  const RegionLabel: string := "Region: "
  const TypeLabel: string := "Type: "
  const ServicePointLabel: string := "SP: "
  const MeterPointLabel: string := "MP: "
  const PremiseLabel: string := "Premise: "

  /** The `sw_version` parts, in their fixed order: device code, region
      abbreviation, customer type, each only when non-empty. */
  function VersionParts(m: Meter, ba: BillingAccount, ops: TextOps): seq<string>
  {
    var p1 := if m.deviceCode != "" then [DeviceLabel + m.deviceCode] else [];
    var p2 := if ba.regionAbbreviation != "" then p1 + [RegionLabel + ba.regionAbbreviation] else p1;
    if ba.customerType != "" then p2 + [TypeLabel + ops.title(ba.customerType)] else p2
  }

  /** The `hw_version` parts: the service point, then the meter point and the
      premise when present. */
  function HardwareParts(sp: string, m: Meter, ba: BillingAccount): seq<string>
  {
    var p1 := [ServicePointLabel + sp];
    var p2 := if m.meterPointNumber != "" then p1 + [MeterPointLabel + m.meterPointNumber] else p1;
    if ba.premiseNumber != "" then p2 + [PremiseLabel + ba.premiseNumber] else p2
  }

  /** The model: the fuel, title-cased, before the base model when the
      meter has a fuel type. */
  function ModelFor(m: Meter, ops: TextOps): string
  {
    if m.fuelType != "" then ops.title(m.fuelType) + " " + BaseModel(m) else BaseModel(m)
  }

  /** `suggested_area`: the first comma-separated part of the address,
      stripped and title-cased, when there are at least two parts. */
  function SuggestedAreaFor(addr: string, ops: TextOps): Option<string>
  {
    if addr != "" && HasComma(addr) then Some(ops.title(ops.strip(BeforeFirstComma(addr)))) else None
  }

  /** `sw_version`: the version parts joined, when there are any. */
  function SwVersionFor(m: Meter, ba: BillingAccount, ops: TextOps): Option<string>
  {
    var vp := VersionParts(m, ba, ops);
    if vp != [] then Some(Join(vp, PartSeparator)) else None
  }

  /** The device record for a service point without meter data. */
  function FallbackDeviceInfo(sp: string): DeviceInfo
  {
    DeviceInfo({(Domain, sp)}, sp, "Meter " + sp, Manufacturer, None, None, None, None, None)
  }

  /** The device record for a service point, with or without meter data. */
  function DeviceInfoFor(md: Option<MeterData>, sp: string, ops: TextOps): DeviceInfo
  {
    match md
    case None => FallbackDeviceInfo(sp)
    case Some(d) =>
      var m := d.meter;
      var ba := d.billingAccount;
      DeviceInfo(
        {(Domain, sp)},
        if m.meterNumber != "" then m.meterNumber else sp,
        if m.fuelType != "" then ops.title(m.fuelType) + " Meter" else "Meter " + sp,
        Manufacturer,
        Some(ModelFor(m, ops)),
        Some(ConfigurationUrl),
        SuggestedAreaFor(ba.serviceAddress, ops),
        SwVersionFor(m, ba, ops),
        Some(Join(HardwareParts(sp, m, ba), PartSeparator)))
  }

  /** `_build_device_info`, given the coordinator's meter data for the
      service point. */
  method BuildDeviceInfo(md: Option<MeterData>, sp: string, ops: TextOps) returns (info: DeviceInfo)
    ensures info == DeviceInfoFor(md, sp, ops)
  {
    if md.None? {
      return DeviceInfo({(Domain, sp)}, sp, "Meter " + sp, Manufacturer, None, None, None, None, None);
    }
    var meter := md.value.meter;
    var ba := md.value.billingAccount;
    var meterNumber := if meter.meterNumber != "" then meter.meterNumber else sp;
    var fuelType := meter.fuelType;
    var name := if fuelType != "" then ops.title(fuelType) + " Meter" else "Meter " + sp;
    var model: string;
    if meter.hasAmiSmartMeter {
      model := "AMI Smart Meter";
    } else if meter.isSmartMeter {
      model := "Smart Meter";
    } else {
      model := "Standard Meter";
    }
    if fuelType != "" {
      model := ops.title(fuelType) + " " + model;
    }
    assert model == ModelFor(meter, ops);
    var suggestedArea := BuildSuggestedArea(ba.serviceAddress, ops);
    var versionParts := BuildVersionParts(meter, ba, ops);
    var swVersion: Option<string> := None;
    if versionParts != [] {
      swVersion := Some(Join(versionParts, PartSeparator));
    }
    var hwParts := BuildHardwareParts(sp, meter, ba);
    var hwVersion: Option<string> := None;
    if hwParts != [] {
      hwVersion := Some(Join(hwParts, PartSeparator));
    }
    info := DeviceInfo({(Domain, sp)}, meterNumber, name, Manufacturer, Some(model), Some(ConfigurationUrl),
      suggestedArea, swVersion, hwVersion);
  }

  /** The `suggested_area` step of `_build_device_info`. */
  method BuildSuggestedArea(serviceAddress: string, ops: TextOps) returns (area: Option<string>)
    ensures area == SuggestedAreaFor(serviceAddress, ops)
  {
    area := None;
    if serviceAddress != "" {
      var first := BeforeFirstComma(serviceAddress);
      if |first| < |serviceAddress| {
        area := Some(ops.title(ops.strip(first)));
      }
    }
  }

  /** The `version_parts` steps of `_build_device_info`. */
  method BuildVersionParts(meter: Meter, ba: BillingAccount, ops: TextOps) returns (versionParts: seq<string>)
    ensures versionParts == VersionParts(meter, ba, ops)
  {
    versionParts := [];
    if meter.deviceCode != "" {
      versionParts := versionParts + [DeviceLabel + meter.deviceCode];
    }
    if ba.regionAbbreviation != "" {
      versionParts := versionParts + [RegionLabel + ba.regionAbbreviation];
    }
    if ba.customerType != "" {
      versionParts := versionParts + [TypeLabel + ops.title(ba.customerType)];
    }
  }

  /** The `hw_parts` steps of `_build_device_info`. */
  method BuildHardwareParts(sp: string, meter: Meter, ba: BillingAccount) returns (hwParts: seq<string>)
    ensures hwParts == HardwareParts(sp, meter, ba)
  {
    hwParts := [];
    hwParts := hwParts + [ServicePointLabel + sp];
    if meter.meterPointNumber != "" {
      hwParts := hwParts + [MeterPointLabel + meter.meterPointNumber];
    }
    if ba.premiseNumber != "" {
      hwParts := hwParts + [PremiseLabel + ba.premiseNumber];
    }
  }

  /** Without meter data the record holds only the service point, as
      identifier and serial, the name "Meter <sp>" and the manufacturer. */
  lemma NoMeterDataDevice(sp: string, ops: TextOps)
    ensures var info := DeviceInfoFor(None, sp, ops);
      info.identifiers == {(Domain, sp)} && info.serialNumber == sp
      && info.name == "Meter " + sp && info.manufacturer == Manufacturer
      && info.model.None? && info.configurationUrl.None? && info.suggestedArea.None?
      && info.swVersion.None? && info.hwVersion.None?
  {
  }

  /** With meter data: the name is the title-cased fuel and "Meter", or
      "Meter <sp>" without a fuel type; the serial is the meter number, or the
      service point without one; the model names the fuel and the best
      capability, AMI before smart before standard. */
  lemma NameSerialAndModel(d: MeterData, sp: string, ops: TextOps)
    ensures var info := DeviceInfoFor(Some(d), sp, ops);
      var m := d.meter;
      var prefix := if m.fuelType != "" then ops.title(m.fuelType) + " " else "";
      info.identifiers == {(Domain, sp)} && info.manufacturer == Manufacturer
      && info.name == (if m.fuelType != "" then ops.title(m.fuelType) + " Meter" else "Meter " + sp)
      && info.serialNumber == (if m.meterNumber != "" then m.meterNumber else sp)
      && (m.hasAmiSmartMeter ==> info.model == Some(prefix + "AMI Smart Meter"))
      && (!m.hasAmiSmartMeter && m.isSmartMeter ==> info.model == Some(prefix + "Smart Meter"))
      && (!m.hasAmiSmartMeter && !m.isSmartMeter ==> info.model == Some(prefix + "Standard Meter"))
  {
    var m := d.meter;
    if m.fuelType != "" {
      assert ModelFor(m, ops) == (ops.title(m.fuelType) + " ") + BaseModel(m);
    } else {
      assert "" + BaseModel(m) == BaseModel(m);
    }
  }

  /** A suggested area exists exactly when the address has a comma, and it
      is the stripped, title-cased text before the first comma, which itself
      holds no comma. */
  lemma SuggestedAreaBeforeFirstComma(addr: string, ops: TextOps)
    ensures var area := SuggestedAreaFor(addr, ops);
      (area.Some? <==> HasComma(addr))
      && (area.Some? ==>
        exists k :: 0 <= k < |addr| && addr[k] == ','
          && area.value == ops.title(ops.strip(addr[..k]))
          && (forall j :: 0 <= j < k ==> addr[j] != ','))
  {
    if HasComma(addr) {
      var first := BeforeFirstComma(addr);
      assert addr[|first|] == ',' && first == addr[..|first|];
    }
  }

  /** `sw_version` exists exactly when the device code, the region
      abbreviation or the customer type is non-empty; it then begins with the
      first of them in that order, and is exactly that part when it is the
      only one. */
  lemma SoftwareVersionParts(d: MeterData, sp: string, ops: TextOps)
    ensures var info := DeviceInfoFor(Some(d), sp, ops);
      var m := d.meter;
      var ba := d.billingAccount;
      var first :=
        if m.deviceCode != "" then DeviceLabel + m.deviceCode
        else if ba.regionAbbreviation != "" then RegionLabel + ba.regionAbbreviation
        else TypeLabel + ops.title(ba.customerType);
      var count := (if m.deviceCode != "" then 1 else 0) + (if ba.regionAbbreviation != "" then 1 else 0)
        + (if ba.customerType != "" then 1 else 0);
      (info.swVersion.Some? <==> count > 0)
      && (info.swVersion.Some? ==>
        |first| <= |info.swVersion.value| && info.swVersion.value[..|first|] == first
        && (count == 1 ==> info.swVersion.value == first))
  {
    var vp := VersionParts(d.meter, d.billingAccount, ops);
    if vp != [] {
      JoinStartsWithFirst(vp, PartSeparator);
    }
  }

  /** `hw_version` is always set and begins with "SP: <sp>"; without a meter
      point and a premise it is exactly that. */
  lemma HardwareVersionLeadsWithServicePoint(d: MeterData, sp: string, ops: TextOps)
    ensures var info := DeviceInfoFor(Some(d), sp, ops);
      var lead := ServicePointLabel + sp;
      info.hwVersion.Some?
      && |lead| <= |info.hwVersion.value| && info.hwVersion.value[..|lead|] == lead
      && (d.meter.meterPointNumber == "" && d.billingAccount.premiseNumber == "" ==> info.hwVersion.value == lead)
  {
    JoinStartsWithFirst(HardwareParts(sp, d.meter, d.billingAccount), PartSeparator);
  }

  /** With a device code, a region abbreviation and a customer type,
      `sw_version` lists all three in that order, separated by " | ". */
  lemma SoftwareVersionInOrder(d: MeterData, sp: string, ops: TextOps)
    requires d.meter.deviceCode != "" && d.billingAccount.regionAbbreviation != ""
    requires d.billingAccount.customerType != ""
    ensures var ba := d.billingAccount;
      DeviceInfoFor(Some(d), sp, ops).swVersion
        == Some((DeviceLabel + d.meter.deviceCode) + PartSeparator
                + (RegionLabel + ba.regionAbbreviation) + PartSeparator
                + (TypeLabel + ops.title(ba.customerType)))
  {
    var ba := d.billingAccount;
    var a, b, c := DeviceLabel + d.meter.deviceCode, RegionLabel + ba.regionAbbreviation, TypeLabel + ops.title(ba.customerType);
    assert VersionParts(d.meter, ba, ops) == [a, b, c];
    JoinThree(a, b, c, PartSeparator);
  }

  /** With a meter point and a premise, `hw_version` lists the service point,
      the meter point and the premise in that order, separated by " | ". */
  lemma HardwareVersionInOrder(d: MeterData, sp: string, ops: TextOps)
    requires d.meter.meterPointNumber != "" && d.billingAccount.premiseNumber != ""
    ensures DeviceInfoFor(Some(d), sp, ops).hwVersion
      == Some((ServicePointLabel + sp) + PartSeparator
              + (MeterPointLabel + d.meter.meterPointNumber) + PartSeparator
              + (PremiseLabel + d.billingAccount.premiseNumber))
  {
    var a, b, c := ServicePointLabel + sp, MeterPointLabel + d.meter.meterPointNumber, PremiseLabel + d.billingAccount.premiseNumber;
    assert HardwareParts(sp, d.meter, d.billingAccount) == [a, b, c];
    JoinThree(a, b, c, PartSeparator);
  }

  /** A `NationalGridEntity` for one service point of a coordinator. */
  class Entity {
    const coordinator: Coordinator
    const servicePointNumber: string
    /** `_attr_device_info`, built once when the entity is created. */
    var deviceInfo: DeviceInfo

    constructor (coordinator: Coordinator, servicePointNumber: string, ops: TextOps)
      ensures this.coordinator == coordinator && this.servicePointNumber == servicePointNumber
      ensures deviceInfo == DeviceInfoFor(MeterDataFor(coordinator.data, servicePointNumber), servicePointNumber, ops)
    {
      this.coordinator := coordinator;
      this.servicePointNumber := servicePointNumber;
      new;
      deviceInfo := BuildDeviceInfo(MeterDataFor(coordinator.data, servicePointNumber), servicePointNumber, ops);
    }

    /** `account_id`. */
    function AccountId(): (r: Option<string>)
      reads coordinator
      ensures var md := MeterDataFor(coordinator.data, servicePointNumber);
        (r.None? <==> md.None?) && (r.Some? ==> r.value == md.value.accountId)
    {
      match MeterDataFor(coordinator.data, servicePointNumber)
      case None => None
      case Some(md) => Some(md.accountId)
    }

    /** `meter`. */
    function Meter(): (r: Option<Records.Meter>)
      reads coordinator
      ensures var md := MeterDataFor(coordinator.data, servicePointNumber);
        (r.None? <==> md.None?) && (r.Some? ==> r.value == md.value.meter)
    {
      match MeterDataFor(coordinator.data, servicePointNumber)
      case None => None
      case Some(md) => Some(md.meter)
    }

    /** `billing_account`. */
    function BillingAccount(): (r: Option<Records.BillingAccount>)
      reads coordinator
      ensures var md := MeterDataFor(coordinator.data, servicePointNumber);
        (r.None? <==> md.None?) && (r.Some? ==> r.value == md.value.billingAccount)
    {
      match MeterDataFor(coordinator.data, servicePointNumber)
      case None => None
      case Some(md) => Some(md.billingAccount)
    }
  }
}
