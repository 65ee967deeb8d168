/** `device_driver` and the `node` record built from it. */
module Drivers {
  import opened Errors
  import opened Scanner

  /** What `device_driver` returns for a switch model: the netmiko device
      type, the CLI command that lists transceiver readings, their units and
      the word positions of the transmit and receive readings. */
  datatype Driver = Driver(devtype: string, command: string, units: string, txPos: nat, rxPos: nat)

  /** The device table. The D-Link entry reuses the Ubiquiti device type. */
  const DeviceTable: map<string, Driver> := map[
    "ubiquiti_edgeswitch" := Driver("ubiquiti_edgeswitch", "show fiber-ports optics all", Dbm, 4, 5),
    "dlink_dgs" := Driver("ubiquiti_edgeswitch", "show interfaces transceiver", Milliwatt, 4, 5)
  ]

  /** `device_driver(model)`: the table entry, or KeyError for an unknown model. */
  function DeviceDriver(model: string): (r: Result<Driver>)
    ensures r.Ok? <==> model == "ubiquiti_edgeswitch" || model == "dlink_dgs"
    ensures r.Err? ==> r.error == KeyError(model)
    ensures r.Ok? ==> r.value.units == Milliwatt || r.value.units == Dbm
    ensures r.Ok? ==> r.value.devtype == "ubiquiti_edgeswitch"
  {
    if model in DeviceTable then Ok(DeviceTable[model]) else Err(KeyError(model))
  }

  /** The two table entries, field by field. */
  lemma DeviceTableEntries()
    ensures DeviceDriver("ubiquiti_edgeswitch")
         == Ok(Driver("ubiquiti_edgeswitch", "show fiber-ports optics all", "dBm", 4, 5))
    ensures DeviceDriver("dlink_dgs")
         == Ok(Driver("ubiquiti_edgeswitch", "show interfaces transceiver", "mW", 4, 5))
  {
  }

  /** A known model's units always have a fallback, so `strtofloat` never
      fails on a field read with them. */
  lemma KnownUnitsNeverFail(model: string, field: string)
    requires DeviceDriver(model).Ok?
    ensures StrToFloat(field, DeviceDriver(model).value.units).Ok?
  {
  }

  /** A `node`: a switch with its name, address, model and the parsing
      parameters of that model. Credentials and the SSH session are not part
      of this model. */
  datatype Node = Node(name: string, ip: string, model: string, driver: Driver)

  /** `node(name, ip, model, usr, pas)`: fails with KeyError on an unknown model. */
  function MakeNode(name: string, ip: string, model: string): (r: Result<Node>)
    ensures r.Ok? <==> DeviceDriver(model).Ok?
    ensures r.Err? ==> r.error == KeyError(model)
    ensures r.Ok? ==> r.value.name == name && r.value.ip == ip && r.value.model == model
    ensures r.Ok? ==> r.value.driver == DeviceDriver(model).value
  {
    match DeviceDriver(model)
    case Err(e) => Err(e)
    case Ok(d) => Ok(Node(name, ip, model, d))
  }
}
