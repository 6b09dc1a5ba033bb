/**
 * The base classes of every device: a device is identified by its vendor,
 * name, serial number and type ('Osc' or 'Gen') and owns a list of channels;
 * a channel is identified by its name and number and can be enabled.
 */
module Device {

  /** The four-part device id `{Vendor, Name, SerNo, DevType}`. */
  datatype DeviceId = DeviceId(vendor: string, name: string, serNo: string, devType: string)

  /** The two-part channel id `{Name, No}`; numbering starts at 1. */
  datatype ChannelId = ChannelId(name: string, no: int)

  /** The text `Vendor Name (SerNo)` the application uses for a device. */
  function DisplayName(id: DeviceId): string
  {
    id.vendor + " " + id.name + " (" + id.serNo + ")"
  }

  class Channel {
    const id: ChannelId
    var enabled: bool

    constructor (name: string, no: int)
      ensures id == ChannelId(name, no)
      ensures !enabled
    {
      id := ChannelId(name, no);
      enabled := false;
    }

    /** The `is_enabled` getter: the stored flag. */
    function IsEnabled(): (b: bool)
      reads this
      ensures b <==> enabled
    {
      enabled
    }
  }

  class Device {
    const id: DeviceId
    var ch: seq<Channel>

    constructor (vendor: string, name: string, serNo: string, devType: string)
      ensures id == DeviceId(vendor, name, serNo, devType)
      ensures ch == []
      ensures ChCnt() == 0
    {
      id := DeviceId(vendor, name, serNo, devType);
      ch := [];
    }

    /** `ch_cnt`: the number of channels in the channel list. */
    function ChCnt(): (n: nat)
      reads this
      ensures n == |ch|
    {
      |ch|
    }
  }
}
