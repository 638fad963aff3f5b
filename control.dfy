/**
 * Connection-management frames of KNXnet/IP (KNX Standard, Volume 3 Part 8
 * Chapter 2): connection, connection-state and disconnect requests and
 * responses, and the tunnelling connection request information block
 * (Volume 3 Part 8 Chapter 4).
 *
 * Each message is an object whose Unpack fills its fields in place from a
 * byte slice and reports how many bytes it consumed, and whose WriteTo
 * emits the fields in the same order. The wire layouts and what Unpack
 * leaves behind are stated first as functions on values; the methods are
 * proved against them.
 */
module Control {
  import opened Wire
  import opened Codes

  /** The errors Unpack reports. */
  datatype UnpackError =
    | ShortInput            // the input ends inside a field
    | InvalidStructLength   // connection request info length byte is not 4
    | InvalidConnType       // connection type byte is not 4 (tunnel connection)

  /** The service identifiers an outer frame dispatches on. */
  datatype ServiceId =
    | ConnReqService | ConnResService
    | ConnStateReqService | ConnStateResService
    | DiscReqService | DiscResService

  /** The receiver's fields after Unpack, the count it returns and its error. */
  datatype Unpacked<T> = Unpacked(value: T, n: nat, err: Option<UnpackError>)

  // =====================================================================
  // Connection request: [control][tunnel][4][4][layer][0]
  // =====================================================================

  datatype ConnReqFields = ConnReqFields(control: HostInfo, tunnel: HostInfo, layer: TunnelLayer)

  /** Structure length and connection type (tunnel connection) of the info block. */
  const ConnReqInfo: seq<byte> := [4, 4, 0, 0]

  const ConnReqSize: nat := 2 * HL + 4

  /** The encoding of a connection request. */
  function ConnReqLayout(f: ConnReqFields): (s: seq<byte>)
    ensures |s| == ConnReqSize
  {
    HostEncode(f.control) + HostEncode(f.tunnel) + [4, 4, f.layer as byte, 0]
  }

  /**
   * What ConnReq.Unpack does to fields `prior`: control, tunnel, length,
   * connection type, layer and a reserved byte are read in that order and
   * stored as they are read; the two markers are checked once all are read.
   */
  function UnpackConnReq(data: seq<byte>, prior: ConnReqFields): (r: Unpacked<ConnReqFields>)
    ensures r.n <= |data|
    ensures r.err == Some(ShortInput) <==> |data| < ConnReqSize
    ensures r.err != Some(ShortInput) ==> r.n == ConnReqSize
    ensures r.err == Some(InvalidStructLength) <==> ConnReqSize <= |data| && data[2 * HL] != 4
    ensures r.err == Some(InvalidConnType) <==>
      ConnReqSize <= |data| && data[2 * HL] == 4 && data[2 * HL + 1] != 4
    // whatever the markers hold, the host records and the layer are taken from the input
    ensures ConnReqSize <= |data| ==>
      ConnReqLayout(r.value)[..2 * HL] == data[..2 * HL] && r.value.layer as byte == data[2 * HL + 2]
    // on success the consumed bytes are the encoding of the result, up to the reserved byte
    ensures r.err == None ==>
      data[..ConnReqSize] == ConnReqLayout(r.value)[2 * HL + 3 := data[2 * HL + 3]]
    // fields the input does not reach keep their prior values
    ensures |data| < HL ==> r.value == prior
    ensures |data| < 2 * HL ==> r.value.tunnel == prior.tunnel
    ensures |data| < 2 * HL + 3 ==> r.value.layer == prior.layer
  {
    var control := if HL <= |data| then HostDecode(data[..HL]) else prior.control;
    var tunnel := if 2 * HL <= |data| then HostDecode(data[HL..2 * HL]) else prior.tunnel;
    var layer := if 2 * HL + 3 <= |data| then data[2 * HL + 2] as TunnelLayer else prior.layer;
    var fields := ConnReqFields(control, tunnel, layer);
    if |data| < ConnReqSize then
      Unpacked(fields, if |data| < HL then 0 else if |data| < 2 * HL then HL else |data|, Some(ShortInput))
    else if data[2 * HL] != 4 then
      Unpacked(fields, ConnReqSize, Some(InvalidStructLength))
    else if data[2 * HL + 1] != 4 then
      Unpacked(fields, ConnReqSize, Some(InvalidConnType))
    else
      Unpacked(fields, ConnReqSize, None)
  }

  /** Decoding an encoded request gives it back and consumes exactly its encoding. */
  lemma ConnReqRoundTrip(f: ConnReqFields, prior: ConnReqFields, rest: seq<byte>)
    ensures UnpackConnReq(ConnReqLayout(f) + rest, prior) == Unpacked(f, ConnReqSize, None)
  {
    var data := ConnReqLayout(f) + rest;
    assert data[..HL] == HostEncode(f.control);
    assert data[HL..2 * HL] == HostEncode(f.tunnel);
    assert data[2 * HL..2 * HL + 4] == [4, 4, f.layer as byte, 0];
  }

  /** Any reserved byte is accepted, and re-encoding writes it as 0. */
  lemma ConnReqReservedIgnored(f: ConnReqFields, reserved: byte, prior: ConnReqFields, rest: seq<byte>)
    ensures var data := ConnReqLayout(f)[2 * HL + 3 := reserved] + rest;
      UnpackConnReq(data, prior) == Unpacked(f, ConnReqSize, None)
  {
    var data := ConnReqLayout(f)[2 * HL + 3 := reserved] + rest;
    assert data[..HL] == HostEncode(f.control);
    assert data[HL..2 * HL] == HostEncode(f.tunnel);
    assert data[2 * HL..2 * HL + 4] == [4, 4, f.layer as byte, reserved];
  }

  // =====================================================================
  // Channel, status and control endpoint: [channel][status][control]
  // (connection response, connection-state request, disconnect request)
  // =====================================================================

  datatype ChannelHost = ChannelHost(channel: byte, status: byte, control: HostInfo)

  const ChannelHostSize: nat := 2 + HL

  function ChannelHostLayout(v: ChannelHost): (s: seq<byte>)
    ensures |s| == ChannelHostSize
  {
    [v.channel, v.status] + HostEncode(v.control)
  }

  /** What Unpack of channel, status and control does to fields `prior`. */
  function UnpackChannelHost(data: seq<byte>, prior: ChannelHost): (r: Unpacked<ChannelHost>)
    ensures r.n <= |data|
    ensures r.err == None <==> ChannelHostSize <= |data|
    ensures r.err == None || r.err == Some(ShortInput)
    ensures r.err == None ==> r.n == ChannelHostSize && ChannelHostLayout(r.value) == data[..ChannelHostSize]
    ensures |data| == 0 ==> r.value == prior
    ensures |data| < 2 ==> r.value.status == prior.status
    ensures |data| < ChannelHostSize ==> r.value.control == prior.control
  {
    var channel := if 1 <= |data| then data[0] else prior.channel;
    var status := if 2 <= |data| then data[1] else prior.status;
    var control := if ChannelHostSize <= |data| then HostDecode(data[2..ChannelHostSize]) else prior.control;
    var fields := ChannelHost(channel, status, control);
    if |data| < ChannelHostSize then
      Unpacked(fields, if |data| < 2 then |data| else 2, Some(ShortInput))
    else
      Unpacked(fields, ChannelHostSize, None)
  }

  lemma ChannelHostRoundTrip(v: ChannelHost, prior: ChannelHost, rest: seq<byte>)
    ensures UnpackChannelHost(ChannelHostLayout(v) + rest, prior) == Unpacked(v, ChannelHostSize, None)
  {
  }

  // =====================================================================
  // Channel and status: [channel][status]
  // (connection-state response, disconnect response)
  // =====================================================================

  datatype ChannelStatus = ChannelStatus(channel: byte, status: byte)

  const ChannelStatusSize: nat := 2

  function ChannelStatusLayout(v: ChannelStatus): (s: seq<byte>)
    ensures |s| == ChannelStatusSize
  {
    [v.channel, v.status]
  }

  /** What Unpack of channel and status does to fields `prior`. */
  function UnpackChannelStatus(data: seq<byte>, prior: ChannelStatus): (r: Unpacked<ChannelStatus>)
    ensures r.n <= |data|
    ensures r.err == None <==> ChannelStatusSize <= |data|
    ensures r.err == None || r.err == Some(ShortInput)
    ensures r.err == None ==> r.n == ChannelStatusSize && ChannelStatusLayout(r.value) == data[..ChannelStatusSize]
    ensures |data| == 0 ==> r.value == prior
    ensures |data| < 2 ==> r.value.status == prior.status
  {
    var channel := if 1 <= |data| then data[0] else prior.channel;
    var status := if 2 <= |data| then data[1] else prior.status;
    if |data| < ChannelStatusSize then
      Unpacked(ChannelStatus(channel, status), |data|, Some(ShortInput))
    else
      Unpacked(ChannelStatus(channel, status), ChannelStatusSize, None)
  }

  lemma ChannelStatusRoundTrip(v: ChannelStatus, prior: ChannelStatus, rest: seq<byte>)
    ensures UnpackChannelStatus(ChannelStatusLayout(v) + rest, prior) == Unpacked(v, ChannelStatusSize, None)
  {
  }

  /**
   * Two 8-byte host records and the data-link layer give a 20-byte request
   * ending in 4, 4, 2, 0, which decodes back in full.
   */
  lemma ConnReqExample(control: HostInfo, tunnel: HostInfo, prior: ConnReqFields)
    ensures var f := ConnReqFields(control, tunnel, TunnelLayerData);
      var s := ConnReqLayout(f);
      && |s| == 20 && s[16..] == [4, 4, 2, 0]
      && UnpackConnReq(s, prior) == Unpacked(f, 20, None)
  {
  }

  /** The response bytes 1, 0x27 report channel 1 in the KNX-error state. */
  lemma ConnStateResExample(prior: ChannelStatus)
    ensures var r := UnpackChannelStatus([1, 0x27], prior);
      && r == Unpacked(ChannelStatus(1, 0x27), 2, None)
      && r.value.status as ConnState == ConnStateKNXError
      && (r.value.status as ConnState).String() == "Gateway encountered a KNX error"
  {
  }

  // =====================================================================
  // The messages
  // =====================================================================

  /** A request for a tunnelling connection to a gateway. */
  class ConnReq {
    var Control: HostInfo
    var Tunnel: HostInfo
    var Layer: TunnelLayer

    constructor (control: HostInfo, tunnel: HostInfo, layer: TunnelLayer)
      ensures Control == control && Tunnel == tunnel && Layer == layer
    {
      Control, Tunnel, Layer := control, tunnel, layer;
    }

    function Fields(): ConnReqFields
      reads this
    {
      ConnReqFields(Control, Tunnel, Layer)
    }

    static function Service(): ServiceId
    {
      ConnReqService
    }

    method Unpack(data: seq<byte>) returns (n: nat, err: Option<UnpackError>)
      modifies this
      ensures Unpacked(Fields(), n, err) == UnpackConnReq(data, old(Fields()))
    {
      var at := 0;
      var control := ReadHost(data, at);
      if control.None? { return at, Some(ShortInput); }
      Control, at := control.value, at + HL;
      var tunnel := ReadHost(data, at);
      if tunnel.None? { return at, Some(ShortInput); }
      Tunnel, at := tunnel.value, at + HL;
      var length := ReadU8(data, at);
      if length.None? { return at, Some(ShortInput); }
      at := at + 1;
      var connType := ReadU8(data, at);
      if connType.None? { return at, Some(ShortInput); }
      at := at + 1;
      var layer := ReadU8(data, at);
      if layer.None? { return at, Some(ShortInput); }
      Layer, at := layer.value as TunnelLayer, at + 1;
      var reserved := ReadU8(data, at);
      if reserved.None? { return at, Some(ShortInput); }
      n := at + 1;

      if length.value != 4 {
        return n, Some(InvalidStructLength);
      }
      if connType.value != 4 {
        return n, Some(InvalidConnType);
      }
      err := None;
    }

    /** Writes control, tunnel and a copy of the info block carrying the layer. */
    method WriteTo() returns (written: seq<byte>, n: nat)
      ensures written == ConnReqLayout(Fields())
      ensures n == |written|
    {
      var cri := new byte[4](i requires 0 <= i < 4 => ConnReqInfo[i]);
      cri[2] := Layer as byte;
      var fields := [Host(Control), Host(Tunnel), Bytes(cri[..])];
      WriteSomeAppend([Host(Control)], [Host(Tunnel), Bytes(cri[..])]);
      WriteSomeAppend([Host(Tunnel)], [Bytes(cri[..])]);
      assert fields == [Host(Control)] + ([Host(Tunnel)] + [Bytes(cri[..])]);
      assert cri[..] == [4, 4, Layer as byte, 0];
      assert WriteSome([Bytes(cri[..])]) == cri[..] by { assert [Bytes(cri[..])][1..] == []; }
      assert WriteSome([Host(Tunnel)]) == HostEncode(Tunnel) by { assert [Host(Tunnel)][1..] == []; }
      assert WriteSome([Host(Control)]) == HostEncode(Control) by { assert [Host(Control)][1..] == []; }
      written := WriteSome(fields);
      n := |written|;
    }
  }

  /** A gateway's answer to a connection request. */
  class ConnRes {
    var Channel: byte
    var Status: ConnResStatus
    var Control: HostInfo

    constructor (channel: byte, status: ConnResStatus, control: HostInfo)
      ensures Channel == channel && Status == status && Control == control
    {
      Channel, Status, Control := channel, status, control;
    }

    function Fields(): ChannelHost
      reads this
    {
      ChannelHost(Channel, Status as byte, Control)
    }

    static function Service(): ServiceId
    {
      ConnResService
    }

    method Unpack(data: seq<byte>) returns (n: nat, err: Option<UnpackError>)
      modifies this
      ensures Unpacked(Fields(), n, err) == UnpackChannelHost(data, old(Fields()))
    {
      var channel := ReadU8(data, 0);
      if channel.None? { return 0, Some(ShortInput); }
      Channel := channel.value;
      var status := ReadU8(data, 1);
      if status.None? { return 1, Some(ShortInput); }
      Status := status.value as ConnResStatus;
      var control := ReadHost(data, 2);
      if control.None? { return 2, Some(ShortInput); }
      Control := control.value;
      return 2 + HL, None;
    }
  }

  /** A request for the state of a connection. */
  class ConnStateReq {
    var Channel: byte
    var Status: byte
    var Control: HostInfo

    constructor (channel: byte, status: byte, control: HostInfo)
      ensures Channel == channel && Status == status && Control == control
    {
      Channel, Status, Control := channel, status, control;
    }

    function Fields(): ChannelHost
      reads this
    {
      ChannelHost(Channel, Status, Control)
    }

    static function Service(): ServiceId
    {
      ConnStateReqService
    }

    method Unpack(data: seq<byte>) returns (n: nat, err: Option<UnpackError>)
      modifies this
      ensures Unpacked(Fields(), n, err) == UnpackChannelHost(data, old(Fields()))
    {
      var channel := ReadU8(data, 0);
      if channel.None? { return 0, Some(ShortInput); }
      Channel := channel.value;
      var status := ReadU8(data, 1);
      if status.None? { return 1, Some(ShortInput); }
      Status := status.value;
      var control := ReadHost(data, 2);
      if control.None? { return 2, Some(ShortInput); }
      Control := control.value;
      return 2 + HL, None;
    }

    method WriteTo() returns (written: seq<byte>, n: nat)
      ensures written == ChannelHostLayout(Fields())
      ensures n == |written|
    {
      WriteSomeAppend([U8(Channel)], [U8(Status), Host(Control)]);
      WriteSomeAppend([U8(Status)], [Host(Control)]);
      written := WriteSome([U8(Channel), U8(Status), Host(Control)]);
      n := |written|;
    }
  }

  /** A gateway's answer to a connection-state request. */
  class ConnStateRes {
    var Channel: byte
    var Status: ConnState

    constructor (channel: byte, status: ConnState)
      ensures Channel == channel && Status == status
    {
      Channel, Status := channel, status;
    }

    function Fields(): ChannelStatus
      reads this
    {
      ChannelStatus(Channel, Status as byte)
    }

    static function Service(): ServiceId
    {
      ConnStateResService
    }

    method Unpack(data: seq<byte>) returns (n: nat, err: Option<UnpackError>)
      modifies this
      ensures Unpacked(Fields(), n, err) == UnpackChannelStatus(data, old(Fields()))
    {
      var channel := ReadU8(data, 0);
      if channel.None? { return 0, Some(ShortInput); }
      Channel := channel.value;
      var status := ReadU8(data, 1);
      if status.None? { return 1, Some(ShortInput); }
      Status := status.value as ConnState;
      return 2, None;
    }

    method WriteTo() returns (written: seq<byte>, n: nat)
      ensures written == ChannelStatusLayout(Fields())
      ensures n == |written|
    {
      WriteSomeAppend([U8(Channel)], [U8(Status as byte)]);
      written := WriteSome([U8(Channel), U8(Status as byte)]);
      n := |written|;
    }
  }

  /** A request to terminate a connection. */
  class DiscReq {
    var Channel: byte
    var Status: byte
    var Control: HostInfo

    constructor (channel: byte, status: byte, control: HostInfo)
      ensures Channel == channel && Status == status && Control == control
    {
      Channel, Status, Control := channel, status, control;
    }

    function Fields(): ChannelHost
      reads this
    {
      ChannelHost(Channel, Status, Control)
    }

    static function Service(): ServiceId
    {
      DiscReqService
    }

    method Unpack(data: seq<byte>) returns (n: nat, err: Option<UnpackError>)
      modifies this
      ensures Unpacked(Fields(), n, err) == UnpackChannelHost(data, old(Fields()))
    {
      var channel := ReadU8(data, 0);
      if channel.None? { return 0, Some(ShortInput); }
      Channel := channel.value;
      var status := ReadU8(data, 1);
      if status.None? { return 1, Some(ShortInput); }
      Status := status.value;
      var control := ReadHost(data, 2);
      if control.None? { return 2, Some(ShortInput); }
      Control := control.value;
      return 2 + HL, None;
    }

    method WriteTo() returns (written: seq<byte>, n: nat)
      ensures written == ChannelHostLayout(Fields())
      ensures n == |written|
    {
      WriteSomeAppend([U8(Channel)], [U8(Status), Host(Control)]);
      WriteSomeAppend([U8(Status)], [Host(Control)]);
      written := WriteSome([U8(Channel), U8(Status), Host(Control)]);
      n := |written|;
    }
  }

  /** A gateway's answer to a disconnect request. */
  class DiscRes {
    var Channel: byte
    var Status: byte

    constructor (channel: byte, status: byte)
      ensures Channel == channel && Status == status
    {
      Channel, Status := channel, status;
    }

    function Fields(): ChannelStatus
      reads this
    {
      ChannelStatus(Channel, Status)
    }

    static function Service(): ServiceId
    {
      DiscResService
    }

    method Unpack(data: seq<byte>) returns (n: nat, err: Option<UnpackError>)
      modifies this
      ensures Unpacked(Fields(), n, err) == UnpackChannelStatus(data, old(Fields()))
    {
      var channel := ReadU8(data, 0);
      if channel.None? { return 0, Some(ShortInput); }
      Channel := channel.value;
      var status := ReadU8(data, 1);
      if status.None? { return 1, Some(ShortInput); }
      Status := status.value;
      return 2, None;
    }

    method WriteTo() returns (written: seq<byte>, n: nat)
      ensures written == ChannelStatusLayout(Fields())
      ensures n == |written|
    {
      WriteSomeAppend([U8(Channel)], [U8(Status)]);
      written := WriteSome([U8(Channel), U8(Status)]);
      n := |written|;
    }
  }

  /** Every message kind announces its own service identifier, and no two share one. */
  lemma ServicesDistinct()
    ensures ConnReq.Service() == ConnReqService && ConnRes.Service() == ConnResService
    ensures ConnStateReq.Service() == ConnStateReqService && ConnStateRes.Service() == ConnStateResService
    ensures DiscReq.Service() == DiscReqService && DiscRes.Service() == DiscResService
    ensures var ids := [ConnReq.Service(), ConnRes.Service(), ConnStateReq.Service(),
                        ConnStateRes.Service(), DiscReq.Service(), DiscRes.Service()];
      forall i, j | 0 <= i < j < |ids| :: ids[i] != ids[j]
  {
  }
}
