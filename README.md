# KNXnet/IP connection-management codec, modelled in Dafny

This project models the binary codec in `knx/proto/control.go` of knx-go. The codec covers the
KNXnet/IP frames that open, query and close a tunnelling connection: CONNECT_REQUEST/RESPONSE,
CONNECTIONSTATE_REQUEST/RESPONSE and DISCONNECT_REQUEST/RESPONSE (KNX Standard, Volume 3 Part 8
Chapter 2). It also models the tunnelling connection request information block `{4, 4, layer, 0}`
(Volume 3 Part 8 Chapter 4).

- `wire.dfy` (module `Wire`): the byte type and the host info record. Host info is an opaque
  record that is always `HL` = 8 bytes on the wire. The module also holds the sequential field
  readers (`ReadU8` and `ReadHost` at a cursor offset; each gives `None` when the input is too short)
  and the field writer `WriteSome`, which concatenates the encodings of the fields.
- `fmt.dfy` (module `Fmt`): Go's `%#x` of one byte. This is `"0x"` followed by lower-case hex
  digits with no zero padding, so 5 gives `0x5` and 0x99 gives `0x99`.
- `codes.dfy` (module `Codes`): the open one-byte enumerations `TunnelLayer` (constants Data 0x02,
  Raw 0x04, Busmon 0x80), `ConnResStatus` and `ConnState`. They are newtypes over 0..255 with
  `String()` (and `Error()` for `ConnResStatus`). The module proves that an unnamed code is written
  as its `%#x` form and that no two codes share a description.
- `control.dfy` (module `Control`): the six messages as classes whose fields `Unpack` fills in
  place and whose `WriteTo` emits them in order.
  - Three layouts are stated as functions on values: `ConnReqLayout`; `ChannelHostLayout`, shared
    by ConnRes, ConnStateReq and DiscReq; and `ChannelStatusLayout`, shared by ConnStateRes and DiscRes.
  - The outcome of each `Unpack` is a declarative function of the input and the receiver's prior
    fields (`UnpackConnReq`, `UnpackChannelHost`, `UnpackChannelStatus`).
  - Each method's `ensures` ties it to these functions, and round-trip lemmas relate the layouts
    and the decoders.

The model follows the code in these points, where a plain description of the frames would read differently:

- Unknown codes are formatted with `%#x` (`knx/proto/control.go:97`, `:172`): lower-case with no
  padding, not two upper-case digits.
- `ConnRes` has no `WriteTo`, so the model has none either.
- `ConnRes.Status` is a `ConnResStatus` and `ConnStateRes.Status` is a `ConnState`. The `Status`
  of `ConnStateReq`, `DiscReq` and `DiscRes` is a raw byte.

`ConnReq.Unpack` always reads all six fields before it checks the two markers. On a format error it
therefore returns the full count and leaves the fields filled in. The length error takes precedence
over the type error. On short input, only the fields read before the input ran out are overwritten.
The functions take the receiver's prior fields as a parameter for this reason.

## Model

| member | source | states |
|---|---|---|
| `Wire.WriteSomeAppend` | knx/proto/control.go:67 | writing a run of fields and then another run emits the same bytes as writing their concatenation in one call |
| `Fmt.HashX` | knx/proto/control.go:97 | `%#x` of a byte is "0x" followed by 1 or 2 lower-case hex digits that denote the value; the first digit is 0 only when the value is 0 (no padding) |
| `Fmt.HashXInjective` | knx/proto/control.go:172 | two different bytes never format to the same `%#x` text |
| `Codes.ConnResStatus.String` | knx/proto/control.go:82-99 | 0x00, 0x22, 0x23 and 0x24 give their four fixed sentences; every other code is described as "Unknown status code 0x" followed by 1 or 2 lower-case hex digits whose value is the code, with no zero padding. `Codes.ConnResStatusStringInjective` and `Codes.ConnResStatusExamples` add that the display is lossless and pin concrete texts |
| `Codes.ConnState.String` | knx/proto/control.go:157-174 | 0x00, 0x21, 0x26 and 0x27 give their four fixed sentences; every other state is described as "Unknown connection state 0x" followed by 1 or 2 lower-case hex digits whose value is the state, with no zero padding. `Codes.ConnStateStringInjective` and `Codes.ConnStateExamples` add that the display is lossless and pin concrete texts |
| `Codes.ConnResStatus.Error` | knx/proto/control.go:101-104 | the error message of a status code is exactly its description |
| `Codes.ConnResStatusStringInjective` | knx/proto/control.go:82-99 | the status display is total and lossless: equal descriptions imply equal codes (the four sentences differ from each other and from every fallback text) |
| `Codes.ConnStateStringInjective` | knx/proto/control.go:157-174 | the state display is total and lossless: equal descriptions imply equal states |
| `Codes.ConnResStatusExamples` | knx/proto/control.go:74-99 | the four named status codes give their fixed sentences; 0x99 gives "Unknown status code 0x99"; `Error()` of 0x05 gives "Unknown status code 0x5" |
| `Codes.ConnStateExamples` | knx/proto/control.go:149-174 | the four named states give their fixed sentences (0x27 gives "Gateway encountered a KNX error"); 0xab gives "Unknown connection state 0xab" and 0x05 gives "Unknown connection state 0x5" |
| `Control.ConnReqLayout` | knx/proto/control.go:60-68 | a connection request is encoded as enc(Control) ++ enc(Tunnel) ++ [4, 4, Layer, 0], which is 2*HL + 4 bytes |
| `Control.UnpackConnReq` | knx/proto/control.go:39-57 | fails with ShortInput exactly when fewer than 2*HL + 4 bytes are given and never counts past the input; otherwise consumes 2*HL + 4. It fails with InvalidStructLength exactly when the length byte is not 4, whatever the type byte holds, and with InvalidConnType exactly when the length is 4 and the type is not. The host records and the layer are taken from the input even on a format error. On success the consumed bytes are the encoding of the result, except that any reserved byte is accepted. Fields the input does not reach keep their prior values: all of them below HL bytes, the tunnel below 2*HL bytes, and the layer below 2*HL + 3 bytes |
| `Control.ConnReqRoundTrip` | knx/proto/control.go:39-68 | decoding the encoding of any request, followed by any trailing bytes, yields the same Control, Tunnel and Layer, no error, and a count of exactly the encoding's length |
| `Control.ConnReqReservedIgnored` | knx/proto/control.go:40-47 | a request whose reserved byte is any value still decodes without error to the same fields; since re-encoding writes 0, only 0 survives a decode/encode cycle |
| `Control.ConnReqExample` | knx/proto/control.go:60-68 | with two 8-byte host records and layer 0x02 the encoding is 20 bytes ending in 4, 4, 2, 0, and decoding it recovers all fields and consumes 20 bytes |
| `Control.ChannelHostLayout` | knx/proto/control.go:140-143 | ConnStateReq and DiscReq encode as [Channel, Status] ++ enc(Control), which is 2 + HL bytes |
| `Control.UnpackChannelHost` | knx/proto/control.go:118-121 | reading channel, status and control succeeds exactly when at least 2 + HL bytes are given, with ShortInput as the only error; on success it consumes 2 + HL bytes whose layout is the result; it never counts past the input; on empty input nothing changes, with fewer than 2 bytes the status keeps its prior value, and on any short input the control record keeps its prior value |
| `Control.ChannelHostRoundTrip` | knx/proto/control.go:136-143 | decoding [Channel, Status] ++ enc(Control) ++ rest gives back exactly those fields and consumes 2 + HL bytes (also the layout ConnRes.Unpack reads) |
| `Control.ChannelStatusLayout` | knx/proto/control.go:193-195 | ConnStateRes and DiscRes encode as exactly the two bytes [Channel, Status] |
| `Control.UnpackChannelStatus` | knx/proto/control.go:188-190 | reading channel and status succeeds exactly when at least 2 bytes are given, consumes exactly 2, and the consumed bytes are [Channel, Status] of the result; any status byte is accepted; on empty input nothing changes, and with 1 byte the status keeps its prior value |
| `Control.ChannelStatusRoundTrip` | knx/proto/control.go:231-238 | decoding [Channel, Status] ++ rest gives back the same channel and status for every status byte, including unnamed ones |
| `Control.ConnStateResExample` | knx/proto/control.go:188-190 | the bytes [0x01, 0x27] decode to channel 1 and status ConnStateKNXError, described as "Gateway encountered a KNX error" |
| `Control.ConnReq.constructor` | knx/proto/control.go:27-31 | a connection request holds exactly the given control, tunnel and layer |
| `Control.ConnReq.Unpack` | knx/proto/control.go:39-58 | reads control, tunnel, length, type, layer and reserved in that order with a cursor, storing Control, Tunnel and Layer as it goes; the new fields, count and error are exactly those given by `UnpackConnReq` of the input and the old fields |
| `Control.ConnReq.WriteTo` | knx/proto/control.go:60-68 | copies the info block into a fresh local array and sets its byte 2 to the layer; the constant itself stays [4, 4, 0, 0]. It writes control, tunnel and that array, emitting exactly `ConnReqLayout` of the fields and reporting the number of bytes written |
| `Control.ConnRes.constructor` | knx/proto/control.go:107-111 | a connection response holds exactly the given channel, status and control |
| `Control.ConnRes.Unpack` | knx/proto/control.go:119-121 | reads channel, status (as a ConnResStatus) and control in order; the new fields, count and error are exactly `UnpackChannelHost` of the input and the old fields |
| `Control.ConnStateReq.constructor` | knx/proto/control.go:124-128 | a connection-state request holds exactly the given channel, status and control |
| `Control.ConnStateReq.Unpack` | knx/proto/control.go:136-138 | reads channel, raw status and control in order; the new fields, count and error are exactly `UnpackChannelHost` of the input and the old fields |
| `Control.ConnStateReq.WriteTo` | knx/proto/control.go:141-143 | emits exactly `ChannelHostLayout` of the fields and reports the number of bytes written |
| `Control.ConnStateRes.constructor` | knx/proto/control.go:177-180 | a connection-state response holds exactly the given channel and state |
| `Control.ConnStateRes.Unpack` | knx/proto/control.go:188-190 | reads channel and status (as a ConnState) in order; the new fields, count and error are exactly `UnpackChannelStatus` of the input and the old fields |
| `Control.ConnStateRes.WriteTo` | knx/proto/control.go:193-195 | emits exactly `ChannelStatusLayout` of the fields (2 bytes) and reports the number of bytes written |
| `Control.DiscReq.constructor` | knx/proto/control.go:198-202 | a disconnect request holds exactly the given channel, status and control |
| `Control.DiscReq.Unpack` | knx/proto/control.go:210-212 | reads channel, raw status and control in order; the new fields, count and error are exactly `UnpackChannelHost` of the input and the old fields |
| `Control.DiscReq.WriteTo` | knx/proto/control.go:215-217 | emits exactly `ChannelHostLayout` of the fields and reports the number of bytes written |
| `Control.DiscRes.constructor` | knx/proto/control.go:220-223 | a disconnect response holds exactly the given channel and status |
| `Control.DiscRes.Unpack` | knx/proto/control.go:231-233 | reads channel and raw status in order; the new fields, count and error are exactly `UnpackChannelStatus` of the input and the old fields |
| `Control.DiscRes.WriteTo` | knx/proto/control.go:236-238 | emits exactly `ChannelStatusLayout` of the fields (2 bytes) and reports the number of bytes written |
| `Control.ServicesDistinct` | knx/proto/control.go:33-36 | each message's `Service()` returns its own identifier: ConnReq (control.go:34-36), ConnRes (114-116), ConnStateReq (131-133), ConnStateRes (183-185), DiscReq (205-207) and DiscRes (226-228); no two of the six are equal |

## Left out

- Sink behaviour of `io.Writer` (partial writes, write errors, the `int64` count): each `WriteTo`
  returns the bytes that reach the sink and their number. Writing is modelled as infallible.
- Host info's internal layout and its own decoder checks: host info is not part of this model. It is
  an opaque record of `HL` = 8 bytes, its decoder accepts any 8 bytes, and its round trip
  (`Wire.HostRoundTrip`) holds by construction. An error that the real host-info decoder could raise
  is therefore not modelled.
- Internals of `util.UnpackSome` and `encoding.WriteSome`, which are not part of this model. They are
  modelled as reading or writing each field in order, with a read failing when the field does not fit.
  A host record that does not fit is modelled as leaving its field untouched.
- `Control.UnpackConnReq`, `Control.UnpackChannelHost`, `Control.UnpackChannelStatus`: the count
  returned together with ShortInput is modelled as the bytes of the fields read completely. The helper
  is outside this model, so no lemma states or relies on that count beyond its being at most the input length.
- `ServiceID` values: the identifiers are defined outside this file. `Service()` returns one
  constructor of the `ServiceId` datatype, and the numeric service codes are not modelled.
- General `fmt.Sprintf`: only `%#x` of a single byte is modelled.
- Go error identity and error texts: errors are the three constructors `ShortInput`,
  `InvalidStructLength` and `InvalidConnType`.
- `connReqInfo` is a package-level variable in Go. Here it is the constant `ConnReqInfo`, so code
  elsewhere in the package that reassigns it is not modelled.
