/**
 * The one-byte code types of the connection-management frames. Each is an
 * open enumeration: every byte is a legal value, some of them are named,
 * and the display text falls back to the `%#x` form of the code.
 */
module Codes {
  import Fmt

  /** The tunnelling layer a tunnelling connection asks for. */
  newtype TunnelLayer = x: int | 0 <= x < 256

  /** Data-link layer tunnel. */
  const TunnelLayerData: TunnelLayer := 0x02
  /** Raw tunnel. */
  const TunnelLayerRaw: TunnelLayer := 0x04
  /** Bus monitor tunnel. */
  const TunnelLayerBusmon: TunnelLayer := 0x80

  const ConnResOk: ConnResStatus := 0x00
  const ConnResUnsupportedType: ConnResStatus := 0x22
  const ConnResUnsupportedOption: ConnResStatus := 0x23
  const ConnResBusy: ConnResStatus := 0x24

  const UnknownStatus := "Unknown status code "

  /** Status code carried in a connection response. */
  newtype ConnResStatus = x: int | 0 <= x < 256 {

    predicate IsNamed()
    {
      this == ConnResOk || this == ConnResUnsupportedType
      || this == ConnResUnsupportedOption || this == ConnResBusy
    }

    /**
     * Description of the status code: a fixed sentence for each named code,
     * otherwise the prefix, "0x", and unpadded hexadecimal digits that
     * denote the code.
     */
    function String(): (s: string)
      ensures this == ConnResOk ==> s == "Connection established"
      ensures this == ConnResUnsupportedType ==> s == "Requested connection type is unsupported"
      ensures this == ConnResUnsupportedOption ==> s == "One of the requested options is unsupported"
      ensures this == ConnResBusy ==> s == "No data channel is available"
      ensures !IsNamed() ==> var p := |UnknownStatus| + 2;
        && |s| == p + (if this < 16 then 1 else 2)
        && s[..p] == UnknownStatus + "0x"
        && (forall i | p <= i < |s| :: Fmt.IsHexDigit(s[i]))
        && (s[p] == '0' ==> this == 0)
        && Fmt.HexValue(s[p..]) == this as int
    {
      if this == ConnResOk then "Connection established"
      else if this == ConnResUnsupportedType then "Requested connection type is unsupported"
      else if this == ConnResUnsupportedOption then "One of the requested options is unsupported"
      else if this == ConnResBusy then "No data channel is available"
      else
        var h := Fmt.HashX(this as int);
        assert (UnknownStatus + h)[|UnknownStatus| + 2..] == h[2..];
        assert (UnknownStatus + h)[..|UnknownStatus| + 2] == UnknownStatus + h[..2];
        UnknownStatus + h
    }

    /** A status code is also an error value whose message is its description. */
    function Error(): (s: string)
      ensures s == String()
    {
      String()
    }
  }

  const ConnStateNormal: ConnState := 0x00
  const ConnStateInactive: ConnState := 0x21
  const ConnStateDataError: ConnState := 0x26
  const ConnStateKNXError: ConnState := 0x27

  const UnknownState := "Unknown connection state "

  /** State of a connection, as a connection-state response reports it. */
  newtype ConnState = x: int | 0 <= x < 256 {

    predicate IsNamed()
    {
      this == ConnStateNormal || this == ConnStateInactive
      || this == ConnStateDataError || this == ConnStateKNXError
    }

    /**
     * Description of the connection state: a fixed sentence for each named
     * state, otherwise the prefix, "0x", and unpadded hexadecimal digits
     * that denote the state.
     */
    function String(): (s: string)
      ensures this == ConnStateNormal ==> s == "Connection is intact"
      ensures this == ConnStateInactive ==> s == "Connection is inactive"
      ensures this == ConnStateDataError ==> s == "Gateway encountered a data error"
      ensures this == ConnStateKNXError ==> s == "Gateway encountered a KNX error"
      ensures !IsNamed() ==> var p := |UnknownState| + 2;
        && |s| == p + (if this < 16 then 1 else 2)
        && s[..p] == UnknownState + "0x"
        && (forall i | p <= i < |s| :: Fmt.IsHexDigit(s[i]))
        && (s[p] == '0' ==> this == 0)
        && Fmt.HexValue(s[p..]) == this as int
    {
      if this == ConnStateNormal then "Connection is intact"
      else if this == ConnStateInactive then "Connection is inactive"
      else if this == ConnStateDataError then "Gateway encountered a data error"
      else if this == ConnStateKNXError then "Gateway encountered a KNX error"
      else
        var h := Fmt.HashX(this as int);
        assert (UnknownState + h)[|UnknownState| + 2..] == h[2..];
        assert (UnknownState + h)[..|UnknownState| + 2] == UnknownState + h[..2];
        UnknownState + h
    }
  }

  /** No two status codes share a description. */
  lemma ConnResStatusStringInjective(a: ConnResStatus, b: ConnResStatus)
    requires a.String() == b.String()
    ensures a == b
  {
    if !a.IsNamed() && !b.IsNamed() {
      var ha, hb := Fmt.HashX(a as int), Fmt.HashX(b as int);
      assert (UnknownStatus + ha)[|UnknownStatus|..] == ha;
      assert (UnknownStatus + hb)[|UnknownStatus|..] == hb;
      Fmt.HashXInjective(a as int, b as int);
    }
  }

  /** No two connection states share a description. */
  lemma ConnStateStringInjective(a: ConnState, b: ConnState)
    requires a.String() == b.String()
    ensures a == b
  {
    if !a.IsNamed() && !b.IsNamed() {
      var ha, hb := Fmt.HashX(a as int), Fmt.HashX(b as int);
      assert (UnknownState + ha)[|UnknownState|..] == ha;
      assert (UnknownState + hb)[|UnknownState|..] == hb;
      Fmt.HashXInjective(a as int, b as int);
    }
  }

  /** Descriptions of the named codes and of two unnamed ones. */
  lemma ConnResStatusExamples()
    ensures ConnResOk.String() == "Connection established"
    ensures ConnResUnsupportedType.String() == "Requested connection type is unsupported"
    ensures ConnResUnsupportedOption.String() == "One of the requested options is unsupported"
    ensures ConnResBusy.String() == "No data channel is available"
    ensures (0x99 as ConnResStatus).String() == "Unknown status code 0x99"
    ensures (0x05 as ConnResStatus).Error() == "Unknown status code 0x5"
  {
  }

  lemma ConnStateExamples()
    ensures ConnStateNormal.String() == "Connection is intact"
    ensures ConnStateInactive.String() == "Connection is inactive"
    ensures ConnStateDataError.String() == "Gateway encountered a data error"
    ensures ConnStateKNXError.String() == "Gateway encountered a KNX error"
    ensures (0xab as ConnState).String() == "Unknown connection state 0xab"
    ensures (0x05 as ConnState).String() == "Unknown connection state 0x5"
  {
  }
}
