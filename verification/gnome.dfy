/** The GNOME Shell provider of the packaged layout. It asks the Focused
    Window shell extension, over the D-Bus session bus, for a JSON description
    of the focused window.

    The bus is an input: either the session bus could not be reached, or it
    was, and the extension's `Get` method answered with a string or failed.
    JSON decoding is a parameter, as for the other providers. */
module Gnome {
  import opened Wrappers
  import opened Text
  import opened Window

  /** The fields of the extension's reply that the client reads. */
  datatype FocusedWindow = FocusedWindow(title: string, wmClass: string, wmClassInstance: string, pid: int, id: int)

  /** The session bus as the client finds it. */
  datatype Bus =
    | Unreachable(err: string)
    | Connected(reply: Result<string>)

  type Decoder = string -> Result<FocusedWindow>

  const BusFailed := "failed to connect to D-Bus session bus: "
  const CallFailed := "failed to call FocusedWindow.Get D-Bus method: "
  const UnmarshalFailed := "failed to unmarshal focused window info: "
  const ExtensionUnavailable := "unable to get GNOME active window - make sure the Focused Window D-Bus extension is enabled"

  /** The canonical record of the extension's reply: title, class and pid
      copied, and the window id, in `%d` form, standing in for the
      workspace. */
  function Normalize(w: FocusedWindow): (info: WindowInfo)
    ensures info.title == w.title && info.windowClass == w.wmClass && info.pid == w.pid
    ensures IsDecimalOf(info.workspace, w.id)
    ensures IsInt64(w.id) ==> ParseDecimal(info.workspace) == Some(w.id)
  {
    DecimalRoundTrip(if IsInt64(w.id) then w.id else 0);
    WindowInfo(w.title, w.wmClass, w.pid, DecimalString(w.id))
  }

  /** `tryFocusedWindowExtension`: the method's reply, decoded and
      normalised; a failed call or an undecodable reply is an error naming
      the step. */
  function TryExtension(reply: Result<string>, decode: Decoder): (r: Result<WindowInfo>)
    ensures reply.Err? ==> r == Err(CallFailed + reply.message)
    ensures reply.Ok? && decode(reply.value).Err? ==> r == Err(UnmarshalFailed + decode(reply.value).message)
    ensures r.Ok? <==> reply.Ok? && decode(reply.value).Ok?
    ensures r.Ok? ==> r.value == Normalize(decode(reply.value).value)
  {
    match reply
    case Err(e) => Err(CallFailed + e)
    case Ok(text) =>
      match decode(text)
      case Err(e) => Err(UnmarshalFailed + e)
      case Ok(w) => Ok(Normalize(w))
  }

  /** `GNOMEProvider.GetActiveWindow`. An unreachable bus is reported with its
      cause; once connected, any failure of the extension query is reported
      as the one "extension not enabled" message, its cause dropped. */
  function GetActiveWindow(bus: Bus, decode: Decoder): (r: Result<WindowInfo>)
    ensures bus.Unreachable? ==> r == Err(BusFailed + bus.err)
    ensures r.Ok? <==> bus.Connected? && bus.reply.Ok? && decode(bus.reply.value).Ok?
    ensures r.Ok? ==> r.value == Normalize(decode(bus.reply.value).value)
    ensures bus.Connected? && r.Err? ==> r.message == ExtensionUnavailable
  {
    match bus
    case Unreachable(e) => Err(BusFailed + e)
    case Connected(reply) =>
      match TryExtension(reply, decode)
      case Ok(info) => Ok(info)
      case Err(_) => Err(ExtensionUnavailable)
  }

  /** The cause of a failed extension query never reaches the caller: a
      failed call and an undecodable reply read alike. */
  lemma ExtensionFailureCauseIsDropped(reply: Result<string>, other: Result<string>, decode: Decoder)
    requires TryExtension(reply, decode).Err? && TryExtension(other, decode).Err?
    ensures GetActiveWindow(Connected(reply), decode) == GetActiveWindow(Connected(other), decode)
    ensures GetActiveWindow(Connected(reply), decode) == Err(ExtensionUnavailable)
  {
  }

  /** The extension's reply for window 7 of "Firefox" gives the record with
      workspace "7". */
  lemma NormalizeExample()
    ensures Normalize(FocusedWindow("Mozilla Firefox", "Firefox", "Navigator", 4242, 7))
      == WindowInfo("Mozilla Firefox", "Firefox", 4242, "7")
  {
    DecimalStringIsTheDecimalForm("7", 7);
  }
}
