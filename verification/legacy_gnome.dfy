/** The GNOME client of the older flat layout: the same bus conversation and
    the same record as the packaged provider, with its own error wording. */
module LegacyGnome {
  import opened Wrappers
  import opened Window
  import Gnome

  const BusFailed := "failed to connect to the session bus: "
  const CallFailed := "failed to call FocusedWindow.Get: "

  /** `tryGNOMEFocusedWindowExtension`. */
  function TryExtension(reply: Result<string>, decode: Gnome.Decoder): (r: Result<WindowInfo>)
    ensures reply.Err? ==> r == Err(CallFailed + reply.message)
    ensures reply.Ok? && decode(reply.value).Err? ==> r == Err(Gnome.UnmarshalFailed + decode(reply.value).message)
    ensures r.Ok? <==> reply.Ok? && decode(reply.value).Ok?
    ensures r.Ok? ==> r.value == Gnome.Normalize(decode(reply.value).value)
  {
    match reply
    case Err(e) => Err(CallFailed + e)
    case Ok(text) =>
      match decode(text)
      case Err(e) => Err(Gnome.UnmarshalFailed + e)
      case Ok(w) => Ok(Gnome.Normalize(w))
  }

  /** `GetGNOMEActiveWindow`. */
  function GetGNOMEActiveWindow(bus: Gnome.Bus, decode: Gnome.Decoder): (r: Result<WindowInfo>)
    ensures bus.Unreachable? ==> r == Err(BusFailed + bus.err)
    ensures r.Ok? <==> bus.Connected? && bus.reply.Ok? && decode(bus.reply.value).Ok?
    ensures r.Ok? ==> r.value == Gnome.Normalize(decode(bus.reply.value).value)
    ensures bus.Connected? && r.Err? ==> r.message == Gnome.ExtensionUnavailable
  {
    match bus
    case Unreachable(e) => Err(BusFailed + e)
    case Connected(reply) =>
      match TryExtension(reply, decode)
      case Ok(info) => Ok(info)
      case Err(_) => Err(Gnome.ExtensionUnavailable)
  }

  /** Once the bus is reached, the legacy client and the packaged provider
      give the same result, errors included; they differ only in how an
      unreachable bus is worded. */
  lemma AgreesWithProvider(bus: Gnome.Bus, decode: Gnome.Decoder)
    ensures GetGNOMEActiveWindow(bus, decode).Ok? <==> Gnome.GetActiveWindow(bus, decode).Ok?
    ensures bus.Connected? ==> GetGNOMEActiveWindow(bus, decode) == Gnome.GetActiveWindow(bus, decode)
    ensures bus.Unreachable? ==>
      && GetGNOMEActiveWindow(bus, decode) == Err(BusFailed + bus.err)
      && Gnome.GetActiveWindow(bus, decode) == Err(Gnome.BusFailed + bus.err)
  {
  }
}
