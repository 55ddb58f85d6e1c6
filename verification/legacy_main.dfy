/** The dispatch and normalisation of the older flat layout: the legacy
    clients return raw platform records, and the entry point turns them into
    the canonical record. The rendering of the record is `Window.Render`,
    which the older layout defines identically. */
module LegacyMain {
  import opened Wrappers
  import opened Text
  import opened Window
  import LegacyCompositor
  import LegacyHyprland
  import LegacySway
  import LegacyGnome
  import Hyprland
  import Sway
  import Compositor
  import Providers

  /** `getHyprlandWindowInfo`: the client's error is passed on unchanged;
      a window is normalised as the packaged provider does it. */
  function GetHyprlandWindowInfo(host: Providers.Host): (r: Result<WindowInfo>)
    ensures var raw := LegacyHyprland.GetHyprlandActiveWindow(host.env, host.hyprlandExchange, host.hyprlandDecode);
      && (raw.Err? <==> r.Err?)
      && (raw.Err? ==> r.message == raw.message)
      && (raw.Ok? ==> r.value == Hyprland.Normalize(raw.value))
  {
    match LegacyHyprland.GetHyprlandActiveWindow(host.env, host.hyprlandExchange, host.hyprlandDecode)
    case Err(e) => Err(e)
    case Ok(window) => Ok(Hyprland.Normalize(window))
  }

  /** `getSwayWindowInfo`: the client's error is passed on unchanged; a node
      is normalised as the packaged provider does it. */
  function GetSwayWindowInfo(host: Providers.Host): (r: Result<WindowInfo>)
    ensures var raw := LegacySway.GetSwayActiveWindow(host.env, host.swayExchange, host.swayDecode);
      && (raw.Err? <==> r.Err?)
      && (raw.Err? ==> r.message == raw.message)
      && (raw.Ok? ==> r.value == Sway.Normalize(raw.value))
  {
    match LegacySway.GetSwayActiveWindow(host.env, host.swayExchange, host.swayDecode)
    case Err(e) => Err(e)
    case Ok(node) => Ok(Sway.Normalize(node))
  }

  /** The platforms the older entry point serves, as its error lists them. */
  const SupportedList := "Hyprland, Sway, GNOME-Shell"

  /** The entry point's error for a tag it does not serve: it names the tag
      and lists the supported platforms. */
  function UnsupportedMessage(c: LegacyCompositor.Compositor): (msg: string)
    ensures Contains(msg, LegacyCompositor.ToString(c))
    ensures Contains(msg, "supported: ")
    ensures Contains(msg, SupportedList)
  {
    var prefix := "unsupported or unknown compositor: ";
    var name := LegacyCompositor.ToString(c);
    var head := prefix + name + "\n";
    var msg := head + "supported: " + SupportedList;
    assert msg[|prefix|..|prefix| + |name|] == name;
    assert OccursAt(msg, name, |prefix|);
    assert msg[|head|..|head| + 11] == "supported: ";
    assert OccursAt(msg, "supported: ", |head|);
    assert msg[|head| + 11..] == SupportedList;
    assert OccursAt(msg, SupportedList, |head| + 11);
    msg
  }

  /** `getActiveWindowInfo`: Hyprland, Sway and GNOME are routed to their
      clients; every other tag is an error naming it. */
  function GetActiveWindowInfo(c: LegacyCompositor.Compositor, host: Providers.Host): (r: Result<WindowInfo>)
    ensures c == LegacyCompositor.Hyprland ==> r == GetHyprlandWindowInfo(host)
    ensures c == LegacyCompositor.Sway ==> r == GetSwayWindowInfo(host)
    ensures c == LegacyCompositor.GNOME ==> r == LegacyGnome.GetGNOMEActiveWindow(host.gnomeBus, host.gnomeDecode)
    ensures !(LegacyCompositor.Hyprland <= c <= LegacyCompositor.GNOME) ==> r == Err(UnsupportedMessage(c))
  {
    if c == LegacyCompositor.Hyprland then GetHyprlandWindowInfo(host)
    else if c == LegacyCompositor.Sway then GetSwayWindowInfo(host)
    else if c == LegacyCompositor.GNOME then LegacyGnome.GetGNOMEActiveWindow(host.gnomeBus, host.gnomeDecode)
    else Err(UnsupportedMessage(c))
  }

  /** On the three platforms it serves, the legacy entry point produces a
      record exactly when the packaged provider for the same platform does,
      and the same record. */
  lemma AgreesWithProviders(c: LegacyCompositor.Compositor, host: Providers.Host)
    requires LegacyCompositor.Hyprland <= c <= LegacyCompositor.GNOME
    ensures Providers.NewProvider(c as int as Compositor.Type).Ok?
    ensures var p := Providers.NewProvider(c as int as Compositor.Type).value;
      && (GetActiveWindowInfo(c, host).Ok? <==> Providers.GetActiveWindow(p, host).Ok?)
      && (GetActiveWindowInfo(c, host).Ok? ==> GetActiveWindowInfo(c, host) == Providers.GetActiveWindow(p, host))
  {
    if c == LegacyCompositor.Hyprland {
      LegacyHyprland.AgreesWithProvider(host.env, host.hyprlandExchange, host.hyprlandDecode);
    } else if c == LegacyCompositor.Sway {
      LegacySway.AgreesWithProvider(host.env, host.swayExchange, host.swayDecode);
    } else {
      LegacyGnome.AgreesWithProvider(host.gnomeBus, host.gnomeDecode);
    }
  }

  /** The legacy entry point does not serve macOS: code 4, for which the
      packaged factory builds the macOS provider, is an error here. */
  lemma MacOSIsUnsupported(host: Providers.Host)
    ensures GetActiveWindowInfo(Compositor.MacOS as int as LegacyCompositor.Compositor, host).Err?
    ensures Providers.NewProvider(Compositor.MacOS) == Ok(Providers.MacOSProvider)
  {
  }
}
