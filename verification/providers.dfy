/** Provider dispatch of the packaged layout: one provider per supported
    platform, its display name, the factory from a detected tag, and the
    provider's `GetActiveWindow`.

    Every provider's contact with the outside world (environment, sockets,
    the D-Bus session bus, helper programs) is an input bundled in `Host`. */
module Providers {
  import opened Wrappers
  import opened Text
  import opened Environment
  import opened Window
  import Compositor
  import Hyprland
  import Sway
  import MacOS
  import Gnome

  datatype Provider = HyprlandProvider | SwayProvider | GNOMEProvider | MacOSProvider

  /** Everything a provider may consult: the environment, the socket
      conversations and decoders of Hyprland and Sway, the session bus and
      decoder of GNOME, and the outputs of the two macOS helper programs. */
  datatype Host = Host(
    env: Env,
    hyprlandExchange: Hyprland.Exchange,
    hyprlandDecode: Hyprland.Decoder,
    swayExchange: Sway.Exchange,
    swayDecode: Sway.Decoder,
    gnomeBus: Gnome.Bus,
    gnomeDecode: Gnome.Decoder,
    appleScript: Result<string>,
    lsappinfo: Result<string>)

  /** Each provider's `Name`; never empty. */
  function Name(p: Provider): (name: string)
    ensures name != ""
  {
    match p
    case HyprlandProvider => "Hyprland"
    case SwayProvider => "Sway"
    case GNOMEProvider => "GNOME Shell"
    case MacOSProvider => "macOS"
  }

  /** No two providers share a name: the name identifies the provider. */
  lemma NamesDistinct(p: Provider, q: Provider)
    ensures Name(p) == Name(q) <==> p == q
  {
  }

  /** The tag a provider serves. */
  function Platform(p: Provider): (t: Compositor.Type)
    ensures t != Compositor.Unknown && Compositor.IsKnown(t)
  {
    match p
    case HyprlandProvider => Compositor.Hyprland
    case SwayProvider => Compositor.Sway
    case GNOMEProvider => Compositor.GNOME
    case MacOSProvider => Compositor.MacOS
  }

  /** The platforms the factory serves, as its error lists them. */
  const SupportedList := "Hyprland, Sway, GNOME Shell, macOS"

  /** The factory's error for a tag it does not serve: it names the tag and
      lists the supported platforms. */
  function UnsupportedMessage(t: Compositor.Type): (msg: string)
    ensures Contains(msg, "Supported")
    ensures Contains(msg, Compositor.ToString(t))
    ensures Contains(msg, SupportedList)
  {
    var prefix := "unsupported compositor: ";
    var name := Compositor.ToString(t);
    var head := prefix + name + "\n";
    var msg := head + "Supported" + ": " + SupportedList;
    assert msg[|prefix|..|prefix| + |name|] == name;
    assert OccursAt(msg, name, |prefix|);
    assert msg[|head|..|head| + 9] == "Supported";
    assert OccursAt(msg, "Supported", |head|);
    assert msg[|head| + 11..] == SupportedList;
    assert OccursAt(msg, SupportedList, |head| + 11);
    msg
  }

  /** `NewProvider`: the four platforms get their provider, every other tag
      (Unknown and out-of-range values alike) an error. */
  function NewProvider(t: Compositor.Type): (r: Result<Provider>)
    ensures r.Ok? <==> t in {Compositor.Hyprland, Compositor.Sway, Compositor.GNOME, Compositor.MacOS}
    ensures r.Ok? ==> Platform(r.value) == t
    ensures r.Err? ==> r.message == UnsupportedMessage(t) && Contains(r.message, "Supported")
  {
    if t == Compositor.Hyprland then Ok(HyprlandProvider)
    else if t == Compositor.Sway then Ok(SwayProvider)
    else if t == Compositor.GNOME then Ok(GNOMEProvider)
    else if t == Compositor.MacOS then Ok(MacOSProvider)
    else Err(UnsupportedMessage(t))
  }

  /** The factory inverts `Platform`: the provider built for a provider's tag
      is that provider, so the mapping is one-to-one. */
  lemma NewProviderRoundTrip(p: Provider)
    ensures NewProvider(Platform(p)) == Ok(p)
  {
  }

  /** Whatever platform was detected, a provider is built exactly for the
      tags `Detect` reports as a platform, never for Unknown. */
  lemma DetectedPlatformHasProvider(env: Env, goos: string)
    ensures NewProvider(Compositor.Detect(env, goos)).Ok? <==> Compositor.Detect(env, goos) != Compositor.Unknown
  {
  }

  /** The factory's test cases: provider names per tag, and Unknown fails
      with a message mentioning the supported platforms. */
  lemma FactoryExamples()
    ensures NewProvider(Compositor.Hyprland) == Ok(HyprlandProvider) && Name(HyprlandProvider) == "Hyprland"
    ensures NewProvider(Compositor.Sway) == Ok(SwayProvider) && Name(SwayProvider) == "Sway"
    ensures NewProvider(Compositor.GNOME) == Ok(GNOMEProvider) && Name(GNOMEProvider) == "GNOME Shell"
    ensures NewProvider(Compositor.MacOS) == Ok(MacOSProvider) && Name(MacOSProvider) == "macOS"
    ensures NewProvider(Compositor.Unknown).Err?
  {
  }

  /** The provider's `GetActiveWindow`: each provider asks its own platform
      only. */
  function GetActiveWindow(p: Provider, host: Host): (r: Result<WindowInfo>)
    ensures p == HyprlandProvider ==> r == Hyprland.GetActiveWindow(host.env, host.hyprlandExchange, host.hyprlandDecode)
    ensures p == SwayProvider ==> r == Sway.GetActiveWindow(host.env, host.swayExchange, host.swayDecode)
    ensures p == GNOMEProvider ==> r == Gnome.GetActiveWindow(host.gnomeBus, host.gnomeDecode)
    ensures p == MacOSProvider ==> r == MacOS.GetActiveWindow(host.appleScript, host.lsappinfo)
  {
    match p
    case HyprlandProvider => Hyprland.GetActiveWindow(host.env, host.hyprlandExchange, host.hyprlandDecode)
    case SwayProvider => Sway.GetActiveWindow(host.env, host.swayExchange, host.swayDecode)
    case GNOMEProvider => Gnome.GetActiveWindow(host.gnomeBus, host.gnomeDecode)
    case MacOSProvider => MacOS.GetActiveWindow(host.appleScript, host.lsappinfo)
  }

  /** No fallback between platforms: a provider's outcome is unchanged when
      every input belonging to another platform is replaced. */
  lemma NoCrossPlatformFallback(host: Host, other: Host)
    ensures GetActiveWindow(HyprlandProvider, host)
      == GetActiveWindow(HyprlandProvider, other.(env := host.env, hyprlandExchange := host.hyprlandExchange,
                                                  hyprlandDecode := host.hyprlandDecode))
    ensures GetActiveWindow(SwayProvider, host)
      == GetActiveWindow(SwayProvider, other.(env := host.env, swayExchange := host.swayExchange,
                                              swayDecode := host.swayDecode))
    ensures GetActiveWindow(GNOMEProvider, host)
      == GetActiveWindow(GNOMEProvider, other.(gnomeBus := host.gnomeBus, gnomeDecode := host.gnomeDecode))
    ensures GetActiveWindow(MacOSProvider, host)
      == GetActiveWindow(MacOSProvider, other.(appleScript := host.appleScript, lsappinfo := host.lsappinfo))
  {
  }
}
