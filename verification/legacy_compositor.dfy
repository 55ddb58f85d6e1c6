/** Platform detection of the older flat layout: the same priority order as
    `Compositor.Detect` without the macOS rule, and a tag type without a macOS
    member. */
module LegacyCompositor {
  import opened Text
  import opened Environment
  import Packaged = Compositor

  /** The Go `Compositor` is an `int`; any integer is a value of it. */
  newtype Compositor = int

  const Unknown: Compositor := 0
  const Hyprland: Compositor := 1
  const Sway: Compositor := 2
  const GNOME: Compositor := 3

  /** `Compositor.String`. */
  function ToString(c: Compositor): (name: string)
    ensures c == Hyprland ==> name == "Hyprland"
    ensures c == Sway ==> name == "Sway"
    ensures c == GNOME ==> name == "GNOME"
    ensures !(Hyprland <= c <= GNOME) ==> name == "Unknown"
  {
    if c == Hyprland then "Hyprland"
    else if c == Sway then "Sway"
    else if c == GNOME then "GNOME"
    else "Unknown"
  }

  /** `DetectCompositor`: first match wins among the Hyprland signature, the
      Sway socket and a case-insensitive "gnome" in either desktop variable. */
  function DetectCompositor(env: Env): (c: Compositor)
    ensures Unknown <= c <= GNOME
    ensures c == Hyprland <==> Getenv(env, HyprlandSignatureVar) != ""
    ensures c == Sway <==> Getenv(env, HyprlandSignatureVar) == "" && Getenv(env, SwaySocketVar) != ""
    ensures c == Unknown <==>
      && Getenv(env, HyprlandSignatureVar) == ""
      && Getenv(env, SwaySocketVar) == ""
      && !Packaged.MentionsGnome(Getenv(env, CurrentDesktopVar))
      && !Packaged.MentionsGnome(Getenv(env, SessionDesktopVar))
  {
    if Getenv(env, HyprlandSignatureVar) != "" then Hyprland
    else if Getenv(env, SwaySocketVar) != "" then Sway
    else
      var desktop := ToLower(Getenv(env, CurrentDesktopVar));
      var session := ToLower(Getenv(env, SessionDesktopVar));
      if Contains(desktop, "gnome") || Contains(session, "gnome") then GNOME
      else Unknown
  }

  /** Off macOS the two detectors pick the same platform: the tags share their
      numeric codes and their display names. */
  lemma AgreesWithDetect(env: Env, goos: string)
    requires goos != Packaged.Darwin
    ensures DetectCompositor(env) as int == Packaged.Detect(env, goos) as int
    ensures ToString(DetectCompositor(env)) == Packaged.ToString(Packaged.Detect(env, goos))
  {
  }

  /** On every tag the legacy names agree with the packaged ones, except that
      the legacy type has no macOS member: code 4 reads "Unknown" there. */
  lemma ToStringMatchesPackaged(c: Compositor)
    ensures c as int != Packaged.MacOS as int ==> ToString(c) == Packaged.ToString(c as int as Packaged.Type)
    ensures c as int == Packaged.MacOS as int ==> ToString(c) == "Unknown"
  {
  }
}
