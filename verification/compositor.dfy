/** Platform detection of the packaged layout: the `Type` tag, its display
    name, and `Detect`, a first-match-wins classifier over the OS identity and
    four environment variables. */
module Compositor {
  import opened Text
  import opened Environment

  /** The Go `Type` is an `int`; any integer is a value of it. */
  newtype Type = int

  const Unknown: Type := 0
  const Hyprland: Type := 1
  const Sway: Type := 2
  const GNOME: Type := 3
  const MacOS: Type := 4

  /** The five tags `Detect` can produce. */
  predicate IsKnown(t: Type) {
    Unknown <= t <= MacOS
  }

  const Darwin := "darwin"

  /** `Type.String`. */
  function ToString(t: Type): (name: string)
    ensures t == Hyprland ==> name == "Hyprland"
    ensures t == Sway ==> name == "Sway"
    ensures t == GNOME ==> name == "GNOME"
    ensures t == MacOS ==> name == "macOS"
    ensures !(Hyprland <= t <= MacOS) ==> name == "Unknown"
  {
    if t == Hyprland then "Hyprland"
    else if t == Sway then "Sway"
    else if t == GNOME then "GNOME"
    else if t == MacOS then "macOS"
    else "Unknown"
  }

  /** Every tag other than `Unknown`, and only those, has a name of its own:
      the names of the four platforms are pairwise distinct and none is
      "Unknown". */
  lemma ToStringIdentifiesPlatform(t: Type, u: Type)
    requires ToString(t) == ToString(u) && ToString(t) != "Unknown"
    ensures t == u && Hyprland <= t <= MacOS
  {
  }

  /** The desktop variable names GNOME, in any ASCII letter case. */
  predicate MentionsGnome(desktop: string) {
    Contains(ToLower(desktop), "gnome")
  }

  /** `Detect`, with `runtime.GOOS` passed as `goos`. */
  function Detect(env: Env, goos: string): (t: Type)
    ensures IsKnown(t)
    ensures t == MacOS <==> goos == Darwin
    ensures t == Hyprland <==> goos != Darwin && Getenv(env, HyprlandSignatureVar) != ""
    ensures t == Sway <==>
      && goos != Darwin
      && Getenv(env, HyprlandSignatureVar) == ""
      && Getenv(env, SwaySocketVar) != ""
    ensures t == GNOME <==>
      && goos != Darwin
      && Getenv(env, HyprlandSignatureVar) == ""
      && Getenv(env, SwaySocketVar) == ""
      && (MentionsGnome(Getenv(env, CurrentDesktopVar)) || MentionsGnome(Getenv(env, SessionDesktopVar)))
  {
    if goos == Darwin then MacOS
    else if Getenv(env, HyprlandSignatureVar) != "" then Hyprland
    else if Getenv(env, SwaySocketVar) != "" then Sway
    else
      var desktop := ToLower(Getenv(env, CurrentDesktopVar));
      var session := ToLower(Getenv(env, SessionDesktopVar));
      if Contains(desktop, "gnome") || Contains(session, "gnome") then GNOME
      else Unknown
  }

  /** On macOS the environment is never consulted. */
  lemma DarwinIgnoresEnvironment(env: Env, env': Env)
    ensures Detect(env, Darwin) == Detect(env', Darwin) == MacOS
  {
  }

  /** Only the four variables the detector reads matter: environments that
      agree on them are classified alike. */
  lemma DetectReadsOnlyItsVariables(env: Env, env': Env, goos: string)
    requires forall v | v in [HyprlandSignatureVar, SwaySocketVar, CurrentDesktopVar, SessionDesktopVar] ::
      Getenv(env, v) == Getenv(env', v)
    ensures Detect(env, goos) == Detect(env', goos)
  {
    assert HyprlandSignatureVar in [HyprlandSignatureVar, SwaySocketVar, CurrentDesktopVar, SessionDesktopVar];
    assert SwaySocketVar in [HyprlandSignatureVar, SwaySocketVar, CurrentDesktopVar, SessionDesktopVar];
    assert CurrentDesktopVar in [HyprlandSignatureVar, SwaySocketVar, CurrentDesktopVar, SessionDesktopVar];
    assert SessionDesktopVar in [HyprlandSignatureVar, SwaySocketVar, CurrentDesktopVar, SessionDesktopVar];
  }

  /** The GNOME match is case-insensitive: a desktop value and its upper-cased
      form match alike. */
  lemma GnomeMatchIgnoresCase(desktop: string, other: string)
    requires |desktop| == |other|
    requires forall i :: 0 <= i < |desktop| ==> LowerChar(desktop[i]) == LowerChar(other[i])
    ensures MentionsGnome(desktop) <==> MentionsGnome(other)
  {
    assert ToLower(desktop) == ToLower(other);
  }

  /** "GNOME", "gnome" and "gnome-classic" all select GNOME; "unity" selects
      nothing. */
  lemma DesktopExamples()
    ensures MentionsGnome("GNOME")
    ensures MentionsGnome("gnome")
    ensures MentionsGnome("gnome-classic")
    ensures !MentionsGnome("unity")
  {
    assert ToLower("GNOME") == "gnome";
    assert OccursAt(ToLower("gnome"), "gnome", 0);
    assert OccursAt(ToLower("gnome-classic"), "gnome", 0);
    var u := ToLower("unity");
    assert u == "unity";
    forall i ensures !OccursAt(u, "gnome", i) {
      if 0 <= i && i + 5 <= |u| {
        assert i == 0 && u[i..i + 5][0] == 'u';
      }
    }
  }
}
