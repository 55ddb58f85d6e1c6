/** The process environment, passed to the model as a value. */
module Environment {

  type Env = map<string, string>

  /** `os.Getenv`: an unset variable reads as the empty string, so "unset" and
      "set to empty" are indistinguishable to every caller. */
  function Getenv(env: Env, key: string): (v: string)
    ensures key in env ==> v == env[key]
    ensures key !in env ==> v == ""
  {
    if key in env then env[key] else ""
  }

  const HyprlandSignatureVar := "HYPRLAND_INSTANCE_SIGNATURE"
  const SwaySocketVar := "SWAYSOCK"
  const CurrentDesktopVar := "XDG_CURRENT_DESKTOP"
  const SessionDesktopVar := "XDG_SESSION_DESKTOP"
  const RuntimeDirVar := "XDG_RUNTIME_DIR"
}
