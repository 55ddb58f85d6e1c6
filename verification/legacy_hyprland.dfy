/** The Hyprland client of the older flat layout: the same conversation and
    reply classification as the packaged provider, returning the decoded
    window unnormalised, with its own error wording. */
module LegacyHyprland {
  import opened Wrappers
  import opened Environment
  import Hyprland

  const SignatureMissing := "HYPRLAND_INSTANCE_SIGNATURE not found"
  const NoActiveWindowMessage := "no active window found in Hyprland"
  const ConnectError := "failed to connect to Hyprland: "
  const SendError := "failed to send request: "
  const ReadError := "failed to read Hyprland's response: "
  const DecodeError := "failed to decode Hyprland's JSON: "

  /** `GetHyprlandActiveWindow`. The signature is checked before anything
      else; a reply classified as "no window" is never decoded; a decoded
      window is returned as is. */
  function GetHyprlandActiveWindow(env: Env, exchange: Hyprland.Exchange, decode: Hyprland.Decoder)
    : (r: Result<Hyprland.HyprlandWindow>)
    ensures Getenv(env, HyprlandSignatureVar) == "" ==> r == Err(SignatureMissing)
    ensures Getenv(env, HyprlandSignatureVar) != ""
      && Hyprland.Conversation(env, exchange).Replied?
      && Hyprland.ClassifyResponse(Hyprland.Conversation(env, exchange).received) == Hyprland.NoActiveWindow
      ==> r == Err(NoActiveWindowMessage)
    ensures r.Ok? <==>
      && Getenv(env, HyprlandSignatureVar) != ""
      && Hyprland.Conversation(env, exchange).Replied?
      && Hyprland.ClassifyResponse(Hyprland.Conversation(env, exchange).received).Json?
      && decode(Hyprland.ClassifyResponse(Hyprland.Conversation(env, exchange).received).text).Ok?
    ensures Getenv(env, HyprlandSignatureVar) != "" ==>
      var session := Hyprland.Conversation(env, exchange);
      && (session.DialFailed? ==> r == Err(ConnectError + session.err))
      && (session.WriteFailed? ==> r == Err(SendError + session.err))
      && (session.ReadFailed? ==> r == Err(ReadError + session.err))
    ensures
      (&& Getenv(env, HyprlandSignatureVar) != ""
       && Hyprland.Conversation(env, exchange).Replied?
       && Hyprland.ClassifyResponse(Hyprland.Conversation(env, exchange).received).Json?)
      ==>
      var text := Hyprland.ClassifyResponse(Hyprland.Conversation(env, exchange).received).text;
      decode(text).Err? ==> r == Err(DecodeError + decode(text).message)
    ensures r.Ok? ==>
      Ok(r.value) == decode(Hyprland.ClassifyResponse(Hyprland.Conversation(env, exchange).received).text)
  {
    match Hyprland.Query(env, exchange, decode)
    case NoSignature => Err(SignatureMissing)
    case CannotDial(e) => Err(ConnectError + e)
    case CannotWrite(e) => Err(SendError + e)
    case CannotRead(e) => Err(ReadError + e)
    case NoWindow => Err(NoActiveWindowMessage)
    case Undecodable(e) => Err(DecodeError + e)
    case Decoded(window) => Ok(window)
  }

  /** The legacy client returns a window exactly when the packaged provider
      produces a record, and the record is the window's normalisation. The
      "no window" error reads the same in both. */
  lemma AgreesWithProvider(env: Env, exchange: Hyprland.Exchange, decode: Hyprland.Decoder)
    ensures GetHyprlandActiveWindow(env, exchange, decode).Ok? <==> Hyprland.GetActiveWindow(env, exchange, decode).Ok?
    ensures GetHyprlandActiveWindow(env, exchange, decode).Ok? ==>
      Hyprland.GetActiveWindow(env, exchange, decode)
        == Ok(Hyprland.Normalize(GetHyprlandActiveWindow(env, exchange, decode).value))
    ensures Hyprland.Query(env, exchange, decode).NoWindow? ==>
      && GetHyprlandActiveWindow(env, exchange, decode) == Err(Hyprland.NoActiveWindowMessage)
      && Hyprland.GetActiveWindow(env, exchange, decode) == Err(Hyprland.NoActiveWindowMessage)
  {
  }
}
