/** The Hyprland provider of the packaged layout: the `activewindow` command
    on the socket under the runtime directory, classification of the reply,
    and normalisation of the decoded window into the canonical record.

    As for Sway, the socket conversation and JSON decoding are parameters. */
module Hyprland {
  import opened Wrappers
  import opened Text
  import opened Bytes
  import opened Environment
  import opened Window

  datatype Workspace = Workspace(id: int, name: string)

  /** The decoded `activewindow` reply. */
  datatype HyprlandWindow = HyprlandWindow(
    address: string,
    mapped: bool,
    hidden: bool,
    at: (int, int),
    size: (int, int),
    workspace: Workspace,
    floating: bool,
    monitor: int,
    windowClass: string,
    title: string,
    initialClass: string,
    initialTitle: string,
    pid: int,
    xwayland: bool,
    pinned: bool,
    fullscreen: bool,
    fakeFullscreen: bool)

  /** What happened when the command was written to the socket at a path:
      a failure at one step, or the bytes available to the one read. */
  datatype Session =
    | DialFailed(err: string)
    | WriteFailed(err: string)
    | ReadFailed(err: string)
    | Replied(received: seq<byte>)

  type Exchange = (string, string) -> Session
  type Decoder = string -> Result<HyprlandWindow>

  const ActiveWindowCommand := "activewindow"
  const ReadBufferSize: nat := 4096
  const DefaultRuntimeDir := "/tmp"
  const SocketName := ".socket2.sock"

  const SignatureMissing := "HYPRLAND_INSTANCE_SIGNATURE not found - are we really running under Hyprland?"
  const NoActiveWindowMessage := "no active window found in Hyprland"
  const ConnectFailed := "failed to connect to Hyprland socket: "
  const SendFailed := "failed to send activewindow request: "
  const ReadFailedMessage := "failed to read Hyprland response: "
  const DecodeFailed := "failed to decode Hyprland JSON response: "

  /** XDG_RUNTIME_DIR, or "/tmp" when it is unset or empty. */
  function RuntimeDir(env: Env): (dir: string)
    ensures Getenv(env, RuntimeDirVar) != "" ==> dir == Getenv(env, RuntimeDirVar)
    ensures Getenv(env, RuntimeDirVar) == "" ==> dir == DefaultRuntimeDir
    ensures dir != ""
  {
    var dir := Getenv(env, RuntimeDirVar);
    if dir == "" then DefaultRuntimeDir else dir
  }

  /** `runtimeDir/hypr/signature/.socket2.sock`. */
  function SocketPath(runtimeDir: string, signature: string): (path: string)
    ensures |path| == |runtimeDir| + 6 + |signature| + 1 + |SocketName|
    ensures path[..|runtimeDir|] == runtimeDir
    ensures path[|runtimeDir|..|runtimeDir| + 6] == "/hypr/"
    ensures path[|runtimeDir| + 6..|runtimeDir| + 6 + |signature|] == signature
    ensures path[|runtimeDir| + 6 + |signature|..] == "/" + SocketName
  {
    runtimeDir + "/hypr/" + signature + "/" + SocketName
  }

  /** How the reply is read: as a command failure, or as JSON to decode. */
  datatype Response = NoActiveWindow | Json(text: string)

  /** The reply as the client sees it: at most the first 4096 bytes, with
      white space trimmed from both ends. */
  function ReplyText(received: seq<byte>): string {
    TrimSpace(ToText(Take(received, ReadBufferSize)))
  }

  /** An empty or "Invalid" reply means no window has focus; anything else is
      JSON to decode. */
  function Classify(response: string): (r: Response)
    ensures r == NoActiveWindow <==> response in {"", "Invalid"}
    ensures r.Json? ==> r.text == response
  {
    if response == "Invalid" || response == "" then NoActiveWindow else Json(response)
  }

  /** The classification of the bytes received: a reply that is not "no
      window" is handed to the decoder trimmed. */
  function ClassifyResponse(received: seq<byte>): (r: Response)
    ensures r == NoActiveWindow <==> ReplyText(received) in {"", "Invalid"}
    ensures r.Json? ==> r.text == ReplyText(received) && Trimmed(r.text)
  {
    Classify(ReplyText(received))
  }

  /** Bytes past the first 4096 never influence the classification. */
  lemma OnlyFirst4096BytesMatter(received: seq<byte>, extra: seq<byte>)
    requires |received| >= ReadBufferSize
    ensures ClassifyResponse(received + extra) == ClassifyResponse(received)
  {
    assert Take(received + extra, ReadBufferSize) == Take(received, ReadBufferSize) by {
      assert (received + extra)[..ReadBufferSize] == received[..ReadBufferSize];
    }
    assert ReplyText(received + extra) == ReplyText(received);
  }

  /** "Invalid" padded with any white space, and a reply of white space only,
      both mean that no window has focus. */
  lemma PaddedInvalidIsNoWindow(lead: string, token: string, tail: string)
    requires AllSpace(lead) && AllSpace(tail) && token in {"", "Invalid"}
    requires |lead + token + tail| <= ReadBufferSize
    ensures forall b: seq<byte> :: ToText(b) == lead + token + tail ==> ClassifyResponse(b) == NoActiveWindow
  {
    forall b: seq<byte> | ToText(b) == lead + token + tail
      ensures ClassifyResponse(b) == NoActiveWindow
    {
      assert Take(b, ReadBufferSize) == b;
      TrimSpaceOfPadded(lead, token, tail);
    }
  }

  /** The workspace name when it is non-empty, else the `%d` form of the
      workspace id: canonical digits, a sign only for negative ids, parsing
      back to the id. Never empty. */
  function WorkspaceLabel(ws: Workspace): (s: string)
    ensures ws.name != "" ==> s == ws.name
    ensures ws.name == "" ==> IsDecimalOf(s, ws.id) && s == DecimalString(ws.id)
    ensures ws.name == "" && IsInt64(ws.id) ==> ParseDecimal(s) == Some(ws.id)
    ensures s != ""
  {
    if ws.name != "" then ws.name
    else if IsInt64(ws.id) then
      DecimalRoundTrip(ws.id);
      DecimalString(ws.id)
    else DecimalString(ws.id)
  }

  /** Id 3 with an empty name gives "3"; with the name "work" gives "work". */
  lemma WorkspaceLabelExamples()
    ensures WorkspaceLabel(Workspace(3, "")) == "3"
    ensures WorkspaceLabel(Workspace(3, "work")) == "work"
  {
  }

  /** The canonical record of a decoded window: title, class and pid copied
      unchanged, workspace labelled as above. */
  function Normalize(w: HyprlandWindow): (info: WindowInfo)
    ensures info.title == w.title && info.windowClass == w.windowClass && info.pid == w.pid
    ensures info.workspace == WorkspaceLabel(w.workspace)
  {
    WindowInfo(w.title, w.windowClass, w.pid, WorkspaceLabel(w.workspace))
  }

  /** The socket path the client dials for the environment. */
  function SocketPathFor(env: Env): string {
    SocketPath(RuntimeDir(env), Getenv(env, HyprlandSignatureVar))
  }

  /** The conversation the client holds: the command written to the
      environment's socket. */
  function Conversation(env: Env, exchange: Exchange): Session {
    exchange(SocketPathFor(env), ActiveWindowCommand)
  }

  /** How a query ended, before any error is worded: the provider and the
      older client hold the same conversation and differ only in wording and
      in what they return. */
  datatype Outcome =
    | NoSignature
    | CannotDial(err: string)
    | CannotWrite(err: string)
    | CannotRead(err: string)
    | NoWindow
    | Undecodable(err: string)
    | Decoded(window: HyprlandWindow)

  /** The conversation: the signature is checked before anything else; the
      command is written to the socket of the environment; a reply
      classified as "no window" is never decoded. */
  function Query(env: Env, exchange: Exchange, decode: Decoder): (o: Outcome)
    ensures o == NoSignature <==> Getenv(env, HyprlandSignatureVar) == ""
    ensures Getenv(env, HyprlandSignatureVar) != "" ==>
      var session := Conversation(env, exchange);
      && (session.DialFailed? ==> o == CannotDial(session.err))
      && (session.WriteFailed? ==> o == CannotWrite(session.err))
      && (session.ReadFailed? ==> o == CannotRead(session.err))
    ensures o == NoWindow <==>
      && Getenv(env, HyprlandSignatureVar) != ""
      && Conversation(env, exchange).Replied?
      && ClassifyResponse(Conversation(env, exchange).received) == NoActiveWindow
    ensures
      (&& Getenv(env, HyprlandSignatureVar) != ""
       && Conversation(env, exchange).Replied?
       && ClassifyResponse(Conversation(env, exchange).received).Json?)
      ==>
      var text := ClassifyResponse(Conversation(env, exchange).received).text;
      && (decode(text).Err? ==> o == Undecodable(decode(text).message))
      && (decode(text).Ok? ==> o == Decoded(decode(text).value))
    ensures o.Decoded? ==>
      && Getenv(env, HyprlandSignatureVar) != ""
      && Conversation(env, exchange).Replied?
      && var response := ClassifyResponse(Conversation(env, exchange).received);
      && response.Json?
      && decode(response.text) == Ok(o.window)
  {
    var signature := Getenv(env, HyprlandSignatureVar);
    if signature == "" then NoSignature
    else
      var socketPath := SocketPath(RuntimeDir(env), signature);
      match exchange(socketPath, ActiveWindowCommand)
      case DialFailed(e) => CannotDial(e)
      case WriteFailed(e) => CannotWrite(e)
      case ReadFailed(e) => CannotRead(e)
      case Replied(received) =>
        match ClassifyResponse(received)
        case NoActiveWindow => NoWindow
        case Json(response) =>
          match decode(response)
          case Err(e) => Undecodable(e)
          case Ok(window) => Decoded(window)
  }

  /** `HyprlandProvider.GetActiveWindow`: the query's outcome, with a decoded
      window normalised and every other outcome worded as an error. */
  function GetActiveWindow(env: Env, exchange: Exchange, decode: Decoder): (r: Result<WindowInfo>)
    ensures Getenv(env, HyprlandSignatureVar) == "" ==> r == Err(SignatureMissing)
    ensures Getenv(env, HyprlandSignatureVar) != ""
      && Conversation(env, exchange).Replied?
      && ClassifyResponse(Conversation(env, exchange).received) == NoActiveWindow
      ==> r == Err(NoActiveWindowMessage)
    ensures r.Ok? <==>
      && Getenv(env, HyprlandSignatureVar) != ""
      && Conversation(env, exchange).Replied?
      && ClassifyResponse(Conversation(env, exchange).received).Json?
      && decode(ClassifyResponse(Conversation(env, exchange).received).text).Ok?
    ensures r.Ok? ==>
      r.value == Normalize(decode(ClassifyResponse(Conversation(env, exchange).received).text).value)
    ensures Getenv(env, HyprlandSignatureVar) != "" ==>
      var session := Conversation(env, exchange);
      && (session.DialFailed? ==> r == Err(ConnectFailed + session.err))
      && (session.WriteFailed? ==> r == Err(SendFailed + session.err))
      && (session.ReadFailed? ==> r == Err(ReadFailedMessage + session.err))
    ensures
      (&& Getenv(env, HyprlandSignatureVar) != ""
       && Conversation(env, exchange).Replied?
       && ClassifyResponse(Conversation(env, exchange).received).Json?)
      ==>
      var text := ClassifyResponse(Conversation(env, exchange).received).text;
      decode(text).Err? ==> r == Err(DecodeFailed + decode(text).message)
  {
    match Query(env, exchange, decode)
    case NoSignature => Err(SignatureMissing)
    case CannotDial(e) => Err(ConnectFailed + e)
    case CannotWrite(e) => Err(SendFailed + e)
    case CannotRead(e) => Err(ReadFailedMessage + e)
    case NoWindow => Err(NoActiveWindowMessage)
    case Undecodable(e) => Err(DecodeFailed + e)
    case Decoded(window) => Ok(Normalize(window))
  }

  /** A "no window" reply is never decoded: the decoder is irrelevant. */
  lemma NoWindowReplyIsNotDecoded(env: Env, exchange: Exchange, d1: Decoder, d2: Decoder)
    requires Conversation(env, exchange).Replied?
    requires ClassifyResponse(Conversation(env, exchange).received) == NoActiveWindow
    ensures GetActiveWindow(env, exchange, d1) == GetActiveWindow(env, exchange, d2)
  {
  }

  /** A missing signature is reported before any connection is attempted. */
  lemma MissingSignatureNeverConnects(env: Env, e1: Exchange, e2: Exchange, d1: Decoder, d2: Decoder)
    requires Getenv(env, HyprlandSignatureVar) == ""
    ensures GetActiveWindow(env, e1, d1) == GetActiveWindow(env, e2, d2)
  {
  }
}
