/** The Sway provider of the packaged layout: one GET_TREE round trip over
    the socket named by SWAYSOCK, the focused-window search, and the
    normalisation of the found node into the canonical record.

    The socket conversation is a parameter: `exchange(path, request)` tells
    what happened when the request bytes were written to the socket at
    `path`. JSON decoding is a parameter too: `decode(payload)`. */
module Sway {
  import opened Wrappers
  import opened Bytes
  import opened Environment
  import opened I3Ipc
  import opened SwayTree
  import opened Window

  /** The outcome of dialling the socket, writing the request and reading
      the reply: a failure at one of the steps, or the bytes that were
      available for the header read and for the payload read. */
  datatype Session =
    | DialFailed(err: string)
    | WriteFailed(err: string)
    | HeaderReadFailed(err: string)
    | PayloadReadFailed(err: string)
    | Replied(header: seq<byte>, payload: seq<byte>)

  type Exchange = (string, seq<byte>) -> Session
  type Decoder = seq<byte> -> Result<Node>

  const SwaySocketMissing := "SWAYSOCK environment variable not found - are we running under Sway?"
  const NoFocusedWindow := "no focused window found in Sway tree"
  const ConnectError := "failed to connect to Sway socket: "
  const SendError := "failed to send i3-ipc request: "
  const HeaderReadError := "failed to read Sway response header: "
  const PayloadReadError := "failed to read Sway JSON payload: "
  const DecodeError := "failed to decode Sway JSON response: "

  /** The canonical record of a found node. Title and class come from the
      window properties and are empty when absent; the pid is 0 when absent;
      the workspace is the representation when present, else the name when
      present, else empty. Presence, not emptiness, decides. */
  function Normalize(focused: Node): (w: WindowInfo)
    ensures focused.windowProperties.Some? && focused.windowProperties.value.title.Some?
      ==> w.title == focused.windowProperties.value.title.value
    ensures focused.windowProperties.None? || focused.windowProperties.value.title.None?
      ==> w.title == ""
    ensures focused.windowProperties.Some? && focused.windowProperties.value.windowClass.Some?
      ==> w.windowClass == focused.windowProperties.value.windowClass.value
    ensures focused.windowProperties.None? || focused.windowProperties.value.windowClass.None?
      ==> w.windowClass == ""
    ensures focused.pid.Some? ==> w.pid == focused.pid.value
    ensures focused.pid.None? ==> w.pid == 0
    ensures focused.representation.Some? ==> w.workspace == focused.representation.value
    ensures focused.representation.None? && focused.name.Some? ==> w.workspace == focused.name.value
    ensures focused.representation.None? && focused.name.None? ==> w.workspace == ""
  {
    var (title, windowClass) := match focused.windowProperties
      case Some(props) => (props.title.GetOr(""), props.windowClass.GetOr(""))
      case None => ("", "");
    var workspace :=
      if focused.representation.Some? then focused.representation.value
      else if focused.name.Some? then focused.name.value
      else "";
    WindowInfo(title, windowClass, focused.pid.GetOr(0), workspace)
  }

  /** A present but empty representation still wins over a present name. */
  lemma EmptyRepresentationWins(focused: Node)
    requires focused.representation == Some("") && focused.name.Some? && focused.name.value != ""
    ensures Normalize(focused).workspace == ""
    ensures Normalize(focused).workspace != focused.name.value
  {
  }

  /** The payload buffer: the header is read into a 14-byte buffer, the
      length it announces sizes the payload buffer, and the payload is read
      into that: the bytes available that fit, then the zeros the buffer was
      allocated with. */
  function PayloadBuffer(header: seq<byte>, payload: seq<byte>): (b: seq<byte>)
    ensures |b| == PayloadLength(ReadInto(HeaderSize, header))
    ensures |header| >= HeaderSize ==> |b| == DecodeLE32(header[6..10])
    ensures forall i :: 0 <= i < |b| && i < |payload| ==> b[i] == payload[i]
    ensures forall i :: |payload| <= i < |b| ==> b[i] == 0
  {
    var h := ReadInto(HeaderSize, header);
    assert |header| >= HeaderSize ==> h[6..10] == header[6..10];
    ReadInto(PayloadLength(h), payload)
  }

  /** A reply framed as the protocol prescribes yields exactly its payload. */
  lemma FramedReplyYieldsPayload(messageType: nat, payload: seq<byte>)
    requires messageType < TwoTo32 && |payload| < TwoTo32
    ensures var m := Frame(messageType, payload);
      PayloadBuffer(m[..HeaderSize], m[HeaderSize..]) == payload
  {
    FrameHeaderRoundTrip(messageType, payload);
  }

  /** The tree the socket delivered, when SWAYSOCK is set, the conversation
      completed and the payload decoded. */
  function DeliveredTree(env: Env, exchange: Exchange, decode: Decoder): Option<Node> {
    var socketPath := Getenv(env, SwaySocketVar);
    if socketPath == "" then None
    else match exchange(socketPath, GetTreeRequest)
      case Replied(header, payload) =>
        (match decode(PayloadBuffer(header, payload))
         case Ok(root) => Some(root)
         case Err(_) => None)
      case _ => None
  }

  /** `SwayProvider.GetActiveWindow`. A record is produced exactly when a tree
      was delivered and some node of it qualifies; it is the normalisation of
      the first qualifying node in pre-order. */
  function GetActiveWindow(env: Env, exchange: Exchange, decode: Decoder): (r: Result<WindowInfo>)
    ensures Getenv(env, SwaySocketVar) == "" ==> r == Err(SwaySocketMissing)
    ensures DeliveredTree(env, exchange, decode).None? ==> r.Err?
    ensures Getenv(env, SwaySocketVar) != "" ==>
      var session := exchange(Getenv(env, SwaySocketVar), GetTreeRequest);
      && (session.DialFailed? ==> r == Err(ConnectError + session.err))
      && (session.WriteFailed? ==> r == Err(SendError + session.err))
      && (session.HeaderReadFailed? ==> r == Err(HeaderReadError + session.err))
      && (session.PayloadReadFailed? ==> r == Err(PayloadReadError + session.err))
      && (session.Replied? && decode(PayloadBuffer(session.header, session.payload)).Err? ==>
            r == Err(DecodeError + decode(PayloadBuffer(session.header, session.payload)).message))
    ensures DeliveredTree(env, exchange, decode).Some? ==>
      var tree := DeliveredTree(env, exchange, decode).value;
      && (FirstFocused(PreOrder(tree)).None? ==> r == Err(NoFocusedWindow))
      && (FirstFocused(PreOrder(tree)).Some? ==> r == Ok(Normalize(FirstFocused(PreOrder(tree)).value)))
  {
    var socketPath := Getenv(env, SwaySocketVar);
    if socketPath == "" then Err(SwaySocketMissing)
    else match exchange(socketPath, GetTreeRequest)
      case DialFailed(e) => Err(ConnectError + e)
      case WriteFailed(e) => Err(SendError + e)
      case HeaderReadFailed(e) => Err(HeaderReadError + e)
      case PayloadReadFailed(e) => Err(PayloadReadError + e)
      case Replied(header, payload) =>
        match decode(PayloadBuffer(header, payload))
        case Err(e) => Err(DecodeError + e)
        case Ok(root) =>
          FindFocusedIsFirstInPreOrder(root);
          match FindFocusedNode(root)
          case None => Err(NoFocusedWindow)
          case Some(focused) => Ok(Normalize(focused))
  }

  /** A missing SWAYSOCK is reported before any connection is attempted: the
      outcome does not depend on the socket or the decoder at all. */
  lemma MissingSocketNeverConnects(env: Env, e1: Exchange, e2: Exchange, d1: Decoder, d2: Decoder)
    requires Getenv(env, SwaySocketVar) == ""
    ensures GetActiveWindow(env, e1, d1) == GetActiveWindow(env, e2, d2)
  {
  }

  /** The only conversation held is the GET_TREE request on the SWAYSOCK path:
      sockets that answer it alike give the same outcome. */
  lemma OnlyGetTreeIsSent(env: Env, e1: Exchange, e2: Exchange, decode: Decoder)
    requires e1(Getenv(env, SwaySocketVar), GetTreeRequest) == e2(Getenv(env, SwaySocketVar), GetTreeRequest)
    ensures GetActiveWindow(env, e1, decode) == GetActiveWindow(env, e2, decode)
  {
  }
}
