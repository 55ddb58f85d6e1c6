/** The Sway client of the older flat layout. It holds the same conversation
    as the packaged provider (same request, same header and payload reads,
    same search) but returns the found node itself, unnormalised, and words
    its errors differently. */
module LegacySway {
  import opened Wrappers
  import opened Environment
  import opened I3Ipc
  import opened SwayTree
  import Sway

  const SwaySocketMissing := "SWAYSOCK environment variable not found"
  const NoFocusedWindow := "no focused window found in Sway"
  const ConnectError := "failed to connect to Sway: "
  const SendError := "failed to send request: "
  const HeaderReadError := "failed to read Sway's response header: "
  const PayloadReadError := "failed to read Sway's JSON: "
  const DecodeError := "failed to decode Sway's JSON: "

  /** `GetSwayActiveWindow`. A node is returned exactly when a tree was
      delivered and some node of it qualifies; it is the first qualifying
      node in pre-order. */
  function GetSwayActiveWindow(env: Env, exchange: Sway.Exchange, decode: Sway.Decoder): (r: Result<Node>)
    ensures Getenv(env, SwaySocketVar) == "" ==> r == Err(SwaySocketMissing)
    ensures Sway.DeliveredTree(env, exchange, decode).None? ==> r.Err?
    ensures Getenv(env, SwaySocketVar) != "" ==>
      var session := exchange(Getenv(env, SwaySocketVar), GetTreeRequest);
      && (session.DialFailed? ==> r == Err(ConnectError + session.err))
      && (session.WriteFailed? ==> r == Err(SendError + session.err))
      && (session.HeaderReadFailed? ==> r == Err(HeaderReadError + session.err))
      && (session.PayloadReadFailed? ==> r == Err(PayloadReadError + session.err))
      && (session.Replied? && decode(Sway.PayloadBuffer(session.header, session.payload)).Err? ==>
            r == Err(DecodeError + decode(Sway.PayloadBuffer(session.header, session.payload)).message))
    ensures Sway.DeliveredTree(env, exchange, decode).Some? ==>
      var tree := Sway.DeliveredTree(env, exchange, decode).value;
      && (FirstFocused(PreOrder(tree)).None? ==> r == Err(NoFocusedWindow))
      && (FirstFocused(PreOrder(tree)).Some? ==> r == Ok(FirstFocused(PreOrder(tree)).value))
    ensures r.Ok? ==> IsFocusedWindow(r.value)
  {
    var socketPath := Getenv(env, SwaySocketVar);
    if socketPath == "" then Err(SwaySocketMissing)
    else match exchange(socketPath, GetTreeRequest)
      case DialFailed(e) => Err(ConnectError + e)
      case WriteFailed(e) => Err(SendError + e)
      case HeaderReadFailed(e) => Err(HeaderReadError + e)
      case PayloadReadFailed(e) => Err(PayloadReadError + e)
      case Replied(header, payload) =>
        match decode(Sway.PayloadBuffer(header, payload))
        case Err(e) => Err(DecodeError + e)
        case Ok(root) =>
          FindFocusedIsFirstInPreOrder(root);
          match FindFocusedNode(root)
          case None => Err(NoFocusedWindow)
          case Some(focused) => Ok(focused)
  }

  /** The legacy client finds a node exactly when the packaged provider
      produces a record, and the record is the node's normalisation. */
  lemma AgreesWithProvider(env: Env, exchange: Sway.Exchange, decode: Sway.Decoder)
    ensures GetSwayActiveWindow(env, exchange, decode).Ok? <==> Sway.GetActiveWindow(env, exchange, decode).Ok?
    ensures GetSwayActiveWindow(env, exchange, decode).Ok? ==>
      Sway.GetActiveWindow(env, exchange, decode) == Ok(Sway.Normalize(GetSwayActiveWindow(env, exchange, decode).value))
  {
  }
}
