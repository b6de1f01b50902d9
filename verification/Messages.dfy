/**
 The vocabulary of the fleet-manager client: the messages exchanged with the facade, the events
 a user or the connection hands to the client, and the events the client reports to its listener.

 What the world outside answers while an event is handled is part of the input: a channel
 description carries the behaviour of its remote end, and an `Env` carries the answers of the
 core, of the gRPC stream, of the location provider and of the hash table's iteration order.
 */
module Messages {

  datatype Option<+T> = None | Some(value: T)

  /** Command and Response of the control protocol; OtherCommand is any command the client has no case for. */
  datatype Command =
    | Setup | Heartbeat | Release
    | AttachChannels | ReleaseChannels | OperationEnded
    | AddChannels | ChannelsReady | RemoveChannels | OperationUpdated
    | RequestControl | ControlReady | ReleaseControl | ControlReleased
    | OtherCommand(code: int)

  datatype Response = Accepted | Rejected

  datatype Protocol = Udp | Tcp | UnknownProtocol

  datatype Security = PlainText | Tls

  /** How the remote end of a channel behaves while the channel is being validated. */
  datatype Remote =
    | ConnectThrows
    | RequestNotSerialized
    | SendThrows
    | ReadThrows
    | Answers(accepted: bool)

  datatype ChannelRequest = ChannelRequest(id: int, protocol: Protocol, security: Security)

  datatype ChannelResponse = ChannelResponse(id: int, protocol: Protocol, security: Security, remote: Remote)

  datatype Location = Location(place: string)

  /** Server to client. Every protobuf field is present; `heartbeat` holds the key when the field is set. */
  datatype ControlMessage = ControlMessage(
    command: Command, response: Response, text: string, ids: seq<int>,
    channels: seq<ChannelResponse>, heartbeat: Option<int>, handover: seq<int>)

  /** Client to server. */
  datatype ClientMessage = ClientMessage(
    command: Command, response: Option<Response>, text: string, key: Option<string>, ids: seq<int>,
    requests: seq<ChannelRequest>, heartbeat: Option<(int, Location)>, handover: Option<seq<int>>)

  /** A client message of which only the command is set. */
  function Plain(command: Command): ClientMessage {
    ClientMessage(command, None, "", None, [], [], None, None)
  }

  /** A positive answer to `command`. */
  function Ack(command: Command): ClientMessage {
    Plain(command).(response := Some(Accepted))
  }

  datatype UserEvent =
    | Attach
    | UserRelease
    | Operate(deviceId: int, channels: seq<ChannelRequest>)
    | UserRequestControl(channelId: int)
    | ReleaseAccepted(data: seq<int>)
    | ReleaseRejected(text: string)
    | UserControlReady
    | OpenChannels(requests: seq<ChannelRequest>)
    | CloseChannels(ids: seq<int>)

  datatype Event =
    | User(user: UserEvent)
    | Received(message: ControlMessage)
    | ConnectionLost
    | ConnectionClosed
    | ConnectionError

  /** A channel as the listener sees it: the id, and which of the channels that ever bore this id. */
  datatype Ref = Ref(id: int, incarnation: nat)

  datatype FacadeEvent =
    | Failure
    | Error(text: string)
    | Attached
    | Released
    | OperationStarted
    | OperationUpdate
    | OperationEnd
    | ChannelsOpened(channels: seq<Ref>)
    | ChannelsClosing(channels: seq<Ref>)
    | HandoverAccepted(data: seq<int>)
    | HandoverDone
    | ReleaseAsked(channelId: int)
    | ControlGone
    | ProcedureRejected(procedure: Command, text: string)

  /** What the world outside answers while one event is handled. */
  datatype Env = Env(
    core: Option<string>,  // the key returned by attach or operate; None when the call throws
    opens: bool,           // the facade stream opens; false when opening throws
    closes: bool,          // the facade stream reports its own closing; false when closing throws
    order: seq<int>,       // the order in which the hash table would list its keys
    location: Location)

  datatype Input = Input(event: Event, env: Env)

  predicate IsHeartbeat(m: ControlMessage) {
    m.command == Heartbeat && m.heartbeat.Some?
  }

  function RefIds(refs: seq<Ref>): (ids: seq<int>)
    ensures |ids| == |refs|
    ensures forall i :: 0 <= i < |refs| ==> ids[i] == refs[i].id
  {
    seq(|refs|, i requires 0 <= i < |refs| => refs[i].id)
  }
}
