/** The records of libpcp/src/pcp_client_db.h and the enumerations of
    libpcp/src/pcp_event_handler.h. */
module Types {

  datatype Option<+T> = None | Some(value: T)

  type byte = x: int | 0 <= x < 256

  function Zeros(n: nat): (r: seq<byte>)
    ensures |r| == n && forall i :: 0 <= i < n ==> r[i] == 0
  {
    seq(n, _ => 0)
  }

  /** Ports, addresses, scopes and nonces are compared and copied as raw bytes. */
  type Port = s: seq<byte> | |s| == 2 witness Zeros(2)
  type Word = s: seq<byte> | |s| == 4 witness Zeros(4)
  type Nonce = s: seq<byte> | |s| == 12 witness Zeros(12)
  type Ip = s: seq<byte> | |s| == 16 witness Zeros(16)

  const OP_ANNOUNCE: byte := 0
  const OP_MAP: byte := 1
  const OP_PEER: byte := 2

  const IPPROTO_TCP: byte := 6
  const IPPROTO_UDP: byte := 17

  /** struct flow_key_data */
  datatype FlowKey = FlowKey(op: byte, src: Ip, serverIp: Ip, scope: Word, nonce: Nonce,
                             protocol: byte, srcPort: Port, dst: Ip, dstPort: Port)

  datatype Endpoint = Endpoint(ip: Ip, port: Port)

  const NO_ENDPOINT := Endpoint(Zeros(16), Zeros(2))

  // Constants of libpcp/default_config.h.
  const PCP_MAX_PING_COUNT := 5
  const PCP_RETX_IRT := 3000
  const PCP_RETX_MRC := 3
  const PCP_RETX_MRT := 1024000
  const PCP_SERVER_DISCOVERY_RETRY_DELAY := 3600
  const PCP_MAX_SUPPORTED_VERSION := 2

  const LONG_MAX := 0x7FFF_FFFF_FFFF_FFFF
  const U32 := 0x1_0000_0000
  const SECOND := 1000000

  type u32 = x: int | 0 <= x < U32

  // Result codes of libpcp/src/pcp_msg_structs.h.
  const RES_SUCCESS: u32 := 0
  const RES_UNSUPP_VERSION: u32 := 1
  const RES_ADDRESS_MISMATCH: u32 := 12

  datatype FlowState =
    | Idle
    | WaitForServerInit
    | Send
    | WaitResp
    | WaitAfterShortLifeError
    | WaitForLifetimeRenew
    | SendRenew
    | Failed

  /** pcp_flow_event_e; FEV_RES_BEGIN + code is Result(code). */
  datatype FlowEvent =
    | FlowTimedOut
    | ServerInitialized
    | DoSend
    | MsgSent
    | SendFailed
    | NoEvent
    | ServerRestarted
    | Ignored
    | Result(code: u32)

  datatype ServerState =
    | Uninitialized
    | Allocated
    | Ping
    | WaitPingResp
    | VersionNegotiation
    | SendAllMsgs
    | WaitIo
    | WaitIoCalcNearestTimeout
    | ServerRestart
    | ServerReping
    | SetNotWorking
    | NotWorking

  datatype ServerEvent = Timeout | IoEvent | Terminate

  /** The receive record after parsing. */
  datatype Msg = Msg(version: nat, result: u32, lifetime: u32, epoch: u32, received: int,
                     key: FlowKey, ext: Endpoint)

  /** What happened to a flow so far. No operation reads it: the properties of whole
      runs are stated with it.
      sent: messages sent successfully; resent: those of them that the retransmission
      handler sent since retry_count was last reset; matched / succeeded: some
      message / some message with result success was matched to the flow; spared: some message
      matched to the flow announced a restart although its result was not success. */
  datatype History = History(sent: nat, resent: nat, matched: bool, succeeded: bool, spared: bool)

  const NO_HISTORY := History(0, 0, false, false, false)

  /** struct pcp_flow_s. Times are total microseconds, 0 is "no timer";
      recvLifetime is in seconds, resend in milliseconds. */
  datatype Flow = Flow(key: FlowKey, server: nat, state: FlowState, timeout: int,
                       resend: u32, retry: nat, lifetime: u32, recvLifetime: int,
                       recvResult: u32, ext: Endpoint, nextChild: Option<nat>,
                       hist: History)

  /** struct pcp_server. A pointer to a flow is the flow's number.
      rounds and raised are history, as in a flow: versions negotiated since the version
      was last set, and whether one of them was higher than the version it replaced. */
  datatype Server = Server(state: ServerState, nextTimeout: int, pingCount: nat,
                           pingFlow: Option<nat>, restartFlow: Option<nat>,
                           version: nat, nextVersion: nat,
                           epoch: u32, cepoch: int, natpmpExt: Word,
                           ip: Ip, scope: Word, src: Ip, nonce: Nonce,
                           rounds: nat, raised: bool)

  /** One look at the outside world: the clock in microseconds, the outcome of a send
      and the value of rand(). */
  datatype Sys = Sys(now: int, ok: bool, rnd: nat)

  /** The outside world, as the sequence of looks taken at it. */
  type Env = nat -> Sys

  /** The context. Flow number n is flows[n]; order lists the registered flows in the order
      in which the hash table is walked; calls counts the looks taken at the outside
      world. */
  datatype World = World(flows: seq<Flow>, order: seq<nat>, servers: seq<Server>,
                         calls: nat)

  /** The clock is held still. */
  ghost predicate Still(env: Env, t: int) {
    t > 0 && forall k: nat :: env(k).now == t
  }
}
