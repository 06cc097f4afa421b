/** The flow state machine of libpcp/src/pcp_event_handler.c: the two transition tables,
    the seven handlers and the chaining of their results. */
module FlowMachine {
  import opened Types

  // ----- the tables, row by row ------------------------------------------------------

  datatype EventRow = EventRow(state: Option<FlowState>, event: FlowEvent, next: FlowState)

  const EVENT_ROWS := 42

  /** flow_events_sm; a state of None is pfs_any. */
  function EventTable(i: nat): EventRow
    requires i < EVENT_ROWS
  {
    match i
    case 0 => EventRow(None, DoSend, Send)
    case 1 => EventRow(Some(WaitForServerInit), ServerInitialized, Send)
    case 2 => EventRow(Some(WaitResp), Result(0), WaitForLifetimeRenew)
    case 3 => EventRow(Some(WaitResp), Result(1), WaitForServerInit)
    case 4 => EventRow(Some(WaitResp), Result(7), WaitAfterShortLifeError)
    case 5 => EventRow(Some(WaitResp), Result(8), WaitAfterShortLifeError)
    case 6 => EventRow(Some(WaitResp), Result(13), WaitAfterShortLifeError)
    case 7 => EventRow(Some(WaitResp), Result(10), WaitAfterShortLifeError)
    case 8 => EventRow(Some(WaitResp), FlowTimedOut, Send)
    case 9 => EventRow(Some(WaitResp), ServerInitialized, Send)
    case 10 => EventRow(Some(Send), ServerInitialized, Send)
    case 11 => EventRow(Some(Send), MsgSent, WaitResp)
    case 12 => EventRow(Some(Send), FlowTimedOut, Send)
    case 13 => EventRow(Some(WaitAfterShortLifeError), FlowTimedOut, Send)
    case 14 => EventRow(Some(WaitForLifetimeRenew), FlowTimedOut, SendRenew)
    case 15 => EventRow(Some(WaitForLifetimeRenew), Result(0), WaitForLifetimeRenew)
    case 16 => EventRow(Some(WaitForLifetimeRenew), Result(1), WaitForServerInit)
    case 17 => EventRow(Some(WaitForLifetimeRenew), Result(7), SendRenew)
    case 18 => EventRow(Some(WaitForLifetimeRenew), Result(8), SendRenew)
    case 19 => EventRow(Some(WaitForLifetimeRenew), Result(13), SendRenew)
    case 20 => EventRow(Some(WaitForLifetimeRenew), SendFailed, Send)
    case 21 => EventRow(Some(WaitForLifetimeRenew), Result(10), SendRenew)
    case 22 => EventRow(Some(SendRenew), MsgSent, WaitForLifetimeRenew)
    case 23 => EventRow(Some(SendRenew), FlowTimedOut, SendRenew)
    case 24 => EventRow(Some(SendRenew), SendFailed, Send)
    case 25 => EventRow(Some(Send), Ignored, WaitForLifetimeRenew)
    case 26 => EventRow(None, ServerRestarted, Send)
    case 27 => EventRow(None, SendFailed, Failed)
    case 28 => EventRow(Some(WaitResp), Result(2), Failed)
    case 29 => EventRow(Some(WaitResp), Result(3), Failed)
    case 30 => EventRow(Some(WaitResp), Result(4), Failed)
    case 31 => EventRow(Some(WaitResp), Result(5), Failed)
    case 32 => EventRow(Some(WaitResp), Result(9), Failed)
    case 33 => EventRow(Some(WaitResp), Result(11), Failed)
    case 34 => EventRow(Some(WaitResp), Result(12), Failed)
    case 35 => EventRow(Some(WaitForLifetimeRenew), Result(2), Failed)
    case 36 => EventRow(Some(WaitForLifetimeRenew), Result(3), Failed)
    case 37 => EventRow(Some(WaitForLifetimeRenew), Result(4), Failed)
    case 38 => EventRow(Some(WaitForLifetimeRenew), Result(5), Failed)
    case 39 => EventRow(Some(WaitForLifetimeRenew), Result(9), Failed)
    case 40 => EventRow(Some(WaitForLifetimeRenew), Result(11), Failed)
    case 41 => EventRow(Some(WaitForLifetimeRenew), Result(12), Failed)
  }

  predicate EventMatches(i: nat, s: FlowState, e: FlowEvent)
    requires i < EVENT_ROWS
  {
    var row := EventTable(i);
    (row.state == Some(s) || row.state == None) && row.event == e
  }

  datatype Handler = HWaitResp | HResend | HSend | HShortLife | HSuccess | HSendRenew | HClear

  datatype TransRow = TransRow(from: Option<FlowState>, to: FlowState, handler: Handler)

  const TRANS_ROWS := 9

  /** flow_transitions */
  function TransTable(i: nat): TransRow
    requires i < TRANS_ROWS
  {
    match i
    case 0 => TransRow(None, WaitResp, HWaitResp)
    case 1 => TransRow(Some(WaitResp), Send, HResend)
    case 2 => TransRow(None, Send, HSend)
    case 3 => TransRow(None, WaitAfterShortLifeError, HShortLife)
    case 4 => TransRow(Some(WaitResp), WaitForLifetimeRenew, HSuccess)
    case 5 => TransRow(None, SendRenew, HSendRenew)
    case 6 => TransRow(Some(WaitForLifetimeRenew), WaitForLifetimeRenew, HSuccess)
    case 7 => TransRow(None, WaitForServerInit, HClear)
    case 8 => TransRow(None, Failed, HClear)
  }

  predicate TransMatches(i: nat, from: FlowState, to: FlowState)
    requires i < TRANS_ROWS
  {
    var row := TransTable(i);
    (row.from == Some(from) || row.from == None) && row.to == to
  }

  // ----- what the tables say ---------------------------------------------------------

  predicate IsShortLived(code: u32) { code == 7 || code == 8 || code == 10 || code == 13 }

  predicate IsLongLived(code: u32) {
    2 <= code <= 5 || code == 9 || code == 11 || code == 12
  }

  /** The state that an event leads to, None where no row matches. */
  function NextState(s: FlowState, e: FlowEvent): Option<FlowState> {
    match e
    case DoSend => Some(Send)
    case ServerRestarted => Some(Send)
    case SendFailed => Some(if s == WaitForLifetimeRenew || s == SendRenew then Send else Failed)
    case ServerInitialized =>
      if s == WaitForServerInit || s == WaitResp || s == Send then Some(Send) else None
    case FlowTimedOut =>
      if s == WaitResp || s == Send || s == WaitAfterShortLifeError then Some(Send)
      else if s == WaitForLifetimeRenew || s == SendRenew then Some(SendRenew)
      else None
    case MsgSent =>
      if s == Send then Some(WaitResp)
      else if s == SendRenew then Some(WaitForLifetimeRenew)
      else None
    case Ignored => if s == Send then Some(WaitForLifetimeRenew) else None
    case NoEvent => None
    case Result(code) =>
      if s != WaitResp && s != WaitForLifetimeRenew then None
      else if code == RES_SUCCESS then Some(WaitForLifetimeRenew)
      else if code == RES_UNSUPP_VERSION then Some(WaitForServerInit)
      else if IsShortLived(code) then
        Some(if s == WaitResp then WaitAfterShortLifeError else SendRenew)
      else if IsLongLived(code) then Some(Failed)
      else None
  }

  /** The handler of a transition, None where no row matches. */
  function HandlerFor(from: FlowState, to: FlowState): Option<Handler> {
    match to
    case WaitResp => Some(HWaitResp)
    case Send => Some(if from == WaitResp then HResend else HSend)
    case WaitAfterShortLifeError => Some(HShortLife)
    case WaitForLifetimeRenew =>
      if from == WaitResp || from == WaitForLifetimeRenew then Some(HSuccess) else None
    case SendRenew => Some(HSendRenew)
    case WaitForServerInit => Some(HClear)
    case Failed => Some(HClear)
    case Idle => None
  }

  /** Rows do not disagree, but for the catch-all of a failed send. */
  lemma EventRowAgrees(s: FlowState, e: FlowEvent, i: nat)
    requires i < EVENT_ROWS && EventMatches(i, s, e)
    ensures NextState(s, e) == Some(EventTable(i).next) || (i == 27 && FirstEventRow(s, e) < 27)
  {
  }

  /** The first matching row gives the next state; without one there is none. */
  lemma EventTableFirstMatch(s: FlowState, e: FlowEvent, i: nat)
    requires i <= EVENT_ROWS
    requires forall j: nat :: j < i ==> !EventMatches(j, s, e)
    requires i < EVENT_ROWS ==> EventMatches(i, s, e)
    ensures NextState(s, e) == if i < EVENT_ROWS then Some(EventTable(i).next) else None
  {
    var row := FirstEventRow(s, e);
    if row < EVENT_ROWS {
      assert EventMatches(row, s, e);
    }
    if i < EVENT_ROWS {
      EventRowAgrees(s, e, i);
    }
  }

  /** Where the first matching row of the event table is. */
  ghost function FirstEventRow(s: FlowState, e: FlowEvent): (i: nat)
    ensures i <= EVENT_ROWS
    ensures i < EVENT_ROWS ==> EventMatches(i, s, e) && NextState(s, e) == Some(EventTable(i).next)
    ensures i == EVENT_ROWS <==> NextState(s, e) == None
  {
    match e
    case DoSend => 0
    case ServerRestarted => 26
    case SendFailed => if s == WaitForLifetimeRenew then 20 else if s == SendRenew then 24 else 27
    case ServerInitialized =>
      if s == WaitForServerInit then 1 else if s == WaitResp then 9 else if s == Send then 10 else 42
    case FlowTimedOut =>
      if s == WaitResp then 8 else if s == Send then 12
      else if s == WaitAfterShortLifeError then 13
      else if s == WaitForLifetimeRenew then 14 else if s == SendRenew then 23 else 42
    case MsgSent => if s == Send then 11 else if s == SendRenew then 22 else 42
    case Ignored => if s == Send then 25 else 42
    case NoEvent => 42
    case Result(code) =>
      if s == WaitResp then
        if code == 0 then 2 else if code == 1 then 3 else if code == 7 then 4
        else if code == 8 then 5 else if code == 13 then 6 else if code == 10 then 7
        else if 2 <= code <= 5 then 26 + code else if code == 9 then 32
        else if code == 11 then 33 else if code == 12 then 34 else 42
      else if s == WaitForLifetimeRenew then
        if code == 0 then 15 else if code == 1 then 16 else if code == 7 then 17
        else if code == 8 then 18 else if code == 13 then 19 else if code == 10 then 21
        else if 2 <= code <= 5 then 33 + code else if code == 9 then 39
        else if code == 11 then 40 else if code == 12 then 41 else 42
      else 42
  }

  lemma TransTableFirstMatch(from: FlowState, to: FlowState, i: nat)
    requires i <= TRANS_ROWS
    requires forall j: nat :: j < i ==> !TransMatches(j, from, to)
    requires i < TRANS_ROWS ==> TransMatches(i, from, to)
    ensures HandlerFor(from, to) == if i < TRANS_ROWS then Some(TransTable(i).handler) else None
  {
    if i == TRANS_ROWS {
      assert !TransMatches(0, from, to) && !TransMatches(2, from, to) && !TransMatches(3, from, to);
      assert !TransMatches(4, from, to) && !TransMatches(5, from, to) && !TransMatches(6, from, to);
      assert !TransMatches(7, from, to) && !TransMatches(8, from, to);
    } else if i == 2 {
      assert !TransMatches(1, from, to);
    }
  }

  // ----- the handlers ----------------------------------------------------------------

  /** What a handler learns about the flow's server: there is one; the flow is the one
      whose message announced the restart being handled. */
  datatype Link = Link(hasServer: bool, isRestart: bool)

  function Min(a: int, b: int): int { if a < b then a else b }

  function Max(a: int, b: int): int { if a > b then a else b }

  /** PCP_RT: the retransmission time that follows one of rt milliseconds, in 32-bit
      arithmetic. */
  function RetransmissionTime(rt: u32, rnd: nat): u32 {
    var doubled := rt * 2 % U32;
    var base := Min(Max(doubled, PCP_RETX_IRT), PCP_RETX_MRT);
    (8192 + (1024 - rnd % 2048)) * base % U32 / 8192
  }

  function Transmitted(f: Flow): Flow {
    f.(hist := f.hist.(sent := f.hist.sent + 1))
  }

  /** fhndl_send */
  function HandleSend(f: Flow, link: Link, sys: Sys): (Flow, FlowEvent) {
    if !link.hasServer then (f, SendFailed)
    else if link.isRestart then (f, Ignored)
    else if !sys.ok then (f, SendFailed)
    else (Transmitted(f).(resend := PCP_RETX_IRT, timeout := sys.now + PCP_RETX_IRT * 1000), MsgSent)
  }

  /** fhndl_resend */
  function HandleResend(f: Flow, link: Link, sys: Sys): (Flow, FlowEvent) {
    if !link.hasServer then (f, SendFailed)
    else
      var f1 := f.(retry := f.retry + 1);
      if f1.retry >= PCP_RETX_MRC then (f1, SendFailed)
      else if !sys.ok then (f1, SendFailed)
      else
        var rt := RetransmissionTime(f1.resend, sys.rnd);
        (Transmitted(f1).(resend := rt, timeout := sys.now + rt * 1000,
                          hist := f1.hist.(sent := f1.hist.sent + 1, resent := f1.hist.resent + 1)),
         MsgSent)
  }

  /** fhndl_shortlifeerror */
  function HandleShortLife(f: Flow, msg: Msg, sys: Sys): (Flow, FlowEvent) {
    (f.(recvResult := msg.result, timeout := sys.now + msg.lifetime * SECOND), NoEvent)
  }

  function LifetimeEnd(msg: Msg): int {
    if msg.lifetime > LONG_MAX - msg.received then LONG_MAX else msg.received + msg.lifetime
  }

  /** Half of the lifetime that is left at the second of the clock, rounded down. */
  function HalfLeft(end: int, now: int): int { (end - now / SECOND) / 2 }

  /** fhndl_received_success */
  function HandleSuccess(f: Flow, msg: Msg, sys: Sys): (Flow, FlowEvent) {
    var end := LifetimeEnd(msg);
    var f1 := if f.key.op == OP_MAP || f.key.op == OP_PEER then f.(ext := msg.ext) else f;
    (f1.(recvLifetime := end, recvResult := msg.result,
         timeout := if msg.lifetime == 0 then 0 else sys.now + HalfLeft(end, sys.now) * SECOND),
     NoEvent)
  }

  /** fhndl_send_renew */
  function HandleSendRenew(f: Flow, link: Link, sys: Sys): (Flow, FlowEvent) {
    if !link.hasServer then (f, SendFailed)
    else if !sys.ok then (f, SendFailed)
    else
      var add := HalfLeft(f.recvLifetime, sys.now);
      if add == 0 then (Transmitted(f).(timeout := sys.now), SendFailed)
      else (Transmitted(f).(timeout := sys.now + add * SECOND), MsgSent)
  }

  /** fhndl_clear_timeouts */
  function HandleClear(f: Flow, msg: Option<Msg>): (Flow, FlowEvent) {
    var f1 := if msg.Some? then f.(recvResult := msg.value.result) else f;
    (f1.(timeout := 0), NoEvent)
  }

  /** fhndl_waitresp */
  function HandleWaitResp(f: Flow, sys: Sys): (Flow, FlowEvent) {
    (f, if f.timeout < sys.now then SendFailed else NoEvent)
  }

  /** The events with which a handler can answer. */
  predicate Answers(h: Handler, e: FlowEvent) {
    match h
    case HSend => e == SendFailed || e == MsgSent || e == Ignored
    case HResend => e == SendFailed || e == MsgSent
    case HSendRenew => e == SendFailed || e == MsgSent
    case HWaitResp => e == SendFailed || e == NoEvent
    case _ => e == NoEvent
  }

  function Handle(h: Handler, f: Flow, link: Link, msg: Option<Msg>, sys: Sys): (r: (Flow, FlowEvent))
    requires h == HShortLife || h == HSuccess ==> msg.Some?
    ensures r.0.state == f.state && Answers(h, r.1)
  {
    match h
    case HWaitResp => HandleWaitResp(f, sys)
    case HResend => HandleResend(f, link, sys)
    case HSend => HandleSend(f, link, sys)
    case HShortLife => HandleShortLife(f, msg.value, sys)
    case HSuccess => HandleSuccess(f, msg.value, sys)
    case HSendRenew => HandleSendRenew(f, link, sys)
    case HClear => HandleClear(f, msg)
  }

  // ----- the chain -------------------------------------------------------------------

  /** How many more handlers an event can set off at most. */
  function Rank(s: FlowState, e: FlowEvent): nat {
    match NextState(s, e)
    case None => 0
    case Some(SendRenew) => 4
    case Some(Send) => 3
    case Some(WaitResp) => 2
    case Some(_) => 1
  }

  /** Events that come with a message have one; handlers never return such events. */
  predicate EventOk(e: FlowEvent, msg: Option<Msg>) {
    e.Result? ==> msg.Some?
  }

  /** handle_flow_event: the flow after the whole chain of transitions, and the number of
      looks at the outside world, one for each handler that was run. */
  function RunFlow(env: Env, k: nat, f: Flow, link: Link, e: FlowEvent, msg: Option<Msg>): (r: (Flow, nat))
    requires EventOk(e, msg)
    ensures k <= r.1 <= k + Rank(f.state, e)
    decreases Rank(f.state, e)
  {
    match NextState(f.state, e)
    case None => (f, k)
    case Some(next) =>
      match HandlerFor(f.state, next)
      case None => (f.(state := next), k)
      case Some(h) =>
        var (f1, e1) := Handle(h, f.(state := next), link, msg, env(k));
        if e1 == NoEvent then (f1, k + 1) else RunFlow(env, k + 1, f1, link, e1, msg)
  }

  /** One transition of a chain. */
  lemma RunFlowUnfold(env: Env, k: nat, f: Flow, link: Link, e: FlowEvent, msg: Option<Msg>)
    requires EventOk(e, msg)
    ensures match NextState(f.state, e)
            case None => RunFlow(env, k, f, link, e, msg) == (f, k)
            case Some(next) =>
              match HandlerFor(f.state, next)
              case None => RunFlow(env, k, f, link, e, msg) == (f.(state := next), k)
              case Some(h) =>
                && (h == HShortLife || h == HSuccess ==> msg.Some?)
                && var (f1, e1) := Handle(h, f.(state := next), link, msg, env(k));
                   && EventOk(e1, msg)
                   && (if e1 == NoEvent then RunFlow(env, k, f, link, e, msg) == (f1, k + 1)
                       else RunFlow(env, k, f, link, e, msg) == RunFlow(env, k + 1, f1, link, e1, msg)
                            && Rank(f1.state, e1) < Rank(f.state, e))
  {
    hide Handle;
  }

  predicate Resting(s: FlowState) { s != Send && s != SendRenew }

  /** Any event sets off at most four handlers, and a flow that took a transition
      comes to rest outside the two sending states; an event without a row changes nothing. */
  lemma {:induction false} ChainEndsAtRest(env: Env, k: nat, f: Flow, link: Link, e: FlowEvent, msg: Option<Msg>)
    requires EventOk(e, msg)
    ensures var (f', k') := RunFlow(env, k, f, link, e, msg);
            && k' <= k + 4
            && (NextState(f.state, e).Some? ==> Resting(f'.state))
            && (NextState(f.state, e).None? ==> f' == f && k' == k)
    decreases Rank(f.state, e)
  {
    hide Handle;
    match NextState(f.state, e)
    case None =>
    case Some(next) =>
      match HandlerFor(f.state, next)
      case None =>
      case Some(h) =>
        var (f1, e1) := Handle(h, f.(state := next), link, msg, env(k));
        if e1 != NoEvent {
          ChainEndsAtRest(env, k + 1, f1, link, e1, msg);
        }
  }

  /** The bound of four is reached: a renewal that cannot be sent falls back to a plain
      send, and if the clock then jumps past the retransmission timer the flow fails. */
  lemma {:induction false} FourHandlersHappen(f: Flow)
    requires f.state == WaitForLifetimeRenew
    ensures var env := (k: nat) => if k == 0 then Sys(1, false, 0)
                                   else if k == 1 then Sys(1, true, 0) else Sys(10000000, true, 0);
            var (f', k') := RunFlow(env, 0, f, Link(true, false), FlowTimedOut, None);
            k' == 4 && f'.state == Failed
  {
    var env := (k: nat) => if k == 0 then Sys(1, false, 0)
                           else if k == 1 then Sys(1, true, 0) else Sys(10000000, true, 0);
    var link := Link(true, false);
    var (f1, e1) := Handle(HSendRenew, f.(state := SendRenew), link, None, env(0));
    var (f2, e2) := Handle(HSend, f1.(state := Send), link, None, env(1));
    var (f3, e3) := Handle(HWaitResp, f2.(state := WaitResp), link, None, env(2));
    var (f4, e4) := Handle(HClear, f3.(state := Failed), link, None, env(3));
    assert RunFlow(env, 3, f3, link, e3, None) == (f4, 4);
    assert RunFlow(env, 2, f2, link, e2, None) == (f4, 4);
    assert RunFlow(env, 1, f1, link, e1, None) == (f4, 4);
  }

  /** What identifies a flow, what the application asked for and what was received for it. */
  ghost predicate SameIdentity(f: Flow, f': Flow) {
    && f'.key == f.key && f'.server == f.server && f'.nextChild == f.nextChild
    && f'.lifetime == f.lifetime
    && f'.hist.matched == f.hist.matched && f'.hist.succeeded == f.hist.succeeded
    && f'.hist.spared == f.hist.spared
    && f.hist.sent <= f'.hist.sent
  }

  lemma HandlerFrame(h: Handler, f: Flow, link: Link, msg: Option<Msg>, sys: Sys)
    requires h == HShortLife || h == HSuccess ==> msg.Some?
    ensures SameIdentity(f, Handle(h, f, link, msg, sys).0)
  {
  }

  /** No chain touches the identity of a flow. */
  lemma {:induction false} ChainFrame(env: Env, k: nat, f: Flow, link: Link, e: FlowEvent, msg: Option<Msg>)
    requires EventOk(e, msg)
    ensures SameIdentity(f, RunFlow(env, k, f, link, e, msg).0)
    decreases Rank(f.state, e)
  {
    hide Handle;
    match NextState(f.state, e)
    case None =>
    case Some(next) =>
      match HandlerFor(f.state, next)
      case None =>
      case Some(h) =>
        var (f1, e1) := Handle(h, f.(state := next), link, msg, env(k));
        HandlerFrame(h, f.(state := next), link, msg, env(k));
        if e1 != NoEvent {
          ChainFrame(env, k + 1, f1, link, e1, msg);
        }
  }
}
