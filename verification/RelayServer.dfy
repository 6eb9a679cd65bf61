/**
 The relay server as interleaved handler steps (swarm/relay.go): authentication, the session table,
 and forwarding under per-session mutexes, with a frame's header and payload as two separate writes.

 Handler `c` serves connection `c` and owns the one session made for it, so one number names all three.
 */
module RelayServer {
  import opened Common
  import opened SwarmTypes
  import opened Paseto
  import opened RelayCodec

  /** Where a write of one frame under a session mutex stands. */
  datatype Stage = Waiting | Locked | HeaderSent | Unlocking(failed: bool)

  datatype Pc =
    | Authenticating
    | SendingAuthFail
    | SendingAuthOK
    | Adding
    | Reading
    | Routing(dst: EndpointAddr, payload: Bytes)
    | NoRouting(dst: EndpointAddr)
    | Sending(target: nat, frame: Frame, own: bool, stage: Stage)
    | Dropping(target: nat)
    | Closing
    | Removed
    | Closed

  /** The token a session was opened with, when, and the claims it carried. */
  datatype Session = Session(token: string, at: int, claims: TokenClaims) {
    function Addr(): EndpointAddr {
      EndpointAddr(claims.domain, claims.group, claims.endpointID, claims.roleFlags)
    }
  }

  /** `inputs` is the history of frames read after authentication; `delivered` says where each went. */
  datatype Handler = Handler(pc: Pc, session: Option<Session>, inputs: seq<Frame>, delivered: map<nat, nat>)

  /** A frame the relay sends answers one frame that some handler read, except for the two control frames. */
  datatype Origin = Control | From(sender: nat, index: nat)

  datatype Entry = Entry(frame: Frame, origin: Origin)

  /** The bytes of an unfinished frame already sent. */
  datatype Tail = Clean | Partial(frame: Frame, n: nat)

  /** `log` is the history of whole frames sent, in order; `noRoute` marks a write outside the mutex. */
  datatype Channel = Channel(out: Bytes, dead: bool, lock: Option<nat>, noRoute: bool, log: seq<Entry>, tail: Tail)

  /** `latest` and `failed` are history: the last session added per key, and sessions removed by a failed delivery. */
  datatype State = State(
    handlers: seq<Handler>,
    channels: seq<Channel>,
    table: map<string, nat>,
    latest: map<string, nat>,
    failed: set<nat>)

  /** How the relay opens tokens and keys its table; RelayConfig gives the code's own choices. */
  datatype Config = Config(open: (string, int) -> Result<TokenClaims, TokenError>, key: EndpointAddr -> string)

  function RelayConfig(p: Primitives): Config {
    Config((token, now) => VerifyToken(p, token, now), (a: EndpointAddr) => a.AddrKey())
  }

  const INIT := State([], [], map[], map[], {})
  const NEW_HANDLER := Handler(Authenticating, None, [], map[])
  const NEW_CHANNEL := Channel([], false, None, false, [], Clean)

  function ControlFrame(kind: Byte): Frame {
    Frame(kind, 0, 0, 0, [])
  }

  /** Names the destination that no session is connected for. */
  function NoRouteFrame(dst: EndpointAddr): Frame {
    Frame(FRAME_NO_ROUTE, dst.domain, dst.group, dst.endpoint, [])
  }

  function PongFrame(payload: Bytes): Frame {
    Frame(FRAME_PONG, 0, 0, 0, payload)
  }

  /** A forwarded frame names its sender where the incoming frame named its destination. */
  function ForwardFrame(src: EndpointAddr, payload: Bytes): Frame {
    Frame(FRAME_DATA, src.domain, src.group, src.endpoint, payload)
  }

  function DestinationOf(f: Frame): EndpointAddr {
    EndpointAddr(f.domain, f.group, f.endpoint, 0)
  }

  function TokenOf(payload: Bytes): string {
    seq(|payload|, i requires 0 <= i < |payload| => payload[i] as char)
  }

  /** A write either sends the whole chunk, or fails after some of it; a dead connection takes nothing. */
  datatype WriteResult = Full | Short(n: nat)

  predicate CanWrite(ch: Channel, chunk: Bytes, w: WriteResult) {
    match w
    case Full => !ch.dead
    case Short(n) => n < |chunk| && (ch.dead ==> n == 0)
  }

  function PutHeader(ch: Channel, e: Entry, w: WriteResult): Channel
    requires CanWrite(ch, EncodeHeader(HeaderOf(e.frame)), w)
  {
    var hdr := EncodeHeader(HeaderOf(e.frame));
    match w
    case Full =>
      if |e.frame.payload| == 0 then ch.(out := ch.out + hdr, log := ch.log + [e])
      else ch.(out := ch.out + hdr, tail := Partial(e.frame, HEADER_SIZE))
    case Short(n) =>
      ch.(out := ch.out + hdr[..n], dead := true, tail := if n == 0 then ch.tail else Partial(e.frame, n))
  }

  function PutPayload(ch: Channel, e: Entry, w: WriteResult): Channel
    requires CanWrite(ch, e.frame.payload, w)
  {
    match w
    case Full => ch.(out := ch.out + e.frame.payload, log := ch.log + [e], tail := Clean)
    case Short(n) => ch.(out := ch.out + e.frame.payload[..n], dead := true, tail := Partial(e.frame, HEADER_SIZE + n))
  }

  datatype Step =
    | Accept
    | Authenticate(c: nat, first: Result<Frame, ReadError>, now: int)
    | WriteAuthFail(c: nat, w: WriteResult)
    | WriteAuthOK(c: nat, w: WriteResult)
    | AddSession(c: nat)
    | Read(c: nat, r: Result<Frame, ReadError>)
    | Lookup(c: nat)
    | WriteNoRoute(c: nat, w: WriteResult)
    | Lock(c: nat)
    | WriteHeader(c: nat, w: WriteResult)
    | WritePayload(c: nat, w: WriteResult)
    | Unlock(c: nat)
    | DropTarget(c: nat)
    | RemoveSelf(c: nat)
    | CloseConn(c: nat)
    | Break(c: nat)

  /** The index of the frame a handler is working on. */
  function LastInput(h: Handler): nat {
    if h.inputs == [] then 0 else |h.inputs| - 1
  }

  function EntryFor(s: State, c: nat): Entry
    requires c < |s.handlers| && s.handlers[c].pc.Sending?
  {
    var h := s.handlers[c];
    Entry(h.pc.frame, From(c, LastInput(h)))
  }

  predicate AtStage(s: State, c: nat, st: Stage) {
    c < |s.handlers| && s.handlers[c].pc.Sending? && s.handlers[c].pc.stage == st
        && s.handlers[c].pc.target < |s.channels|
  }

  predicate WellFormed(s: State) {
    |s.handlers| == |s.channels|
  }

  /** Which steps the code can take from a state, with the results its reads and writes can have. */
  predicate Enabled(cfg: Config, s: State, step: Step)
    requires WellFormed(s)
  {
    if step.Accept? then true
    else
      step.c < |s.handlers|
      && var h, ch := s.handlers[step.c], s.channels[step.c];
         match step
         case Authenticate(c, first, now) => h.pc.Authenticating?
         case WriteAuthFail(c, w) => h.pc.SendingAuthFail?
             && CanWrite(ch, EncodeHeader(HeaderOf(ControlFrame(FRAME_AUTH_FAIL))), w)
         case WriteAuthOK(c, w) => h.pc.SendingAuthOK?
             && CanWrite(ch, EncodeHeader(HeaderOf(ControlFrame(FRAME_AUTH_OK))), w)
         case AddSession(c) => h.pc.Adding? && h.session.Some?
         case Read(c, r) => h.pc.Reading? && h.session.Some? && (r.Ok? ==> |r.value.payload| <= MAX_PAYLOAD)
         case Lookup(c) => h.pc.Routing? && h.session.Some?
         case WriteNoRoute(c, w) => h.pc.NoRouting? && CanWrite(ch, EncodeHeader(HeaderOf(NoRouteFrame(h.pc.dst))), w)
         case Lock(c) => AtStage(s, c, Waiting) && s.channels[h.pc.target].lock.None?
         case WriteHeader(c, w) => AtStage(s, c, Locked)
             && CanWrite(s.channels[h.pc.target], EncodeHeader(HeaderOf(h.pc.frame)), w)
         case WritePayload(c, w) => AtStage(s, c, HeaderSent)
             && CanWrite(s.channels[h.pc.target], h.pc.frame.payload, w)
         case Unlock(c) => AtStage(s, c, Unlocking(true)) || AtStage(s, c, Unlocking(false))
         case DropTarget(c) => h.pc.Dropping? && h.pc.target < |s.handlers| && s.handlers[h.pc.target].session.Some?
         case RemoveSelf(c) => h.pc.Closing? && h.session.Some?
         case CloseConn(c) => h.pc.Removed?
         case Break(c) => true
         case Accept => true
  }

  function KeyOf(cfg: Config, s: State, c: nat): string
    requires c < |s.handlers| && s.handlers[c].session.Some?
  {
    cfg.key(s.handlers[c].session.value.Addr())
  }

  function AfterAuth(cfg: Config, h: Handler, first: Result<Frame, ReadError>, now: int): Handler {
    if first.Ok? && first.value.kind == FRAME_AUTH && cfg.open(TokenOf(first.value.payload), now).Ok? then
      var token := TokenOf(first.value.payload);
      h.(pc := SendingAuthOK, session := Some(Session(token, now, cfg.open(token, now).value)))
    else h.(pc := SendingAuthFail)
  }

  function AfterRead(c: nat, h: Handler, r: Result<Frame, ReadError>): Handler {
    match r
    case Err(_) => h.(pc := Closing)
    case Ok(f) =>
      var pc :=
        if f.kind == FRAME_PING then Sending(c, PongFrame(f.payload), true, Waiting)
        else if f.kind == FRAME_DATA then Routing(DestinationOf(f), f.payload)
        else Reading;
      h.(pc := pc, inputs := h.inputs + [f])
  }

  function AfterLookup(cfg: Config, s: State, h: Handler): Handler
    requires h.pc.Routing? && h.session.Some?
  {
    var key := cfg.key(h.pc.dst);
    if key in s.table then
      h.(pc := Sending(s.table[key], ForwardFrame(h.session.value.Addr(), h.pc.payload), false, Waiting))
    else h.(pc := NoRouting(h.pc.dst))
  }

  /** The frame has been sent whole: the sender's history records where its last input went. */
  function Finish(h: Handler): Handler
    requires h.pc.Sending?
  {
    h.(pc := h.pc.(stage := Unlocking(false)), delivered := h.delivered[LastInput(h) := h.pc.target])
  }

  function AfterHeader(h: Handler, w: WriteResult): Handler
    requires h.pc.Sending?
  {
    match w
    case Short(_) => h.(pc := h.pc.(stage := Unlocking(true)))
    case Full => if |h.pc.frame.payload| == 0 then Finish(h) else h.(pc := h.pc.(stage := HeaderSent))
  }

  function AfterPayload(h: Handler, w: WriteResult): Handler
    requires h.pc.Sending?
  {
    if w.Full? then Finish(h) else h.(pc := h.pc.(stage := Unlocking(true)))
  }

  function AfterUnlock(pc: Pc): Pc
    requires pc.Sending? && pc.stage.Unlocking?
  {
    if !pc.stage.failed then Reading else if pc.own then Closing else Dropping(pc.target)
  }

  /** The acting handler after a step. */
  function HandlerAfter(cfg: Config, s: State, step: Step): Handler
    requires WellFormed(s) && Enabled(cfg, s, step) && !step.Accept?
  {
    var h := s.handlers[step.c];
    match step
    case Authenticate(c, first, now) => AfterAuth(cfg, h, first, now)
    case WriteAuthFail(c, w) => h.(pc := Closed)
    case WriteAuthOK(c, w) => h.(pc := Adding)
    case AddSession(c) => h.(pc := Reading)
    case Read(c, r) => AfterRead(c, h, r)
    case Lookup(c) => AfterLookup(cfg, s, h)
    case WriteNoRoute(c, w) => h.(pc := Reading)
    case Lock(c) => h.(pc := h.pc.(stage := Locked))
    case WriteHeader(c, w) => AfterHeader(h, w)
    case WritePayload(c, w) => AfterPayload(h, w)
    case Unlock(c) => h.(pc := AfterUnlock(h.pc))
    case DropTarget(c) => h.(pc := Reading)
    case RemoveSelf(c) => h.(pc := Removed)
    case CloseConn(c) => h.(pc := Closed)
    case Break(c) => h
  }

  /** The connection a step touches. */
  function Touched(s: State, step: Step): nat
    requires !step.Accept? && step.c < |s.handlers|
  {
    if (step.Lock? || step.WriteHeader? || step.WritePayload? || step.Unlock?) && s.handlers[step.c].pc.Sending? then
      s.handlers[step.c].pc.target
    else step.c
  }

  /** The touched connection after a step. */
  function ChannelAfter(cfg: Config, s: State, step: Step): Channel
    requires WellFormed(s) && Enabled(cfg, s, step) && !step.Accept?
  {
    var ch := s.channels[Touched(s, step)];
    match step
    case WriteAuthFail(c, w) => PutHeader(ch, Entry(ControlFrame(FRAME_AUTH_FAIL), Control), w).(dead := true)
    case WriteAuthOK(c, w) => PutHeader(ch, Entry(ControlFrame(FRAME_AUTH_OK), Control), w)
    case WriteNoRoute(c, w) =>
      var hdr := EncodeHeader(HeaderOf(NoRouteFrame(s.handlers[c].pc.dst)));
      ch.(out := ch.out + (if w.Full? then hdr else hdr[..w.n]), dead := ch.dead || w.Short?, noRoute := true)
    case Lock(c) => ch.(lock := Some(c))
    case WriteHeader(c, w) => PutHeader(ch, EntryFor(s, c), w)
    case WritePayload(c, w) => PutPayload(ch, EntryFor(s, c), w)
    case Unlock(c) => ch.(lock := None)
    case CloseConn(c) => ch.(dead := true)
    case Break(c) => ch.(dead := true)
    case _ => ch
  }

  /** removeSession: deletes the entry only if it is still this very session. */
  function Without(table: map<string, nat>, key: string, c: nat): map<string, nat> {
    if key in table && table[key] == c then table - {key} else table
  }

  function RemoveSession(cfg: Config, s: State, c: nat): map<string, nat>
    requires c < |s.handlers| && s.handlers[c].session.Some?
  {
    Without(s.table, KeyOf(cfg, s, c), c)
  }

  function TableAfter(cfg: Config, s: State, step: Step): map<string, nat>
    requires WellFormed(s) && Enabled(cfg, s, step)
  {
    match step
    case AddSession(c) => s.table[KeyOf(cfg, s, c) := c]
    case DropTarget(c) => RemoveSession(cfg, s, s.handlers[c].pc.target)
    case RemoveSelf(c) => RemoveSession(cfg, s, c)
    case _ => s.table
  }

  function Next(cfg: Config, s: State, step: Step): State
    requires WellFormed(s) && Enabled(cfg, s, step)
  {
    if step.Accept? then s.(handlers := s.handlers + [NEW_HANDLER], channels := s.channels + [NEW_CHANNEL])
    else
      State(s.handlers[step.c := HandlerAfter(cfg, s, step)],
            s.channels[Touched(s, step) := ChannelAfter(cfg, s, step)],
            TableAfter(cfg, s, step),
            if step.AddSession? then s.latest[KeyOf(cfg, s, step.c) := step.c] else s.latest,
            if step.DropTarget? then s.failed + {s.handlers[step.c].pc.target} else s.failed)
  }

  /** The states of every run of legal steps from the empty server. */
  ghost predicate Reachable(cfg: Config, steps: seq<Step>, s: State)
    decreases |steps|
  {
    if steps == [] then s == INIT
    else
      var n := |steps| - 1;
      exists before :: Reachable(cfg, steps[..n], before) && WellFormed(before) && Enabled(cfg, before, steps[n])
        && s == Next(cfg, before, steps[n])
  }

  /** The mutable session map; each method is one atomic step under the server's own lock. */
  class SessionTable {
    var sessions: map<string, nat>

    constructor ()
      ensures sessions == map[]
    {
      sessions := map[];
    }

    method Add(key: string, c: nat)
      modifies this
      ensures sessions == old(sessions)[key := c]
    {
      sessions := sessions[key := c];
    }

    method Remove(key: string, c: nat)
      modifies this
      ensures sessions == Without(old(sessions), key, c)
      ensures forall k :: k in sessions <==> k in old(sessions) && !(k == key && old(sessions)[k] == c)
      ensures forall k :: k in sessions ==> sessions[k] == old(sessions)[k]
    {
      if key in sessions {
        var current := sessions[key];
        if current == c {
          sessions := sessions - {key};
        }
      }
    }

    method Get(key: string) returns (r: Option<nat>)
      ensures r == if key in sessions then Some(sessions[key]) else None
    {
      r := if key in sessions then Some(sessions[key]) else None;
    }

    /** What a step does to the table: the handler's own session enters or leaves, or its failed target leaves. */
    method Perform(cfg: Config, s: State, step: Step)
      requires WellFormed(s) && Enabled(cfg, s, step) && sessions == s.table
      modifies this
      ensures sessions == Next(cfg, s, step).table
    {
      match step {
        case AddSession(c) => Add(KeyOf(cfg, s, c), c);
        case DropTarget(c) => Remove(KeyOf(cfg, s, s.handlers[c].pc.target), s.handlers[c].pc.target);
        case RemoveSelf(c) => Remove(KeyOf(cfg, s, c), c);
        case _ =>
      }
    }

    /** The lookup of a data frame's destination, and what the handler does next. */
    method Route(cfg: Config, s: State, c: nat) returns (next: Handler)
      requires WellFormed(s) && Enabled(cfg, s, Lookup(c)) && sessions == s.table
      ensures next == HandlerAfter(cfg, s, Lookup(c))
    {
      var h := s.handlers[c];
      var target := Get(cfg.key(h.pc.dst));
      if target.None? {
        return h.(pc := NoRouting(h.pc.dst));
      }
      return h.(pc := Sending(target.value, ForwardFrame(h.session.value.Addr(), h.pc.payload), false, Waiting));
    }
  }
}
