/** What every interleaving of relay handlers keeps. */
module RelaySafety {
  import opened Common
  import opened SwarmTypes
  import opened Paseto
  import opened RelayCodec
  import opened RelayServer

  predicate Early(h: Handler) {
    h.pc.Authenticating? || h.pc.SendingAuthFail? || h.pc.SendingAuthOK?
  }

  /** The handler's session has been offered to the table, so other handlers may hold it. */
  predicate Published(h: Handler) {
    h.session.Some? && !Early(h) && !h.pc.Adding?
  }

  /** The handler has run its deferred removal. */
  predicate Gone(h: Handler) {
    h.pc.Removed? || h.pc.Closed?
  }

  predicate InCritical(h: Handler, t: nat) {
    h.pc.Sending? && h.pc.target == t && h.pc.stage != Waiting
  }

  predicate PublishedAt(s: State, c: nat) {
    c < |s.handlers| && Published(s.handlers[c])
  }

  /** The frame that answers input `f`, read by a handler with this address. */
  function Answer(addr: EndpointAddr, f: Frame): Frame {
    if f.kind == FRAME_PING then PongFrame(f.payload) else ForwardFrame(addr, f.payload)
  }

  /** Input `f`, read by handler `c`, is answered on connection `t`. */
  predicate AnswersTo(cfg: Config, s: State, c: nat, f: Frame, t: nat)
    requires PublishedAt(s, c) && PublishedAt(s, t)
  {
    if f.kind == FRAME_PING then t == c
    else f.kind == FRAME_DATA && cfg.key(DestinationOf(f)) == KeyOf(cfg, s, t)
  }

  predicate Unanswered(h: Handler) {
    h.pc.Routing? || (h.pc.Sending? && h.pc.stage != Unlocking(false))
  }

  ghost predicate HandlerOK(cfg: Config, s: State, c: nat)
    requires c < |s.handlers|
  {
    var h := s.handlers[c];
    && (h.session.Some? ==> cfg.open(h.session.value.token, h.session.value.at) == Ok(h.session.value.claims))
    && (h.pc.Authenticating? || h.pc.SendingAuthFail? ==> h.session.None?)
    && (h.session.None? ==> h.pc.Authenticating? || h.pc.SendingAuthFail? || h.pc.Closed?)
    && (!Published(h) ==> h.inputs == [] && h.delivered == map[])
    && (forall i :: i in h.delivered ==> i < |h.inputs| && (Unanswered(h) ==> i < |h.inputs| - 1))
    && (Unanswered(h) ==> h.inputs != [])
    && match h.pc
       case Routing(dst, payload) =>
         var f := h.inputs[|h.inputs| - 1];
         f.kind == FRAME_DATA && dst == DestinationOf(f) && payload == f.payload && |payload| <= MAX_PAYLOAD
       case Sending(t, frame, own, stage) =>
         && PublishedAt(s, t) && h.inputs != [] && |frame.payload| <= MAX_PAYLOAD
         && var f := h.inputs[|h.inputs| - 1];
            frame == Answer(h.session.value.Addr(), f) && AnswersTo(cfg, s, c, f, t)
       case Dropping(t) => PublishedAt(s, t)
       case _ => true
  }

  ghost predicate HandlersOK(cfg: Config, s: State) {
    forall c: nat :: c < |s.handlers| ==> HandlerOK(cfg, s, c)
  }

  /** A session mutex is held exactly by the handler inside its critical section. */
  ghost predicate LocksOK(s: State) {
    && (forall t :: 0 <= t < |s.channels| && s.channels[t].lock.Some? ==>
         s.channels[t].lock.value < |s.handlers| && InCritical(s.handlers[s.channels[t].lock.value], t))
    && (forall c, t :: 0 <= c < |s.handlers| && 0 <= t < |s.channels| && InCritical(s.handlers[c], t) ==>
         s.channels[t].lock == Some(c))
  }

  function FramesOf(log: seq<Entry>): seq<Frame> {
    if log == [] then [] else FramesOf(log[..|log| - 1]) + [log[|log| - 1].frame]
  }

  function TailBytes(tail: Tail): Bytes {
    match tail
    case Clean => []
    case Partial(f, n) => if n <= |Encode(f)| then Encode(f)[..n] else []
  }

  predicate EntryShape(e: Entry, k: nat) {
    && |e.frame.payload| <= MAX_PAYLOAD
    && (k == 0 <==> e.origin.Control?)
    && (k == 0 ==> e.frame == ControlFrame(FRAME_AUTH_OK) || e.frame == ControlFrame(FRAME_AUTH_FAIL))
  }

  predicate Opened(h: Handler) {
    Published(h) || h.pc.Adding?
  }

  predicate SendingPayload(h: Handler, t: nat) {
    InCritical(h, t) && h.pc.stage == HeaderSent
  }

  /** The bytes sent are the logged frames, whole and in order, and then at most one unfinished frame. */
  predicate OutputOK(ch: Channel) {
    && (!ch.noRoute ==> ch.out == EncodeAll(FramesOf(ch.log)) + TailBytes(ch.tail))
    && (ch.tail.Partial? ==> ch.tail.n < |Encode(ch.tail.frame)| && |ch.tail.frame.payload| <= MAX_PAYLOAD)
  }

  /** A live connection has an unfinished frame exactly while the mutex holder is between its two writes. */
  ghost predicate TailOwned(s: State, t: nat)
    requires t < |s.channels|
  {
    var ch := s.channels[t];
    && (ch.tail.Partial? && !ch.dead ==>
         ch.lock.Some? && ch.lock.value < |s.handlers| && SendingPayload(s.handlers[ch.lock.value], t))
    && (forall c: nat :: c < |s.handlers| && SendingPayload(s.handlers[c], t) ==>
         ch.tail == Partial(s.handlers[c].pc.frame, HEADER_SIZE))
  }

  predicate PhaseOK(ch: Channel, h: Handler) {
    && (Early(h) ==> ch.log == [] && ch.tail == Clean && !ch.noRoute)
    && (Opened(h) ==> ch.dead || ch.log != [])
    && (Opened(h) && ch.log != [] ==> ch.log[0].frame == ControlFrame(FRAME_AUTH_OK))
  }

  ghost predicate ShapesOK(ch: Channel) {
    forall k :: 0 <= k < |ch.log| ==> EntryShape(ch.log[k], k)
  }

  ghost predicate ChannelOK(s: State, t: nat)
    requires t < |s.channels| && WellFormed(s)
  {
    OutputOK(s.channels[t]) && TailOwned(s, t) && PhaseOK(s.channels[t], s.handlers[t]) && ShapesOK(s.channels[t])
  }

  ghost predicate ChannelsOK(s: State) {
    WellFormed(s) && forall t: nat :: t < |s.channels| ==> ChannelOK(s, t)
  }

  /** A logged frame answers an input that its sender read, addressed to this connection's session. */
  predicate DeliveryOK(cfg: Config, s: State, t: nat, e: Entry) {
    e.origin.From? ==>
      var c, i := e.origin.sender, e.origin.index;
      && PublishedAt(s, c) && PublishedAt(s, t)
      && i < |s.handlers[c].inputs| && i in s.handlers[c].delivered && s.handlers[c].delivered[i] == t
      && AnswersTo(cfg, s, c, s.handlers[c].inputs[i], t)
      && e.frame == Answer(s.handlers[c].session.value.Addr(), s.handlers[c].inputs[i])
  }

  predicate Follows(a: Entry, b: Entry) {
    a.origin.From? && b.origin.From? && a.origin.sender == b.origin.sender ==> a.origin.index < b.origin.index
  }

  ghost predicate LogOK(cfg: Config, s: State, t: nat)
    requires t < |s.channels|
  {
    var log := s.channels[t].log;
    && (forall k :: 0 <= k < |log| ==> DeliveryOK(cfg, s, t, log[k]))
    && (forall j, k :: 0 <= j < k < |log| ==> Follows(log[j], log[k]))
  }

  ghost predicate LogsOK(cfg: Config, s: State) {
    forall t: nat :: t < |s.channels| ==> LogOK(cfg, s, t)
  }

  /** A table entry sits under its own token's key, and its handler has not run its deferred removal. */
  predicate EntryOK(cfg: Config, s: State, key: string, c: nat) {
    && PublishedAt(s, c) && KeyOf(cfg, s, c) == key && !Gone(s.handlers[c]) && c !in s.failed
    && key in s.latest && s.latest[key] == c
  }

  predicate LatestOK(cfg: Config, s: State, key: string, c: nat) {
    && PublishedAt(s, c) && KeyOf(cfg, s, c) == key
    && (key in s.table || Gone(s.handlers[c]) || c in s.failed)
  }

  ghost predicate TableOK(cfg: Config, s: State) {
    && (forall key :: key in s.table ==> EntryOK(cfg, s, key, s.table[key]))
    && (forall key :: key in s.latest ==> LatestOK(cfg, s, key, s.latest[key]))
    && (forall c :: c in s.failed ==> PublishedAt(s, c))
  }

  ghost predicate Inv(cfg: Config, s: State) {
    WellFormed(s) && HandlersOK(cfg, s) && LocksOK(s) && ChannelsOK(s) && LogsOK(cfg, s) && TableOK(cfg, s)
  }

  // ---------- how one step changes the state ----------

  /** A handler's session, published status, inputs and deliveries only grow. */
  predicate HandlerEvolves(h: Handler, h': Handler) {
    && (h.session.Some? ==> h'.session == h.session)
    && (Published(h) ==> Published(h'))
    && h.inputs <= h'.inputs
    && (forall i :: i in h.delivered ==> i in h'.delivered && h'.delivered[i] == h.delivered[i])
  }

  ghost predicate Evolves(s: State, s': State) {
    && |s.handlers| <= |s'.handlers|
    && forall c :: 0 <= c < |s.handlers| ==> HandlerEvolves(s.handlers[c], s'.handlers[c])
  }

  lemma ActorEvolves(cfg: Config, s: State, step: Step)
    requires Inv(cfg, s) && Enabled(cfg, s, step) && !step.Accept?
    ensures HandlerEvolves(s.handlers[step.c], HandlerAfter(cfg, s, step))
  {
    assert HandlerOK(cfg, s, step.c);
    SoundActorEvolves(cfg, s, step);
  }

  lemma SoundActorEvolves(cfg: Config, s: State, step: Step)
    requires WellFormed(s) && Enabled(cfg, s, step) && !step.Accept? && HandlerOK(cfg, s, step.c)
    ensures HandlerEvolves(s.handlers[step.c], HandlerAfter(cfg, s, step))
  {
  }

  lemma StepEvolves(cfg: Config, s: State, step: Step)
    requires Inv(cfg, s) && Enabled(cfg, s, step)
    ensures WellFormed(Next(cfg, s, step)) && Evolves(s, Next(cfg, s, step))
  {
    if !step.Accept? {
      ActorEvolves(cfg, s, step);
    }
  }

  lemma HandlerStable(cfg: Config, s: State, s': State, c: nat)
    requires c < |s.handlers| && HandlerOK(cfg, s, c) && Evolves(s, s') && s'.handlers[c] == s.handlers[c]
    ensures HandlerOK(cfg, s', c)
  {
  }

  lemma ActorKept(cfg: Config, s: State, s': State, step: Step)
    requires Inv(cfg, s) && Enabled(cfg, s, step) && !step.Accept?
    requires Evolves(s, s') && s'.handlers == s.handlers[step.c := HandlerAfter(cfg, s, step)]
    ensures HandlerOK(cfg, s', step.c)
  {
    assert HandlerOK(cfg, s, step.c);
    match step
    case Authenticate(c, first, now) =>
    case Lookup(c) => LookupKept(cfg, s, s', c);
    case Read(c, r) => ReadKept(cfg, s, s', c, r);
    case Lock(_) => SendingKept(cfg, s, s', step);
    case WriteHeader(_, _) => SendingKept(cfg, s, s', step);
    case WritePayload(_, _) => SendingKept(cfg, s, s', step);
    case Unlock(_) => SendingKept(cfg, s, s', step);
    case _ => OtherKept(cfg, s, s', step);
  }

  /** Steps that leave a handler where its session and its last input still say what they said. */
  lemma SendingKept(cfg: Config, s: State, s': State, step: Step)
    requires WellFormed(s) && Enabled(cfg, s, step)
             && (step.Lock? || step.WriteHeader? || step.WritePayload? || step.Unlock?)
    requires HandlerOK(cfg, s, step.c) && Evolves(s, s')
             && s'.handlers == s.handlers[step.c := HandlerAfter(cfg, s, step)]
    ensures HandlerOK(cfg, s', step.c)
  {
  }

  lemma OtherKept(cfg: Config, s: State, s': State, step: Step)
    requires WellFormed(s) && Enabled(cfg, s, step) && !step.Accept? && !step.Authenticate? && !step.Lookup?
             && !step.Read?
    requires !step.Lock? && !step.WriteHeader? && !step.WritePayload? && !step.Unlock?
    requires HandlerOK(cfg, s, step.c) && Evolves(s, s')
             && s'.handlers == s.handlers[step.c := HandlerAfter(cfg, s, step)]
    ensures HandlerOK(cfg, s', step.c)
  {
  }

  lemma LookupKept(cfg: Config, s: State, s': State, c: nat)
    requires TableOK(cfg, s) && c < |s.handlers| && HandlerOK(cfg, s, c) && s.handlers[c].pc.Routing?
    requires Evolves(s, s') && s'.handlers == s.handlers[c := AfterLookup(cfg, s, s.handlers[c])]
    ensures HandlerOK(cfg, s', c)
  {
  }

  lemma ReadKept(cfg: Config, s: State, s': State, c: nat, r: Result<Frame, ReadError>)
    requires c < |s.handlers| && HandlerOK(cfg, s, c) && s.handlers[c].pc.Reading?
             && (r.Ok? ==> |r.value.payload| <= MAX_PAYLOAD)
    requires Evolves(s, s') && s'.handlers == s.handlers[c := AfterRead(c, s.handlers[c], r)]
    ensures HandlerOK(cfg, s', c)
  {
  }

  lemma HandlersKept(cfg: Config, s: State, step: Step)
    requires Inv(cfg, s) && Enabled(cfg, s, step)
    ensures HandlersOK(cfg, Next(cfg, s, step))
  {
    var s' := Next(cfg, s, step);
    StepEvolves(cfg, s, step);
    forall c: nat | 0 <= c < |s'.handlers| ensures HandlerOK(cfg, s', c) {
      if c == |s.handlers| {
        assert s'.handlers[c] == NEW_HANDLER;
      } else if !step.Accept? && c == step.c {
        ActorKept(cfg, s, s', step);
      } else {
        assert HandlerOK(cfg, s, c);
        HandlerStable(cfg, s, s', c);
      }
    }
  }

  lemma LocksKept(cfg: Config, s: State, step: Step)
    requires Inv(cfg, s) && Enabled(cfg, s, step)
    ensures LocksOK(Next(cfg, s, step))
  {
    var s' := Next(cfg, s, step);
    if step.Accept? {
      forall c: nat, t: nat | c < |s.handlers| && InCritical(s.handlers[c], t) ensures t < |s.channels| {
        assert HandlerOK(cfg, s, c);
      }
    } else {
      var c, t0 := step.c, Touched(s, step);
      var h, h' := s.handlers[c], HandlerAfter(cfg, s, step);
      CriticalChanges(cfg, s, step);
      assert s'.handlers[c] == h' && s'.channels[t0] == ChannelAfter(cfg, s, step);
      if step.Lock? || step.Unlock? {
        LocksMoved(s, s', c, t0);
      } else {
        LocksStill(s, s', c, t0);
      }
    }
  }

  /** Only taking and giving back the mutex moves a handler into or out of a critical section. */
  lemma CriticalChanges(cfg: Config, s: State, step: Step)
    requires WellFormed(s) && Enabled(cfg, s, step) && !step.Accept?
    ensures var h, h', t0 := s.handlers[step.c], HandlerAfter(cfg, s, step), Touched(s, step);
      && (forall t :: t != t0 ==> InCritical(h', t) == InCritical(h, t))
      && InCritical(h', t0) == (if step.Lock? then true else if step.Unlock? then false else InCritical(h, t0))
      && (step.Unlock? ==> InCritical(h, t0))
      && ChannelAfter(cfg, s, step).lock
           == (if step.Lock? then Some(step.c) else if step.Unlock? then None else s.channels[t0].lock)
      && (step.Lock? ==> s.channels[t0].lock.None?)
  {
  }

  lemma LocksStill(s: State, s': State, c: nat, t0: nat)
    requires LocksOK(s) && c < |s.handlers| && t0 < |s.channels| && |s'.handlers| == |s.handlers|
             && |s'.channels| == |s.channels|
    requires s'.handlers == s.handlers[c := s'.handlers[c]] && s'.channels == s.channels[t0 := s'.channels[t0]]
    requires s'.channels[t0].lock == s.channels[t0].lock
             && forall t :: InCritical(s'.handlers[c], t) == InCritical(s.handlers[c], t)
    ensures LocksOK(s')
  {
  }

  lemma LocksMoved(s: State, s': State, c: nat, t0: nat)
    requires LocksOK(s) && c < |s.handlers| && t0 < |s.channels| && |s'.handlers| == |s.handlers|
             && |s'.channels| == |s.channels|
    requires s'.handlers == s.handlers[c := s'.handlers[c]] && s'.channels == s.channels[t0 := s'.channels[t0]]
    requires forall t :: t != t0 ==> InCritical(s'.handlers[c], t) == InCritical(s.handlers[c], t)
    requires InCritical(s.handlers[c], t0) || s.channels[t0].lock.None?
    requires s'.channels[t0].lock == if InCritical(s'.handlers[c], t0) then Some(c) else None
    ensures LocksOK(s')
  {
    forall b: nat | b < |s.handlers| ensures InCritical(s.handlers[b], t0) ==> s.channels[t0].lock == Some(b) {
    }
  }

  lemma TableKept(cfg: Config, s: State, step: Step)
    requires Inv(cfg, s) && Enabled(cfg, s, step)
    ensures TableOK(cfg, Next(cfg, s, step))
  {
    var s' := Next(cfg, s, step);
    StepEvolves(cfg, s, step);
    if step.AddSession? {
      AddSessionKept(cfg, s, s', step.c);
    } else if step.DropTarget? {
      assert HandlerOK(cfg, s, step.c);
      RemovalKept(cfg, s, s', s.handlers[step.c].pc.target);
    } else if step.RemoveSelf? {
      RemovalKept(cfg, s, s', step.c);
    } else {
      if !step.Accept? {
        GoneKept(cfg, s, step);
      }
      TableFrame(cfg, s, s');
    }
  }

  lemma GoneKept(cfg: Config, s: State, step: Step)
    requires WellFormed(s) && Enabled(cfg, s, step) && !step.Accept? && HandlersOK(cfg, s) && !step.RemoveSelf?
    ensures Published(s.handlers[step.c]) ==> Gone(HandlerAfter(cfg, s, step)) == Gone(s.handlers[step.c])
  {
    assert HandlerOK(cfg, s, step.c);
  }

  lemma AddSessionKept(cfg: Config, s: State, s': State, c: nat)
    requires TableOK(cfg, s) && Evolves(s, s') && c < |s.handlers| && s.handlers[c].pc.Adding?
             && s.handlers[c].session.Some?
    requires s'.table == s.table[KeyOf(cfg, s, c) := c] && s'.latest == s.latest[KeyOf(cfg, s, c) := c]
             && s'.failed == s.failed
    requires s'.handlers == s.handlers[c := s.handlers[c].(pc := Reading)]
    ensures TableOK(cfg, s')
  {
    assert c !in s.failed;
    var k := KeyOf(cfg, s, c);
    forall key | key in s'.table ensures EntryOK(cfg, s', key, s'.table[key]) {
      if key != k {
        assert EntryOK(cfg, s, key, s.table[key]) && s.table[key] != c;
      }
    }
    forall key | key in s'.latest ensures LatestOK(cfg, s', key, s'.latest[key]) {
      if key != k {
        assert LatestOK(cfg, s, key, s.latest[key]);
      }
    }
  }

  /** removeSession, after which session t has either failed a delivery or run its deferred removal. */
  lemma RemovalKept(cfg: Config, s: State, s': State, t: nat)
    requires TableOK(cfg, s) && Evolves(s, s') && PublishedAt(s, t)
    requires s'.table == RemoveSession(cfg, s, t) && s'.latest == s.latest
    requires (s'.failed == s.failed && Gone(s'.handlers[t])) || s'.failed == s.failed + {t}
    requires forall c: nat :: PublishedAt(s, c) && c != t ==> Gone(s'.handlers[c]) == Gone(s.handlers[c])
    requires Gone(s.handlers[t]) ==> Gone(s'.handlers[t])
    ensures TableOK(cfg, s')
  {
    forall key | key in s.latest ensures LatestOK(cfg, s', key, s.latest[key]) {
      RemovalLatest(cfg, s, s', t, key);
    }
    forall key | key in s'.table ensures EntryOK(cfg, s', key, s'.table[key]) {
      RemovalEntry(cfg, s, s', t, key);
    }
  }

  lemma RemovalLatest(cfg: Config, s: State, s': State, t: nat, key: string)
    requires TableOK(cfg, s) && Evolves(s, s') && PublishedAt(s, t) && key in s.latest
    requires s'.table == RemoveSession(cfg, s, t) && s.failed <= s'.failed
    requires Gone(s'.handlers[t]) || t in s'.failed
    requires s.latest[key] != t ==> PublishedAt(s, s.latest[key]) ==>
             Gone(s'.handlers[s.latest[key]]) == Gone(s.handlers[s.latest[key]])
    ensures LatestOK(cfg, s', key, s.latest[key])
  {
    var c := s.latest[key];
    assert LatestOK(cfg, s, key, c);
    assert HandlerEvolves(s.handlers[c], s'.handlers[c]);
  }

  lemma RemovalEntry(cfg: Config, s: State, s': State, t: nat, key: string)
    requires TableOK(cfg, s) && Evolves(s, s') && PublishedAt(s, t) && key in RemoveSession(cfg, s, t)
    requires s'.table == RemoveSession(cfg, s, t) && s'.latest == s.latest && s'.failed <= s.failed + {t}
    requires forall c: nat :: PublishedAt(s, c) && c != t ==> Gone(s'.handlers[c]) == Gone(s.handlers[c])
    ensures EntryOK(cfg, s', key, s'.table[key])
  {
    var c := s.table[key];
    assert EntryOK(cfg, s, key, c) && c != t;
    assert HandlerEvolves(s.handlers[c], s'.handlers[c]);
  }

  lemma TableFrame(cfg: Config, s: State, s': State)
    requires TableOK(cfg, s) && Evolves(s, s')
    requires s'.table == s.table && s'.latest == s.latest && s'.failed == s.failed
    requires forall c: nat :: PublishedAt(s, c) ==> Gone(s'.handlers[c]) == Gone(s.handlers[c])
    ensures TableOK(cfg, s')
  {
  }

  // ---------- channels ----------

  lemma FramesOfSnoc(log: seq<Entry>, e: Entry)
    ensures FramesOf(log + [e]) == FramesOf(log) + [e.frame]
    ensures EncodeAll(FramesOf(log + [e])) == EncodeAll(FramesOf(log)) + Encode(e.frame)
  {
    assert (log + [e])[..|log|] == log;
    assert (FramesOf(log) + [e.frame])[..|FramesOf(log)|] == FramesOf(log);
  }

  lemma TakeOfAppend(a: Bytes, b: Bytes, n: nat)
    requires n <= |b|
    ensures a + b[..n] == (a + b)[..|a| + n]
  {
  }

  /** Writing a header with no frame unfinished leaves whole frames, or this one begun. */
  lemma HeaderWritten(ch: Channel, e: Entry, w: WriteResult)
    requires OutputOK(ch) && (ch.tail.Partial? ==> ch.dead) && |e.frame.payload| <= MAX_PAYLOAD
    requires CanWrite(ch, EncodeHeader(HeaderOf(e.frame)), w)
    ensures var ch' := PutHeader(ch, e, w);
      OutputOK(ch')
  {
    var ch', f := PutHeader(ch, e, w), e.frame;
    HeaderPrefix(f, if w.Full? then HEADER_SIZE else w.n);
    match w
    case Full =>
      if |f.payload| == 0 {
        FrameAdded(ch, ch', e, EncodeHeader(HeaderOf(f)));
      } else {
        FrameBegun(ch, ch', f, HEADER_SIZE, EncodeHeader(HeaderOf(f)));
      }
    case Short(n) =>
      if n == 0 {
        assert ch'.out == ch.out;
      } else {
        FrameBegun(ch, ch', f, n, EncodeHeader(HeaderOf(f))[..n]);
      }
  }

  lemma HeaderPrefix(f: Frame, n: nat)
    requires n <= HEADER_SIZE
    ensures var hdr := EncodeHeader(HeaderOf(f));
      && |hdr| == HEADER_SIZE && hdr[..HEADER_SIZE] == hdr && Encode(f) == hdr + f.payload && Encode(f)[..n] == hdr[..n]
      && (f.payload == [] ==> Encode(f) == hdr)
  {
    assert (EncodeHeader(HeaderOf(f)) + f.payload)[..n] == EncodeHeader(HeaderOf(f))[..n];
  }

  lemma FrameBegun(ch: Channel, ch': Channel, f: Frame, n: nat, part: Bytes)
    requires OutputOK(ch) && ch.tail == Clean && |f.payload| <= MAX_PAYLOAD && n < |Encode(f)| && part == Encode(f)[..n]
    requires ch'.out == ch.out + part && ch'.log == ch.log && ch'.noRoute == ch.noRoute && ch'.tail == Partial(f, n)
    ensures OutputOK(ch')
  {
    assert EncodeAll(FramesOf(ch.log)) + [] == EncodeAll(FramesOf(ch.log));
  }

  lemma FrameAdded(ch: Channel, ch': Channel, e: Entry, whole: Bytes)
    requires OutputOK(ch) && ch.tail == Clean && whole == Encode(e.frame)
    requires ch'.out == ch.out + whole && ch'.log == ch.log + [e] && ch'.noRoute == ch.noRoute && ch'.tail == Clean
    ensures OutputOK(ch')
  {
    FramesOfSnoc(ch.log, e);
    assert EncodeAll(FramesOf(ch.log)) + [] == EncodeAll(FramesOf(ch.log));
    assert EncodeAll(FramesOf(ch'.log)) + [] == EncodeAll(FramesOf(ch'.log));
  }

  /** Writing the payload of the frame whose header is out finishes it, or leaves it unfinished. */
  lemma PayloadWritten(ch: Channel, e: Entry, w: WriteResult)
    requires OutputOK(ch) && ch.tail == Partial(e.frame, HEADER_SIZE) && |e.frame.payload| <= MAX_PAYLOAD
    requires CanWrite(ch, e.frame.payload, w)
    ensures var ch' := PutPayload(ch, e, w);
      OutputOK(ch')
  {
    var ch', hdr, before := PutPayload(ch, e, w), EncodeHeader(HeaderOf(e.frame)), EncodeAll(FramesOf(ch.log));
    FramesOfSnoc(ch.log, e);
    assert Encode(e.frame)[..HEADER_SIZE] == hdr;
    match w
    case Full =>
      AppendAssociates(before, hdr, e.frame.payload);
    case Short(n) =>
      AppendAssociates(before, hdr, e.frame.payload[..n]);
      TakeOfAppend(hdr, e.frame.payload, n);
  }

  /** A channel stays sound while nobody sends a frame on it and its handler keeps its phase. */
  lemma ChannelFrame(s: State, s': State, t: nat)
    requires WellFormed(s) && WellFormed(s') && |s.handlers| <= |s'.handlers| && t < |s.channels| && ChannelOK(s, t)
    requires var a, b := s.channels[t], s'.channels[t];
      && b == a.(dead := b.dead, lock := b.lock, noRoute := b.noRoute, out := b.out)
      && (a.dead ==> b.dead) && (!b.noRoute ==> !a.noRoute && b.out == a.out)
           && (Early(s.handlers[t]) ==> b.noRoute == a.noRoute)
      && (b.lock == a.lock || forall c: nat :: c < |s.handlers| ==> !SendingPayload(s.handlers[c], t))
    requires Early(s'.handlers[t]) ==> Early(s.handlers[t])
    requires Opened(s'.handlers[t]) ==> Opened(s.handlers[t])
    requires forall c: nat ::
               c < |s.handlers| && (SendingPayload(s.handlers[c], t) || SendingPayload(s'.handlers[c], t)) ==>
                 s'.handlers[c].pc == s.handlers[c].pc
    requires forall c: nat :: |s.handlers| <= c < |s'.handlers| ==> !s'.handlers[c].pc.Sending?
    ensures ChannelOK(s', t)
  {
  }

  lemma OneWriter(s: State, t: nat, a: nat, b: nat)
    requires WellFormed(s) && LocksOK(s) && t < |s.channels| && a < |s.handlers| && b < |s.handlers|
    requires InCritical(s.handlers[a], t) && InCritical(s.handlers[b], t)
    ensures a == b
  {
    assert s.channels[t].lock == Some(a) && s.channels[t].lock == Some(b);
  }

  lemma UnpublishedIsQuiet(cfg: Config, s: State, t: nat)
    requires Inv(cfg, s) && t < |s.handlers| && !Published(s.handlers[t])
    ensures s.channels[t].lock.None? && forall c: nat :: c < |s.handlers| ==> !InCritical(s.handlers[c], t)
  {
    forall c: nat | c < |s.handlers| ensures !InCritical(s.handlers[c], t) {
      assert HandlerOK(cfg, s, c);
    }
  }

  /** The first frame of a connection, written by its own handler while nobody else can reach it. */
  lemma ControlWritten(ch: Channel, kind: Byte, w: WriteResult)
    requires kind == FRAME_AUTH_OK || kind == FRAME_AUTH_FAIL
    requires OutputOK(ch) && ch.log == [] && ch.tail == Clean
             && CanWrite(ch, EncodeHeader(HeaderOf(ControlFrame(kind))), w)
    ensures var ch' := PutHeader(ch, Entry(ControlFrame(kind), Control), w);
      && OutputOK(ch') && ShapesOK(ch') && (ch'.tail.Partial? ==> ch'.dead) && (ch'.dead || ch'.log != [])
      && (ch'.log != [] ==> ch'.log[0].frame == ControlFrame(kind))
  {
    HeaderWritten(ch, Entry(ControlFrame(kind), Control), w);
  }

  lemma ControlKept(cfg: Config, s: State, step: Step)
    requires Inv(cfg, s) && Enabled(cfg, s, step) && (step.WriteAuthFail? || step.WriteAuthOK?)
    ensures ChannelOK(Next(cfg, s, step), step.c)
  {
    var s', t := Next(cfg, s, step), step.c;
    EarlyIsSilent(cfg, s, t);
    ControlWritten(s.channels[t], if step.WriteAuthFail? then FRAME_AUTH_FAIL else FRAME_AUTH_OK, step.w);
    QuietTail(s, s', t);
    AuthOutcome(cfg, s, step);
  }

  /** Only a handler that has just sent AuthOK goes on to publish its session. */
  lemma AuthOutcome(cfg: Config, s: State, step: Step)
    requires WellFormed(s) && Enabled(cfg, s, step) && (step.WriteAuthFail? || step.WriteAuthOK?) && HandlersOK(cfg, s)
    ensures !Early(HandlerAfter(cfg, s, step)) && (Opened(HandlerAfter(cfg, s, step)) <==> step.WriteAuthOK?)
  {
    assert HandlerOK(cfg, s, step.c);
  }

  /** Before authentication ends nothing has been sent and no handler is, or will be, writing here. */
  lemma EarlyIsSilent(cfg: Config, s: State, t: nat)
    requires Inv(cfg, s) && t < |s.handlers| && Early(s.handlers[t])
    ensures OutputOK(s.channels[t]) && s.channels[t].log == [] && s.channels[t].tail == Clean
    ensures forall c: nat :: c < |s.handlers| ==> !InCritical(s.handlers[c], t)
  {
    assert ChannelOK(s, t);
    UnpublishedIsQuiet(cfg, s, t);
  }

  lemma QuietTail(s: State, s': State, t: nat)
    requires WellFormed(s) && WellFormed(s') && t < |s.handlers| == |s'.handlers|
    requires s'.handlers == s.handlers[t := s'.handlers[t]] && !s'.handlers[t].pc.Sending?
    requires forall c: nat :: c < |s.handlers| ==> !InCritical(s.handlers[c], t)
    requires s'.channels[t].tail.Partial? ==> s'.channels[t].dead
    ensures TailOwned(s', t)
  {
  }

  /** The writer of a frame is the only handler in the critical section. */
  lemma WriterOwnsTail(s: State, s': State, c: nat, t: nat)
    requires WellFormed(s) && WellFormed(s') && LocksOK(s) && t < |s.channels| && t < |s'.channels| && c < |s.handlers|
    requires InCritical(s.handlers[c], t) && s'.channels[t].lock == s.channels[t].lock
    requires |s'.handlers| == |s.handlers| && s'.handlers == s.handlers[c := s'.handlers[c]]
    requires SendingPayload(s'.handlers[c], t) ==> s'.channels[t].tail == Partial(s'.handlers[c].pc.frame, HEADER_SIZE)
    requires s'.channels[t].tail.Partial? ==> s'.channels[t].dead || SendingPayload(s'.handlers[c], t)
    ensures TailOwned(s', t)
  {
    assert s.channels[t].lock == Some(c);
    forall b: nat | b < |s.handlers| && SendingPayload(s'.handlers[b], t) ensures b == c {
      if b != c {
        OneWriter(s, t, b, c);
      }
    }
  }

  /** After the first frame, appending an answer to an input keeps the log's shape and the handler's phase. */
  lemma AnswerAppended(ch: Channel, ch': Channel, h: Handler, e: Entry)
    requires ShapesOK(ch) && PhaseOK(ch, h) && Opened(h) && !Early(h) && e.origin.From?
             && |e.frame.payload| <= MAX_PAYLOAD
    requires ch'.log == ch.log || (ch'.log == ch.log + [e] && !ch.dead)
    requires ch.dead ==> ch'.dead
    requires ch'.log == ch.log ==> ch'.dead || ch.log != []
    ensures ShapesOK(ch') && PhaseOK(ch', h)
  {
  }

  /** A handler inside its critical section, about to put bytes of its frame on the wire. */
  ghost predicate WriterAt(cfg: Config, s: State, c: nat, t: nat) {
    && WellFormed(s) && HandlersOK(cfg, s) && LocksOK(s) && c < |s.handlers| && t < |s.channels| && ChannelOK(s, t)
    && InCritical(s.handlers[c], t)
  }

  lemma WriterFacts(cfg: Config, s: State, c: nat, t: nat)
    requires WriterAt(cfg, s, c, t)
    ensures s.channels[t].lock == Some(c) && |s.handlers[c].pc.frame.payload| <= MAX_PAYLOAD
    ensures Published(s.handlers[t])
            && (s.channels[t].tail.Partial? && !s.channels[t].dead ==> SendingPayload(s.handlers[c], t))
  {
    assert HandlerOK(cfg, s, c);
  }

  lemma HeaderTail(cfg: Config, s: State, s': State, c: nat, t: nat, w: WriteResult)
    requires WriterAt(cfg, s, c, t) && WellFormed(s') && AtStage(s, c, Locked)
    requires CanWrite(s.channels[t], EncodeHeader(HeaderOf(s.handlers[c].pc.frame)), w)
    requires s'.handlers == s.handlers[c := AfterHeader(s.handlers[c], w)]
    requires s'.channels[t] == PutHeader(s.channels[t], EntryFor(s, c), w)
    ensures TailOwned(s', t)
  {
    WriterFacts(cfg, s, c, t);
    WriterOwnsTail(s, s', c, t);
  }

  lemma HeaderContent(cfg: Config, s: State, c: nat, t: nat, w: WriteResult)
    requires WriterAt(cfg, s, c, t) && AtStage(s, c, Locked)
    requires CanWrite(s.channels[t], EncodeHeader(HeaderOf(s.handlers[c].pc.frame)), w)
    ensures var ch' := PutHeader(s.channels[t], EntryFor(s, c), w);
      OutputOK(ch') && ShapesOK(ch') && PhaseOK(ch', s.handlers[t])
  {
    WriterFacts(cfg, s, c, t);
    var ch, e := s.channels[t], EntryFor(s, c);
    HeaderWritten(ch, e, w);
    AnswerAppended(ch, PutHeader(ch, e, w), s.handlers[t], e);
  }

  lemma HeaderWriteKept(cfg: Config, s: State, step: Step)
    requires Inv(cfg, s) && Enabled(cfg, s, step) && step.WriteHeader?
    ensures ChannelOK(Next(cfg, s, step), Touched(s, step))
  {
    var s', c, t := Next(cfg, s, step), step.c, Touched(s, step);
    WriterFacts(cfg, s, c, t);
    HeaderTail(cfg, s, s', c, t, step.w);
    HeaderContent(cfg, s, c, t, step.w);
    SamePhase(s'.channels[t], s.handlers[t], s'.handlers[t]);
  }

  lemma SamePhase(ch: Channel, h: Handler, h': Handler)
    requires PhaseOK(ch, h) && Published(h) && (h'.pc == h.pc || h'.pc.Sending?)
    ensures PhaseOK(ch, h')
  {
  }

  lemma PayloadTail(cfg: Config, s: State, s': State, c: nat, t: nat, w: WriteResult)
    requires WriterAt(cfg, s, c, t) && WellFormed(s') && AtStage(s, c, HeaderSent)
    requires CanWrite(s.channels[t], s.handlers[c].pc.frame.payload, w)
    requires s'.handlers == s.handlers[c := AfterPayload(s.handlers[c], w)]
    requires s'.channels[t] == PutPayload(s.channels[t], EntryFor(s, c), w)
    ensures TailOwned(s', t)
  {
    WriterFacts(cfg, s, c, t);
    WriterOwnsTail(s, s', c, t);
  }

  lemma PayloadContent(cfg: Config, s: State, c: nat, t: nat, w: WriteResult)
    requires WriterAt(cfg, s, c, t) && AtStage(s, c, HeaderSent)
    requires CanWrite(s.channels[t], s.handlers[c].pc.frame.payload, w)
    ensures var ch' := PutPayload(s.channels[t], EntryFor(s, c), w);
      OutputOK(ch') && ShapesOK(ch') && PhaseOK(ch', s.handlers[t])
  {
    WriterFacts(cfg, s, c, t);
    var ch, e := s.channels[t], EntryFor(s, c);
    PayloadWritten(ch, e, w);
    AnswerAppended(ch, PutPayload(ch, e, w), s.handlers[t], e);
  }

  lemma PayloadWriteKept(cfg: Config, s: State, step: Step)
    requires Inv(cfg, s) && Enabled(cfg, s, step) && step.WritePayload?
    ensures ChannelOK(Next(cfg, s, step), Touched(s, step))
  {
    var s', c, t := Next(cfg, s, step), step.c, Touched(s, step);
    WriterFacts(cfg, s, c, t);
    PayloadTail(cfg, s, s', c, t, step.w);
    PayloadContent(cfg, s, c, t, step.w);
    SamePhase(s'.channels[t], s.handlers[t], s'.handlers[t]);
  }

  /** Steps that send a frame or part of one. */
  predicate Writes(step: Step) {
    step.WriteAuthFail? || step.WriteAuthOK? || step.WriteHeader? || step.WritePayload?
  }

  /** Steps that touch no byte stream under a mutex: on other connections, or no frame sent. */
  lemma QuietStepKept(cfg: Config, s: State, step: Step, t: nat)
    requires Inv(cfg, s) && Enabled(cfg, s, step) && !step.Accept? && t < |s.channels|
             && (!Writes(step) || t != Touched(s, step))
    ensures ChannelOK(Next(cfg, s, step), t)
  {
    assert ChannelOK(s, t);
    QuietHandlers(cfg, s, step, t);
    QuietChannel(cfg, s, step, t);
    ChannelFrame(s, Next(cfg, s, step), t);
  }

  lemma QuietHandlers(cfg: Config, s: State, step: Step, t: nat)
    requires WellFormed(s) && HandlersOK(cfg, s) && Enabled(cfg, s, step)
    requires !step.Accept? && t < |s.channels| && (!Writes(step) || t != Touched(s, step))
    ensures var hs, hs' := s.handlers, Next(cfg, s, step).handlers;
      && |hs'| == |hs|
      && (Early(hs'[t]) ==> Early(hs[t])) && (Opened(hs'[t]) ==> Opened(hs[t]))
      && forall c: nat :: c < |hs| && (SendingPayload(hs[c], t) || SendingPayload(hs'[c], t)) ==> hs'[c].pc == hs[c].pc
  {
    assert HandlerOK(cfg, s, step.c);
    QuietActor(cfg, s, step, t);
  }

  lemma QuietActor(cfg: Config, s: State, step: Step, t: nat)
    requires WellFormed(s) && Enabled(cfg, s, step) && !step.Accept? && t < |s.channels|
             && (!Writes(step) || t != Touched(s, step))
    requires HandlerOK(cfg, s, step.c)
    ensures var h, h' := s.handlers[step.c], HandlerAfter(cfg, s, step);
      && (h'.pc == h.pc || (!SendingPayload(h', t) && !SendingPayload(h, t)))
      && (step.c == t ==> (Early(h') ==> Early(h)) && (Opened(h') ==> Opened(h)))
  {
  }

  lemma QuietChannel(cfg: Config, s: State, step: Step, t: nat)
    requires Inv(cfg, s) && Enabled(cfg, s, step) && !step.Accept? && t < |s.channels|
             && (!Writes(step) || t != Touched(s, step))
    ensures var a, b := s.channels[t], Next(cfg, s, step).channels[t];
      && b == a.(dead := b.dead, lock := b.lock, noRoute := b.noRoute, out := b.out)
      && (a.dead ==> b.dead) && (!b.noRoute ==> !a.noRoute && b.out == a.out)
           && (Early(s.handlers[t]) ==> b.noRoute == a.noRoute)
      && (b.lock == a.lock || forall c: nat :: c < |s.handlers| ==> !SendingPayload(s.handlers[c], t))
  {
    if step.Unlock? && t == Touched(s, step) {
      forall c: nat | c < |s.handlers| ensures !SendingPayload(s.handlers[c], t) {
        if SendingPayload(s.handlers[c], t) {
          OneWriter(s, t, c, step.c);
        }
      }
    }
  }

  lemma ChannelsKept(cfg: Config, s: State, step: Step)
    requires Inv(cfg, s) && Enabled(cfg, s, step)
    ensures ChannelsOK(Next(cfg, s, step))
  {
    var s' := Next(cfg, s, step);
    forall t: nat | t < |s'.channels| ensures ChannelOK(s', t) {
      if t == |s.channels| {
        NewChannelOK(cfg, s, s');
      } else if step.Accept? {
        assert ChannelOK(s, t);
        ChannelFrame(s, s', t);
      } else if Writes(step) && t == Touched(s, step) {
        if step.WriteHeader? {
          HeaderWriteKept(cfg, s, step);
        } else if step.WritePayload? {
          PayloadWriteKept(cfg, s, step);
        } else {
          ControlKept(cfg, s, step);
        }
      } else {
        QuietStepKept(cfg, s, step, t);
      }
    }
  }

  lemma NewChannelOK(cfg: Config, s: State, s': State)
    requires Inv(cfg, s) && s' == Next(cfg, s, Accept)
    ensures ChannelOK(s', |s.channels|)
  {
    var t := |s.channels|;
    forall c: nat | c < |s'.handlers| ensures !InCritical(s'.handlers[c], t) {
      if c < |s.handlers| {
        assert HandlerOK(cfg, s, c);
      }
    }
  }

  // ---------- logs ----------

  lemma DeliveryStable(cfg: Config, s: State, s': State, t: nat, e: Entry)
    requires Evolves(s, s') && DeliveryOK(cfg, s, t, e)
    ensures DeliveryOK(cfg, s', t, e)
  {
    if e.origin.From? {
      assert HandlerEvolves(s.handlers[e.origin.sender], s'.handlers[e.origin.sender]);
      assert HandlerEvolves(s.handlers[t], s'.handlers[t]);
    }
  }

  lemma LogFrame(cfg: Config, s: State, s': State, t: nat)
    requires t < |s.channels| && t < |s'.channels| && LogOK(cfg, s, t) && Evolves(s, s')
             && s'.channels[t].log == s.channels[t].log
    ensures LogOK(cfg, s', t)
  {
    forall k | 0 <= k < |s.channels[t].log| ensures DeliveryOK(cfg, s', t, s'.channels[t].log[k]) {
      DeliveryStable(cfg, s, s', t, s.channels[t].log[k]);
    }
  }

  /** A finished frame answers the sender's latest input, later than everything the sender sent before. */
  lemma LogAppend(cfg: Config, s: State, s': State, c: nat, t: nat)
    requires c < |s.handlers| && HandlerOK(cfg, s, c) && s.handlers[c].pc.Sending? && s.handlers[c].pc.target == t
             && Unanswered(s.handlers[c])
    requires t < |s.channels| && t < |s'.channels| && LogOK(cfg, s, t) && Evolves(s, s')
    requires s'.channels[t].log == s.channels[t].log + [EntryFor(s, c)] && s'.handlers[c] == Finish(s.handlers[c])
    ensures LogOK(cfg, s', t)
  {
    var log, e := s.channels[t].log, EntryFor(s, c);
    forall k | 0 <= k < |log| ensures DeliveryOK(cfg, s', t, log[k]) && Follows(log[k], e) {
      assert DeliveryOK(cfg, s, t, log[k]);
      DeliveryStable(cfg, s, s', t, log[k]);
    }
    assert DeliveryOK(cfg, s', t, e);
  }

  /** After the first frame, a log grows only by the frame a handler has just finished sending. */
  lemma FinishedFrame(cfg: Config, s: State, step: Step, t: nat)
    requires WellFormed(s) && Enabled(cfg, s, step) && t < |s.channels|
             && Next(cfg, s, step).channels[t].log != s.channels[t].log
    requires !step.WriteAuthFail? && !step.WriteAuthOK?
    ensures !step.Accept? && var h, s' := s.handlers[step.c], Next(cfg, s, step);
      && h.pc.Sending? && h.pc.target == t && Unanswered(h) && s'.handlers[step.c] == Finish(h)
      && s'.channels[t].log == s.channels[t].log + [EntryFor(s, step.c)]
  {
  }

  lemma LogKept(cfg: Config, s: State, step: Step, t: nat)
    requires Inv(cfg, s) && Enabled(cfg, s, step) && t < |s.channels|
    ensures LogOK(cfg, Next(cfg, s, step), t)
  {
    var s' := Next(cfg, s, step);
    StepEvolves(cfg, s, step);
    assert LogOK(cfg, s, t);
    if s'.channels[t].log == s.channels[t].log {
      LogFrame(cfg, s, s', t);
    } else if step.WriteAuthFail? || step.WriteAuthOK? {
      EarlyIsSilent(cfg, s, t);
    } else {
      assert HandlerOK(cfg, s, step.c);
      FinishedFrame(cfg, s, step, t);
      LogAppend(cfg, s, s', step.c, t);
    }
  }

  lemma LogsKept(cfg: Config, s: State, step: Step)
    requires Inv(cfg, s) && Enabled(cfg, s, step)
    ensures LogsOK(cfg, Next(cfg, s, step))
  {
    var s' := Next(cfg, s, step);
    forall t: nat | t < |s'.channels| ensures LogOK(cfg, s', t) {
      if t < |s.channels| {
        LogKept(cfg, s, step, t);
      } else {
        assert s'.channels[t] == NEW_CHANNEL;
      }
    }
  }

  // ---------- runs ----------

  lemma StepKeepsInv(cfg: Config, s: State, step: Step)
    requires Inv(cfg, s) && Enabled(cfg, s, step)
    ensures Inv(cfg, Next(cfg, s, step))
  {
    StepEvolves(cfg, s, step);
    HandlersKept(cfg, s, step);
    LocksKept(cfg, s, step);
    ChannelsKept(cfg, s, step);
    LogsKept(cfg, s, step);
    TableKept(cfg, s, step);
  }

  /** Every interleaving keeps the invariant. */
  lemma {:induction false} ReachableInv(cfg: Config, steps: seq<Step>, s: State)
    requires Reachable(cfg, steps, s)
    ensures Inv(cfg, s)
    decreases |steps|
  {
    if steps != [] {
      var n := |steps| - 1;
      var before :| Reachable(cfg, steps[..n], before) && WellFormed(before) && Enabled(cfg, before, steps[n])
          && s == Next(cfg, before, steps[n]);
      ReachableInv(cfg, steps[..n], before);
      StepKeepsInv(cfg, before, steps[n]);
    }
  }
}
