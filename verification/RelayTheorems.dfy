/** What a relay guarantees to those connected to it, in every interleaving of its handlers. */
module RelayTheorems {
  import opened Common
  import opened SwarmTypes
  import opened Paseto
  import opened RelayCodec
  import opened RelayServer
  import opened RelaySafety
  import Broker
  import BrokerTheorems

  lemma {:induction false} FramesReadable(log: seq<Entry>)
    requires forall k :: 0 <= k < |log| ==> EntryShape(log[k], k)
    ensures Readable(FramesOf(log)) && |FramesOf(log)| == |log|
    ensures forall k :: 0 <= k < |log| ==> FramesOf(log)[k] == log[k].frame
    decreases |log|
  {
    if log != [] {
      FramesReadable(log[..|log| - 1]);
    }
  }

  lemma TailUnreadable(ch: Channel)
    requires OutputOK(ch)
    ensures DecodeAll(TailBytes(ch.tail)) == ([], TailBytes(ch.tail))
  {
    if ch.tail.Partial? {
      PartialFrameUnreadable(ch.tail.frame, ch.tail.n);
    }
  }

  /** A second frame answers an input for a published session, so the first frame was AuthOK. */
  lemma AuthFirst(cfg: Config, s: State, t: nat)
    requires Inv(cfg, s) && t < |s.channels| && |s.channels[t].log| > 1
    ensures s.channels[t].log[0].frame == ControlFrame(FRAME_AUTH_OK)
  {
    assert ChannelOK(s, t) && LogOK(cfg, s, t);
    assert EntryShape(s.channels[t].log[1], 1) && DeliveryOK(cfg, s, t, s.channels[t].log[1]);
  }

  /**
   On a connection that got no NoRoute reply, the receiver's frame reader recovers exactly the frames the
   relay finished sending, in mutex order: one AuthOK and then answers, or a lone AuthFail. What is left over
   is at most one unfinished frame, and on a live connection that frame's writer holds the mutex.
   */
  lemma ReceiverRecoversLog(cfg: Config, steps: seq<Step>, s: State, t: nat)
    requires Reachable(cfg, steps, s) && t < |s.channels| && !s.channels[t].noRoute
    ensures Recovered(s, t)
  {
    ReachableInv(cfg, steps, s);
    assert ChannelOK(s, t);
    if |s.channels[t].log| > 1 {
      AuthFirst(cfg, s, t);
    }
    SoundChannelRecovered(s, t);
  }

  /** One AuthOK and then answers, or a lone AuthFail. */
  ghost predicate AuthThenAnswers(log: seq<Entry>) {
    && |FramesOf(log)| == |log|
    && (forall k :: 0 <= k < |log| ==> FramesOf(log)[k] == log[k].frame && (k == 0 <==> log[k].origin.Control?))
    && (|log| > 1 ==> log[0].frame == ControlFrame(FRAME_AUTH_OK))
    && (|log| == 1 ==> log[0].frame == ControlFrame(FRAME_AUTH_OK) || log[0].frame == ControlFrame(FRAME_AUTH_FAIL))
  }

  /** What a receiver can make of the bytes sent on connection t. */
  ghost predicate Recovered(s: State, t: nat)
    requires t < |s.channels|
  {
    var ch := s.channels[t];
    && DecodeAll(ch.out) == (FramesOf(ch.log), TailBytes(ch.tail)) && AuthThenAnswers(ch.log)
    && (TailBytes(ch.tail) != [] && !ch.dead ==>
         ch.lock.Some? && ch.lock.value < |s.handlers| && SendingPayload(s.handlers[ch.lock.value], t))
  }

  lemma SoundChannelRecovered(s: State, t: nat)
    requires WellFormed(s) && t < |s.channels| && ChannelOK(s, t) && !s.channels[t].noRoute
    requires |s.channels[t].log| > 1 ==> s.channels[t].log[0].frame == ControlFrame(FRAME_AUTH_OK)
    ensures Recovered(s, t)
  {
    FramesReadable(s.channels[t].log);
    LogIsRead(s.channels[t]);
    ShapedLog(s.channels[t].log);
    UnfinishedIsHeld(s, t);
  }

  lemma ShapedLog(log: seq<Entry>)
    requires forall k :: 0 <= k < |log| ==> EntryShape(log[k], k)
    requires |log| > 1 ==> log[0].frame == ControlFrame(FRAME_AUTH_OK)
    ensures AuthThenAnswers(log)
  {
    FramesReadable(log);
  }

  lemma UnfinishedIsHeld(s: State, t: nat)
    requires t < |s.channels| && TailOwned(s, t)
    ensures var ch := s.channels[t];
      TailBytes(ch.tail) != [] && !ch.dead ==>
        ch.lock.Some? && ch.lock.value < |s.handlers| && SendingPayload(s.handlers[ch.lock.value], t)
  {
  }

  lemma LogIsRead(ch: Channel)
    requires OutputOK(ch) && !ch.noRoute && Readable(FramesOf(ch.log))
    ensures DecodeAll(ch.out) == (FramesOf(ch.log), TailBytes(ch.tail))
  {
    TailUnreadable(ch);
    StreamRoundTrip(FramesOf(ch.log), TailBytes(ch.tail));
    assert FramesOf(ch.log) + [] == FramesOf(ch.log);
  }

  /**
   Every frame after the first answers one frame that an authenticated handler read: a ping is echoed to
   its own connection, data goes to the session under the destination's key with the sender's token address
   in the header.
   */
  lemma SentFramesAnswerInputs(cfg: Config, steps: seq<Step>, s: State, t: nat, k: nat)
    requires Reachable(cfg, steps, s) && t < |s.channels| && 0 < k < |s.channels[t].log|
    ensures var e := s.channels[t].log[k];
      && e.origin.From? && e.origin.sender < |s.handlers| && t < |s.handlers|
      && var h, i := s.handlers[e.origin.sender], e.origin.index;
         && h.session.Some? && s.handlers[t].session.Some? && i < |h.inputs|
         && cfg.open(h.session.value.token, h.session.value.at) == Ok(h.session.value.claims)
         && var input := h.inputs[i];
            if input.kind == FRAME_PING then
              e.origin.sender == t && e.frame == PongFrame(input.payload)
            else
              && input.kind == FRAME_DATA
              && e.frame == ForwardFrame(h.session.value.Addr(), input.payload)
              && cfg.key(DestinationOf(input)) == cfg.key(s.handlers[t].session.value.Addr())
  {
    ReachableInv(cfg, steps, s);
    assert ChannelOK(s, t) && LogOK(cfg, s, t);
    assert EntryShape(s.channels[t].log[k], k) && DeliveryOK(cfg, s, t, s.channels[t].log[k]);
    assert HandlerOK(cfg, s, s.channels[t].log[k].origin.sender);
  }

  /** No input is answered twice, on any connection, and one sender's inputs arrive in the order read. */
  lemma DeliveredOnceInOrder(cfg: Config, steps: seq<Step>, s: State, t1: nat, k1: nat, t2: nat, k2: nat)
    requires Reachable(cfg, steps, s) && t1 < |s.channels| && t2 < |s.channels|
    requires 0 < k1 < |s.channels[t1].log| && 0 < k2 < |s.channels[t2].log|
    requires s.channels[t1].log[k1].origin.From? && s.channels[t2].log[k2].origin.From?
    requires s.channels[t1].log[k1].origin.sender == s.channels[t2].log[k2].origin.sender
    ensures var i1, i2 := s.channels[t1].log[k1].origin.index, s.channels[t2].log[k2].origin.index;
      && (i1 == i2 <==> t1 == t2 && k1 == k2)
      && (t1 == t2 ==> (i1 < i2 <==> k1 < k2))
  {
    ReachableInv(cfg, steps, s);
    assert LogOK(cfg, s, t1) && LogOK(cfg, s, t2);
    var a, b := s.channels[t1].log[k1], s.channels[t2].log[k2];
    assert DeliveryOK(cfg, s, t1, a) && DeliveryOK(cfg, s, t2, b);
    if t1 == t2 && k1 < k2 {
      assert Follows(a, b);
    } else if t1 == t2 && k2 < k1 {
      assert Follows(b, a);
    }
  }

  /** Connection t's log holds the answer to the i-th input of handler c. */
  ghost predicate Logged(s: State, c: nat, i: nat, t: nat) {
    t < |s.channels| && exists k :: 0 <= k < |s.channels[t].log| && s.channels[t].log[k].origin == From(c, i)
  }

  ghost predicate DeliveriesLogged(s: State) {
    forall c: nat, i :: c < |s.handlers| && i in s.handlers[c].delivered ==> Logged(s, c, i, s.handlers[c].delivered[i])
  }

  lemma LogsGrow(cfg: Config, s: State, step: Step)
    requires WellFormed(s) && Enabled(cfg, s, step)
    ensures |s.channels| <= |Next(cfg, s, step).channels|
    ensures forall t :: 0 <= t < |s.channels| ==> s.channels[t].log <= Next(cfg, s, step).channels[t].log
  {
  }

  lemma LoggedStays(s: State, s': State, c: nat, i: nat, t: nat)
    requires |s.channels| <= |s'.channels| && forall u :: 0 <= u < |s.channels| ==>
             s.channels[u].log <= s'.channels[u].log
    requires Logged(s, c, i, t)
    ensures Logged(s', c, i, t)
  {
    var k :| 0 <= k < |s.channels[t].log| && s.channels[t].log[k].origin == From(c, i);
    assert s'.channels[t].log[k] == s.channels[t].log[k];
  }

  /** A step that counts an input as delivered appends its answer to the log of the connection it names. */
  lemma NewDelivery(cfg: Config, s: State, step: Step)
    requires WellFormed(s) && Enabled(cfg, s, step) && !step.Accept?
    requires HandlerAfter(cfg, s, step).delivered != s.handlers[step.c].delivered
    ensures var h, s' := s.handlers[step.c], Next(cfg, s, step);
      && h.pc.Sending? && h.pc.target < |s.channels|
      && s'.handlers[step.c].delivered == h.delivered[LastInput(h) := h.pc.target]
      && s'.channels[h.pc.target].log == s.channels[h.pc.target].log + [EntryFor(s, step.c)]
  {
  }

  lemma DeliveriesKept(cfg: Config, s: State, step: Step)
    requires Inv(cfg, s) && DeliveriesLogged(s) && Enabled(cfg, s, step)
    ensures DeliveriesLogged(Next(cfg, s, step))
  {
    var s' := Next(cfg, s, step);
    LogsGrow(cfg, s, step);
    forall c: nat, i | c < |s'.handlers| && i in s'.handlers[c].delivered
      ensures Logged(s', c, i, s'.handlers[c].delivered[i])
    {
      if c < |s.handlers| {
        if i in s.handlers[c].delivered && s'.handlers[c].delivered[i] == s.handlers[c].delivered[i] {
          LoggedStays(s, s', c, i, s.handlers[c].delivered[i]);
        } else {
          NewDelivery(cfg, s, step);
          var t := s.handlers[c].pc.target;
          assert s'.channels[t].log[|s.channels[t].log|].origin == From(c, i);
        }
      }
    }
  }

  lemma {:induction false} ReachableDeliveries(cfg: Config, steps: seq<Step>, s: State)
    requires Reachable(cfg, steps, s)
    ensures DeliveriesLogged(s)
    decreases |steps|
  {
    if steps != [] {
      var n := |steps| - 1;
      var before :|
        Reachable(cfg, steps[..n], before) && WellFormed(before) && Enabled(cfg, before, steps[n])
        && s == Next(cfg, before, steps[n]);
      ReachableInv(cfg, steps[..n], before);
      ReachableDeliveries(cfg, steps[..n], before);
      DeliveriesKept(cfg, before, steps[n]);
    }
  }

  /** An input counts as delivered on a connection exactly when that connection's log holds its answer. */
  lemma DeliveredIffLogged(cfg: Config, steps: seq<Step>, s: State, c: nat, i: nat, t: nat)
    requires Reachable(cfg, steps, s) && c < |s.handlers|
    ensures i in s.handlers[c].delivered && s.handlers[c].delivered[i] == t <==> Logged(s, c, i, t)
  {
    ReachableInv(cfg, steps, s);
    ReachableDeliveries(cfg, steps, s);
    if Logged(s, c, i, t) {
      assert LogOK(cfg, s, t);
      var k :| 0 <= k < |s.channels[t].log| && s.channels[t].log[k].origin == From(c, i);
      assert DeliveryOK(cfg, s, t, s.channels[t].log[k]);
    }
  }

  // ---------- freedom from deadlock ----------

  /** The handler can take a step of its own. */
  ghost predicate CanAct(cfg: Config, s: State, c: nat) {
    WellFormed(s) && exists step: Step :: !step.Accept? && !step.Break? && step.c == c && Enabled(cfg, s, step)
  }

  /** The write result that is always possible: everything on a live connection, nothing on a dead one. */
  function SomeWrite(ch: Channel): WriteResult {
    if ch.dead then Short(0) else Full
  }

  /** Every handler not waiting for a mutex, and not closed, can act. */
  lemma ActsUnlessWaiting(cfg: Config, s: State, c: nat)
    requires Inv(cfg, s) && c < |s.handlers| && !s.handlers[c].pc.Closed? && !AtStage(s, c, Waiting)
    ensures CanAct(cfg, s, c)
  {
    assert HandlerOK(cfg, s, c);
    var step := OwnStep(s, c);
    if AtStage(s, c, HeaderSent) {
      PayloadIsThere(cfg, s, c);
    }
    assert Enabled(cfg, s, step);
  }

  function OwnStep(s: State, c: nat): Step
    requires WellFormed(s) && c < |s.handlers| && !s.handlers[c].pc.Closed?
  {
    var h, w := s.handlers[c], SomeWrite(s.channels[c]);
    match h.pc
    case Authenticating => Authenticate(c, Err(Truncated), 0)
    case SendingAuthFail => WriteAuthFail(c, w)
    case SendingAuthOK => WriteAuthOK(c, w)
    case Adding => AddSession(c)
    case Reading => Read(c, Err(Truncated))
    case Routing(_, _) => Lookup(c)
    case NoRouting(_) => WriteNoRoute(c, w)
    case Sending(t, _, _, stage) =>
      var out := if t < |s.channels| then SomeWrite(s.channels[t]) else Full;
      if stage == Waiting then Lock(c)
      else if stage == Locked then WriteHeader(c, out)
      else if stage == HeaderSent then WritePayload(c, out)
      else Unlock(c)
    case Dropping(_) => DropTarget(c)
    case Closing => RemoveSelf(c)
    case Removed => CloseConn(c)
  }

  /** Between its two writes a handler still has payload to write. */
  lemma PayloadIsThere(cfg: Config, s: State, c: nat)
    requires Inv(cfg, s) && AtStage(s, c, HeaderSent)
    ensures s.handlers[c].pc.frame.payload != []
  {
    var t := s.handlers[c].pc.target;
    assert ChannelOK(s, t) && SendingPayload(s.handlers[c], t);
  }

  /**
   In every interleaving, a handler that is not closed can take a step of its own, or it waits for a mutex
   whose holder can: the handlers never block each other for good.
   */
  lemma NoDeadlock(cfg: Config, steps: seq<Step>, s: State, c: nat)
    requires Reachable(cfg, steps, s) && c < |s.handlers| && !s.handlers[c].pc.Closed?
    ensures CanAct(cfg, s, c) || HolderCanAct(cfg, s, c)
  {
    ReachableInv(cfg, steps, s);
    if AtStage(s, c, Waiting) {
      var lock := s.channels[s.handlers[c].pc.target].lock;
      if lock.None? {
        assert Enabled(cfg, s, Lock(c));
      } else {
        assert InCritical(s.handlers[lock.value], s.handlers[c].pc.target);
        ActsUnlessWaiting(cfg, s, lock.value);
      }
    } else {
      ActsUnlessWaiting(cfg, s, c);
    }
  }

  /** How many more steps of its own a handler takes before it leaves the critical section, at most. */
  function StepsInside(h: Handler): nat {
    if !h.pc.Sending? then 0
    else
      match h.pc.stage
      case Waiting => 0
      case Locked => 3
      case HeaderSent => 2
      case Unlocking(_) => 1
  }

  /** Each step of the holder brings it closer to releasing the mutex, whether its write succeeds or not. */
  lemma HolderReleases(cfg: Config, s: State, t: nat, step: Step)
    requires WellFormed(s) && Enabled(cfg, s, step) && !step.Accept? && !step.Break?
             && InCritical(s.handlers[step.c], t)
    ensures var h, h' := s.handlers[step.c], HandlerAfter(cfg, s, step);
      && StepsInside(h') < StepsInside(h) <= 3
      && (StepsInside(h') == 0 ==> Next(cfg, s, step).channels[t].lock.None?)
      && (StepsInside(h') > 0 ==> InCritical(h', t))
  {
  }

  /** The handler waits for a mutex, and the one inside that critical section can act. */
  ghost predicate HolderCanAct(cfg: Config, s: State, c: nat) {
    && AtStage(s, c, Waiting)
    && var t := s.handlers[c].pc.target;
       s.channels[t].lock.Some?
       && var holder := s.channels[t].lock.value;
          holder < |s.handlers| && InCritical(s.handlers[holder], t) && CanAct(cfg, s, holder)
  }

  /**
   A key is in the table exactly when the latest session added for it has neither run its deferred removal
   nor been removed after a failed delivery; the entry is that session, and its own token has that key.
   */
  lemma TableHoldsLatestSession(cfg: Config, steps: seq<Step>, s: State, key: string)
    requires Reachable(cfg, steps, s)
    ensures key in s.table <==>
      key in s.latest && s.latest[key] < |s.handlers| && !Gone(s.handlers[s.latest[key]]) && s.latest[key] !in s.failed
    ensures key in s.table ==>
      && s.table[key] == s.latest[key] && s.table[key] < |s.handlers| && s.handlers[s.table[key]].session.Some?
      && cfg.key(s.handlers[s.table[key]].session.value.Addr()) == key
  {
    ReachableInv(cfg, steps, s);
    if key in s.table {
      assert EntryOK(cfg, s, key, s.table[key]);
    } else if key in s.latest {
      assert LatestOK(cfg, s, key, s.latest[key]);
    }
  }

  /** At most one handler is between the lock and unlock of a session's mutex. */
  lemma MutexExcludes(cfg: Config, steps: seq<Step>, s: State, t: nat, a: nat, b: nat)
    requires Reachable(cfg, steps, s) && t < |s.channels| && a < |s.handlers| && b < |s.handlers|
    requires InCritical(s.handlers[a], t) && InCritical(s.handlers[b], t)
    ensures a == b && s.channels[t].lock == Some(a)
  {
    ReachableInv(cfg, steps, s);
    OneWriter(s, t, a, b);
  }

  /**
   Relay and registrar together: a forwarded data frame names, in its header, an endpoint record of the
   broker, provided the sender's token is not forged.
   */
  lemma ForwardedFrameNamesRegisteredSender(p: Primitives, ttl: int, ops: seq<Broker.Op>, steps: seq<Step>, s: State,
                                            t: nat, k: nat)
    requires p.Lawful() && Broker.FreshRun(Broker.PasetoConfig(p, ttl), Broker.INIT, ops)
    requires Reachable(RelayConfig(p), steps, s) && t < |s.channels| && 0 < k < |s.channels[t].log|
    requires s.channels[t].log[k].frame.kind == FRAME_DATA
    requires forall h :: h in s.handlers && h.session.Some? ==>
               Unforged(p, Broker.Run(Broker.PasetoConfig(p, ttl), Broker.INIT, ops).issued, h.session.value.token)
    ensures var f := s.channels[t].log[k].frame;
      var registry := Broker.Run(Broker.PasetoConfig(p, ttl), Broker.INIT, ops);
      exists slot: Slot :: slot in registry.endpoints && slot.domain == f.domain && slot.group == f.group
          && slot.id == f.endpoint
  {
    var cfg := RelayConfig(p);
    SentFramesAnswerInputs(cfg, steps, s, t, k);
    var f := s.channels[t].log[k].frame;
    var h := s.handlers[s.channels[t].log[k].origin.sender];
    var session := h.session.value;
    assert h in s.handlers;
    assert VerifyToken(p, session.token, session.at) == Ok(session.claims);
    assert ops + [] == ops;
    BrokerTheorems.TokenBindsOneEndpoint(p, ttl, ops, [], session.token, session.at);
    var registry := Broker.Run(Broker.PasetoConfig(p, ttl), Broker.INIT, ops);
    var slot := session.claims.ToSlot();
    assert slot in registry.endpoints && slot.domain == f.domain && slot.group == f.group && slot.id == f.endpoint;
  }
}
