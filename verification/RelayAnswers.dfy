/** What becomes of every frame the relay reads, and what each step of a handler answers (swarm/relay.go). */
module RelayAnswers {
  import opened Common
  import opened SwarmTypes
  import opened Paseto
  import opened RelayCodec
  import opened RelayServer
  import opened RelaySafety

  // ---------- what one step does ----------

  /** The payload's bytes as text. */
  predicate IsTextOf(text: string, payload: Bytes) {
    |text| == |payload| && forall i :: 0 <= i < |text| ==> text[i] as int == payload[i]
  }

  /** A connection is accepted exactly when its first frame is an auth frame whose payload is a valid token. */
  lemma AuthExactly(cfg: Config, s: State, c: nat, first: Result<Frame, ReadError>, now: int, text: string)
    requires WellFormed(s) && Enabled(cfg, s, Authenticate(c, first, now))
    requires first.Ok? ==> IsTextOf(text, first.value.payload)
    ensures var s' := Next(cfg, s, Authenticate(c, first, now));
      && s' == s.(handlers := s'.handlers)
      && (if first.Ok? && first.value.kind == FRAME_AUTH && cfg.open(text, now).Ok? then
            s'.handlers[c] ==
              s.handlers[c].(pc := SendingAuthOK, session := Some(Session(text, now, cfg.open(text, now).value)))
          else s'.handlers[c] == s.handlers[c].(pc := SendingAuthFail))
  {
    if first.Ok? {
      var token := TokenOf(first.value.payload);
      assert forall i :: 0 <= i < |text| ==> text[i] == token[i];
      assert token == text;
    }
  }

  /** A failed read ends the loop; a ping is echoed on its own connection; data is routed; the rest is ignored. */
  lemma ReadExactly(cfg: Config, s: State, c: nat, r: Result<Frame, ReadError>)
    requires WellFormed(s) && Enabled(cfg, s, Read(c, r))
    ensures var h, s' := s.handlers[c], Next(cfg, s, Read(c, r));
      var h' := s'.handlers[c];
      && s' == s.(handlers := s'.handlers) && h' == h.(pc := h'.pc, inputs := h'.inputs)
      && h'.inputs == h.inputs + (if r.Ok? then [r.value] else [])
      && (h'.pc == Closing <==> r.Err?)
      && (forall f :: r == Ok(f) ==>
           && (f.kind == FRAME_PING ==> h'.pc == Sending(c, Frame(FRAME_PONG, 0, 0, 0, f.payload), true, Waiting))
           && (f.kind == FRAME_DATA ==> h'.pc == Routing(EndpointAddr(f.domain, f.group, f.endpoint, 0), f.payload))
           && (f.kind != FRAME_PING && f.kind != FRAME_DATA ==> h'.pc == Reading))
  {
  }

  /** Where the last data frame that a handler read is addressed. */
  predicate DataIsLast(h: Handler, dst: EndpointAddr) {
    h.inputs != []
    && var f := h.inputs[|h.inputs| - 1];
       f.kind == FRAME_DATA && dst == EndpointAddr(f.domain, f.group, f.endpoint, 0)
  }

  /**
   A data frame goes to the session in the table under its destination's key, naming its sender as the
   sender's token does; without such a session it is refused.
   */
  lemma LookupExactly(cfg: Config, steps: seq<Step>, s: State, c: nat)
    requires Reachable(cfg, steps, s) && WellFormed(s) && Enabled(cfg, s, Lookup(c))
    ensures var h, s' := s.handlers[c], Next(cfg, s, Lookup(c));
      && DataIsLast(h, h.pc.dst) && h.pc.payload == h.inputs[|h.inputs| - 1].payload
      && cfg.open(h.session.value.token, h.session.value.at).Ok?
      && s' == s.(handlers := s'.handlers) && s'.handlers[c] == h.(pc := s'.handlers[c].pc)
      && var claims := cfg.open(h.session.value.token, h.session.value.at).value;
         var key := cfg.key(h.pc.dst);
         if key in s.table then
           && s'.handlers[c].pc ==
                Sending(s.table[key], Frame(FRAME_DATA, claims.domain, claims.group, claims.endpointID, h.pc.payload),
                        false, Waiting)
           && s.table[key] < |s.handlers| && s.handlers[s.table[key]].session.Some?
           && cfg.key(s.handlers[s.table[key]].session.value.Addr()) == key
         else s'.handlers[c].pc == NoRouting(h.pc.dst)
  {
    ReachableInv(cfg, steps, s);
    assert HandlerOK(cfg, s, c);
    var key := cfg.key(s.handlers[c].pc.dst);
    if key in s.table {
      assert EntryOK(cfg, s, key, s.table[key]);
    }
  }

  /** Releasing the mutex: read on after a whole frame; a failed echo ends the loop, a failed forward its target. */
  lemma UnlockExactly(cfg: Config, s: State, c: nat)
    requires WellFormed(s) && Enabled(cfg, s, Unlock(c))
    ensures var h, s' := s.handlers[c], Next(cfg, s, Unlock(c));
      && s'.channels[h.pc.target].lock == None
      && s'.handlers[c] == h.(pc := s'.handlers[c].pc)
      && s'.handlers[c].pc == (match h.pc.stage
                               case Unlocking(failed) =>
                                 if !failed then Reading
                                 else if h.pc.own then Closing
                                 else Dropping(h.pc.target)
                               case _ => h.pc)
  {
  }

  /** Joining and leaving the loop: the session enters under its own address, and a closing one does not read on. */
  lemma JoinAndLeave(cfg: Config, s: State, step: Step)
    requires WellFormed(s) && Enabled(cfg, s, step)
    requires !step.Accept?
    ensures var pc, pc' := s.handlers[step.c].pc, Next(cfg, s, step).handlers[step.c].pc;
      && (step.WriteAuthFail? ==> pc' == Closed)
      && (step.WriteAuthOK? ==> pc' == Adding)
      && (step.AddSession? ==> pc' == Reading)
      && (step.AddSession? ==>
           var key := cfg.key(s.handlers[step.c].session.value.Addr());
           Next(cfg, s, step).table == s.table[key := step.c])
      && (step.DropTarget? ==> pc' == Reading)
      && (step.RemoveSelf? ==> pc' == Removed)
      && (step.CloseConn? ==> pc' == Closed && Next(cfg, s, step).channels[step.c].dead)
      && (pc' == Closing && pc != Closing ==>
           (step.Read? && step.r.Err?) || (step.Unlock? && pc.own && pc.stage == Unlocking(true)))
  {
  }

  // ---------- the reply to a refused frame ----------

  ghost predicate RefusalsNamed(s: State) {
    forall h :: h in s.handlers && h.pc.NoRouting? ==> DataIsLast(h, h.pc.dst)
  }

  lemma RefusalsKept(cfg: Config, s: State, step: Step)
    requires Inv(cfg, s) && RefusalsNamed(s) && Enabled(cfg, s, step)
    ensures RefusalsNamed(Next(cfg, s, step))
  {
    if !step.Accept? {
      assert HandlerOK(cfg, s, step.c);
      assert s.handlers[step.c] in s.handlers;
    }
  }

  lemma {:induction false} ReachableRefusals(cfg: Config, steps: seq<Step>, s: State)
    requires Reachable(cfg, steps, s)
    ensures RefusalsNamed(s)
    decreases |steps|
  {
    if steps != [] {
      var n := |steps| - 1;
      var before :|
        Reachable(cfg, steps[..n], before) && WellFormed(before) && Enabled(cfg, before, steps[n])
        && s == Next(cfg, before, steps[n]);
      ReachableInv(cfg, steps[..n], before);
      ReachableRefusals(cfg, steps[..n], before);
      RefusalsKept(cfg, before, steps[n]);
    }
  }

  lemma NoRouteBytes(dst: EndpointAddr)
    ensures EncodeHeader(HeaderOf(NoRouteFrame(dst))) ==
      [0x11, dst.domain, dst.group, dst.endpoint % 256, dst.endpoint / 256, 0, 0, 0, 0]
  {
    HeaderLayout(HeaderOf(NoRouteFrame(dst)));
  }

  lemma RefusalWritten(cfg: Config, s: State, c: nat)
    requires WellFormed(s) && Enabled(cfg, s, WriteNoRoute(c, Full))
    ensures var s' := Next(cfg, s, WriteNoRoute(c, Full));
      && s'.handlers[c].pc == Reading
      && s'.channels[c].out == s.channels[c].out + EncodeHeader(HeaderOf(NoRouteFrame(s.handlers[c].pc.dst)))
  {
  }

  /** The sender of a refused data frame is sent nine bytes that repeat its destination, and is read from again. */
  lemma RefusalNamesDestination(cfg: Config, steps: seq<Step>, s: State, c: nat)
    requires Reachable(cfg, steps, s) && WellFormed(s) && Enabled(cfg, s, WriteNoRoute(c, Full))
    ensures var h, s' := s.handlers[c], Next(cfg, s, WriteNoRoute(c, Full));
      && DataIsLast(h, h.pc.dst) && s'.handlers[c].pc == Reading
      && var f := h.inputs[|h.inputs| - 1];
         s'.channels[c].out ==
           s.channels[c].out + [0x11, f.domain, f.group, f.endpoint % 256, f.endpoint / 256, 0, 0, 0, 0]
  {
    ReachableRefusals(cfg, steps, s);
    assert s.handlers[c] in s.handlers;
    NoRouteBytes(s.handlers[c].pc.dst);
    RefusalWritten(cfg, s, c);
  }

  // ---------- what becomes of every frame ----------

  /** Runs are determined by their steps. */
  lemma {:induction false} OneOutcome(cfg: Config, steps: seq<Step>, s: State, t: State)
    requires Reachable(cfg, steps, s) && Reachable(cfg, steps, t)
    ensures s == t
    decreases |steps|
  {
    if steps != [] {
      var n := |steps| - 1;
      var a :|
        Reachable(cfg, steps[..n], a) && WellFormed(a) && Enabled(cfg, a, steps[n]) && s == Next(cfg, a, steps[n]);
      var b :|
        Reachable(cfg, steps[..n], b) && WellFormed(b) && Enabled(cfg, b, steps[n]) && t == Next(cfg, b, steps[n]);
      OneOutcome(cfg, steps[..n], a, b);
    }
  }

  datatype Fate = Answered | Ignored | Refused | WriteFailed | InHand

  /** At this step handler c looked up the destination of its i-th frame, and no session was connected under it. */
  ghost predicate RefusedAt(cfg: Config, s: State, step: Step, c: nat, i: nat) {
    && step == Lookup(c) && c < |s.handlers| && |s.handlers[c].inputs| == i + 1
    && var f := s.handlers[c].inputs[i];
       f.kind == FRAME_DATA && cfg.key(EndpointAddr(f.domain, f.group, f.endpoint, 0)) !in s.table
  }

  /** At this step a write of the answer to handler c's i-th frame failed. */
  ghost predicate FailedAt(s: State, step: Step, c: nat, i: nat) {
    && (step.WriteHeader? || step.WritePayload?) && step.c == c && step.w.Short?
    && c < |s.handlers| && |s.handlers[c].inputs| == i + 1
  }

  ghost predicate EndsAt(cfg: Config, s: State, step: Step, c: nat, i: nat, fate: Fate) {
    match fate
    case Refused => RefusedAt(cfg, s, step, c, i)
    case WriteFailed => FailedAt(s, step, c, i)
    case _ => false
  }

  /** Some step of the run ended handler c's i-th frame this way. */
  ghost predicate Ended(cfg: Config, steps: seq<Step>, c: nat, i: nat, fate: Fate) {
    exists n: nat, before ::
      n < |steps| && Reachable(cfg, steps[..n], before) && EndsAt(cfg, before, steps[n], c, i, fate)
  }

  /** The frame is being answered: looked up, waiting for the mutex, or being written. */
  predicate Working(h: Handler) {
    h.pc.Routing? || (h.pc.Sending? && !h.pc.stage.Unlocking?)
  }

  ghost predicate Has(cfg: Config, steps: seq<Step>, s: State, c: nat, i: nat, fate: Fate)
    requires c < |s.handlers| && i < |s.handlers[c].inputs|
  {
    var h := s.handlers[c];
    match fate
    case Answered => i in h.delivered
    case Ignored => h.inputs[i].kind != FRAME_PING && h.inputs[i].kind != FRAME_DATA
    case Refused => Ended(cfg, steps, c, i, Refused)
    case WriteFailed => Ended(cfg, steps, c, i, WriteFailed)
    case InHand => i == |h.inputs| - 1 && Working(h)
  }

  /** The last step of a run either ends the frame now, or it had ended before. */
  lemma EndedNowOrBefore(cfg: Config, steps: seq<Step>, before: State, c: nat, i: nat, fate: Fate)
    requires steps != [] && Reachable(cfg, steps[..|steps| - 1], before)
    ensures var n := |steps| - 1;
      Ended(cfg, steps, c, i, fate) <==>
        Ended(cfg, steps[..n], c, i, fate) || EndsAt(cfg, before, steps[n], c, i, fate)
  {
    var n := |steps| - 1;
    if Ended(cfg, steps, c, i, fate) {
      var m: nat, b :| m < |steps| && Reachable(cfg, steps[..m], b) && EndsAt(cfg, b, steps[m], c, i, fate);
      if m == n {
        OneOutcome(cfg, steps[..n], b, before);
      } else {
        assert steps[..n][..m] == steps[..m] && steps[..n][m] == steps[m];
      }
    }
    if Ended(cfg, steps[..n], c, i, fate) {
      var m: nat, b :| m < n && Reachable(cfg, steps[..n][..m], b) && EndsAt(cfg, b, steps[..n][m], c, i, fate);
      assert steps[..n][..m] == steps[..m] && steps[..n][m] == steps[m];
    }
  }

  /** Whether and how the i-th frame has ended is consistent with where its handler stands. */
  predicate OneFate(h: Handler, i: nat, refused: bool, failed: bool) {
    var inHand := i == |h.inputs| - 1 && Working(h);
    && (refused || failed ==> i < |h.inputs| && i !in h.delivered && !inHand && !(refused && failed))
    && (i < |h.inputs| ==>
         var relayed := h.inputs[i].kind == FRAME_PING || h.inputs[i].kind == FRAME_DATA;
         relayed <==> i in h.delivered || refused || failed || inHand)
  }

  lemma OthersKeepHandler(cfg: Config, s: State, step: Step, c: nat)
    requires WellFormed(s) && Enabled(cfg, s, step) && c < |s.handlers| && (step.Accept? || step.c != c)
    ensures Next(cfg, s, step).handlers[c] == s.handlers[c]
  {
  }

  lemma ActorFate(cfg: Config, s: State, step: Step, i: nat, refused: bool, failed: bool)
    requires WellFormed(s) && Enabled(cfg, s, step) && !step.Accept? && HandlerOK(cfg, s, step.c)
    requires OneFate(s.handlers[step.c], i, refused, failed)
    ensures OneFate(HandlerAfter(cfg, s, step), i,
                    refused || RefusedAt(cfg, s, step, step.c, i), failed || FailedAt(s, step, step.c, i))
  {
  }

  /** What a run has ended so far fits the handlers' states; nothing has ended for handlers not yet there. */
  ghost predicate Fates(cfg: Config, steps: seq<Step>, s: State) {
    forall c: nat, i: nat ::
      var refused, failed := Ended(cfg, steps, c, i, Refused), Ended(cfg, steps, c, i, WriteFailed);
      if c < |s.handlers| then OneFate(s.handlers[c], i, refused, failed) else !refused && !failed
  }

  lemma FateKept(cfg: Config, steps: seq<Step>, before: State, c: nat, i: nat)
    requires steps != [] && Reachable(cfg, steps[..|steps| - 1], before) && Fates(cfg, steps[..|steps| - 1], before)
    requires WellFormed(before) && Enabled(cfg, before, steps[|steps| - 1]) && Inv(cfg, before)
    requires c < |before.handlers|
    ensures OneFate(Next(cfg, before, steps[|steps| - 1]).handlers[c], i,
                    Ended(cfg, steps, c, i, Refused), Ended(cfg, steps, c, i, WriteFailed))
  {
    var n := |steps| - 1;
    EndedNowOrBefore(cfg, steps, before, c, i, Refused);
    EndedNowOrBefore(cfg, steps, before, c, i, WriteFailed);
    if !steps[n].Accept? && steps[n].c == c {
      assert HandlerOK(cfg, before, c);
      ActorFate(cfg, before, steps[n], i,
                Ended(cfg, steps[..n], c, i, Refused), Ended(cfg, steps[..n], c, i, WriteFailed));
    } else {
      OthersKeepHandler(cfg, before, steps[n], c);
    }
  }

  lemma FatesStep(cfg: Config, steps: seq<Step>, before: State)
    requires steps != [] && Reachable(cfg, steps[..|steps| - 1], before) && Fates(cfg, steps[..|steps| - 1], before)
    requires WellFormed(before) && Enabled(cfg, before, steps[|steps| - 1]) && Inv(cfg, before)
    ensures Fates(cfg, steps, Next(cfg, before, steps[|steps| - 1]))
  {
    var s := Next(cfg, before, steps[|steps| - 1]);
    forall c: nat, i: nat
      ensures var refused, failed := Ended(cfg, steps, c, i, Refused), Ended(cfg, steps, c, i, WriteFailed);
        if c < |s.handlers| then OneFate(s.handlers[c], i, refused, failed) else !refused && !failed
    {
      if c < |before.handlers| {
        FateKept(cfg, steps, before, c, i);
      } else {
        EndedNowOrBefore(cfg, steps, before, c, i, Refused);
        EndedNowOrBefore(cfg, steps, before, c, i, WriteFailed);
      }
    }
  }

  lemma {:induction false} ReachableFates(cfg: Config, steps: seq<Step>, s: State)
    requires Reachable(cfg, steps, s)
    ensures Fates(cfg, steps, s)
    decreases |steps|
  {
    if steps != [] {
      var n := |steps| - 1;
      var before :|
        Reachable(cfg, steps[..n], before) && WellFormed(before) && Enabled(cfg, before, steps[n])
        && s == Next(cfg, before, steps[n]);
      ReachableInv(cfg, steps[..n], before);
      ReachableFates(cfg, steps[..n], before);
      FatesStep(cfg, steps, before);
    }
  }

  /**
   Every frame that a handler ever read has exactly one fate: its answer was sent whole, or it was of an
   ignored kind, or no session was connected under its destination when that was looked up, or the write of
   its answer failed, or it is the last frame read and is still being answered.
   */
  lemma EveryFrameHasOneFate(cfg: Config, steps: seq<Step>, s: State, c: nat, i: nat)
    requires Reachable(cfg, steps, s) && c < |s.handlers| && i < |s.handlers[c].inputs|
    ensures exists fate ::
      Has(cfg, steps, s, c, i, fate) && forall other :: Has(cfg, steps, s, c, i, other) ==> other == fate
  {
    ReachableInv(cfg, steps, s);
    ReachableFates(cfg, steps, s);
    assert HandlerOK(cfg, s, c);
    var h := s.handlers[c];
    var fate :=
      if i in h.delivered then Answered
      else if Ended(cfg, steps, c, i, Refused) then Refused
      else if Ended(cfg, steps, c, i, WriteFailed) then WriteFailed
      else if i == |h.inputs| - 1 && Working(h) then InHand
      else Ignored;
    assert OneFate(h, i, Ended(cfg, steps, c, i, Refused), Ended(cfg, steps, c, i, WriteFailed));
    assert Has(cfg, steps, s, c, i, fate);
    forall other | Has(cfg, steps, s, c, i, other) ensures other == fate {
      match other
      case Answered =>
      case Ignored =>
      case Refused =>
      case WriteFailed =>
      case InHand =>
    }
  }

  // ---------- what the relay can do for a connected endpoint ----------

  lemma Extend(cfg: Config, steps: seq<Step>, s: State, step: Step)
    requires Reachable(cfg, steps, s) && WellFormed(s) && Enabled(cfg, s, step)
    ensures Reachable(cfg, steps + [step], Next(cfg, s, step)) && WellFormed(Next(cfg, s, step))
  {
    var longer := steps + [step];
    assert longer[..|longer| - 1] == steps && longer[|longer| - 1] == step;
  }

  /** Handler a answers frame `f` with `frame` on connection b, reads on, and disturbs nothing else. */
  ghost predicate AnsweredOn(s: State, s': State, a: nat, b: nat, frame: Frame)
    requires a < |s.handlers| && b < |s.channels|
  {
    && |s'.handlers| == |s.handlers| && |s'.channels| == |s.channels| && s'.table == s.table
    && s'.handlers == s.handlers[a := s'.handlers[a]]
    && s'.handlers[a].pc == Reading && s'.handlers[a].session == s.handlers[a].session
    && s'.channels == s.channels[b := s'.channels[b]]
    && s'.channels[b].out == s.channels[b].out + Encode(frame)
    && s'.channels[b].lock == None && !s'.channels[b].dead
  }

  /** A handler about to write to a live connection whose mutex is free can write its whole frame. */
  lemma CanSendWhole(cfg: Config, steps: seq<Step>, s: State, c: nat) returns (more: seq<Step>, s': State)
    requires Reachable(cfg, steps, s) && WellFormed(s) && c < |s.handlers| && s.handlers[c].pc.Sending?
    requires s.handlers[c].pc.stage == Waiting && s.handlers[c].pc.target < |s.channels|
    requires !s.channels[s.handlers[c].pc.target].dead && s.channels[s.handlers[c].pc.target].lock == None
    ensures Reachable(cfg, more, s')
    ensures AnsweredOn(s, s', c, s.handlers[c].pc.target, s.handlers[c].pc.frame)
    ensures s'.handlers[c].inputs == s.handlers[c].inputs
  {
    var t, frame := s.handlers[c].pc.target, s.handlers[c].pc.frame;
    Extend(cfg, steps, s, Lock(c));
    var s1 := Next(cfg, s, Lock(c));
    more, s' := SendLocked(cfg, steps + [Lock(c)], s1, c);
  }

  /** The handler has written its whole frame and still holds the mutex. */
  ghost predicate Written(s: State, s': State, c: nat)
    requires WellFormed(s) && AtStage(s, c, Locked)
  {
    var h, t := s.handlers[c], s.handlers[c].pc.target;
    && WellFormed(s') && s'.table == s.table
    && |s'.handlers| == |s.handlers| && s'.handlers == s.handlers[c := s'.handlers[c]]
    && s'.handlers[c] == h.(pc := h.pc.(stage := Unlocking(false)), delivered := s'.handlers[c].delivered)
    && s'.channels == s.channels[t := s'.channels[t]]
    && s'.channels[t].out == s.channels[t].out + Encode(h.pc.frame) && !s'.channels[t].dead
  }

  lemma HeaderAlone(cfg: Config, s: State, c: nat)
    requires WellFormed(s) && AtStage(s, c, Locked) && !s.channels[s.handlers[c].pc.target].dead
    requires s.handlers[c].pc.frame.payload == []
    ensures Enabled(cfg, s, WriteHeader(c, Full)) && Written(s, Next(cfg, s, WriteHeader(c, Full)), c)
  {
    var frame := s.handlers[c].pc.frame;
    assert Encode(frame) == EncodeHeader(HeaderOf(frame));
  }

  lemma HeaderPut(ch: Channel, e: Entry)
    requires !ch.dead && e.frame.payload != []
    ensures PutHeader(ch, e, Full).out + e.frame.payload == ch.out + Encode(e.frame)
  {
    var hdr := EncodeHeader(HeaderOf(e.frame));
    assert (ch.out + hdr) + e.frame.payload == ch.out + (hdr + e.frame.payload);
  }

  lemma HeaderFirst(cfg: Config, steps: seq<Step>, s: State, c: nat) returns (more: seq<Step>, s': State)
    requires Reachable(cfg, steps, s) && WellFormed(s) && AtStage(s, c, Locked)
    requires !s.channels[s.handlers[c].pc.target].dead && s.handlers[c].pc.frame.payload != []
    ensures Reachable(cfg, more, s')
    ensures var h, t := s.handlers[c], s.handlers[c].pc.target;
      && WellFormed(s') && s'.table == s.table
      && s'.handlers == s.handlers[c := h.(pc := h.pc.(stage := HeaderSent))]
      && s'.channels == s.channels[t := s'.channels[t]]
      && s'.channels[t].out + h.pc.frame.payload == s.channels[t].out + Encode(h.pc.frame) && !s'.channels[t].dead
  {
    HeaderPut(s.channels[s.handlers[c].pc.target], EntryFor(s, c));
    Extend(cfg, steps, s, WriteHeader(c, Full));
    more, s' := steps + [WriteHeader(c, Full)], Next(cfg, s, WriteHeader(c, Full));
  }

  lemma BodyNext(cfg: Config, steps: seq<Step>, s: State, c: nat) returns (more: seq<Step>, s': State)
    requires Reachable(cfg, steps, s) && WellFormed(s) && AtStage(s, c, HeaderSent)
    requires !s.channels[s.handlers[c].pc.target].dead
    ensures Reachable(cfg, more, s')
    ensures var h, t := s.handlers[c], s.handlers[c].pc.target;
      && WellFormed(s') && s'.table == s.table
      && |s'.handlers| == |s.handlers| && s'.handlers == s.handlers[c := s'.handlers[c]]
      && s'.handlers[c] == h.(pc := h.pc.(stage := Unlocking(false)), delivered := s'.handlers[c].delivered)
      && s'.channels == s.channels[t := s'.channels[t]]
      && s'.channels[t].out == s.channels[t].out + h.pc.frame.payload && !s'.channels[t].dead
  {
    Extend(cfg, steps, s, WritePayload(c, Full));
    more, s' := steps + [WritePayload(c, Full)], Next(cfg, s, WritePayload(c, Full));
  }

  lemma CanWriteWhole(cfg: Config, steps: seq<Step>, s: State, c: nat) returns (more: seq<Step>, s': State)
    requires Reachable(cfg, steps, s) && WellFormed(s) && AtStage(s, c, Locked)
    requires !s.channels[s.handlers[c].pc.target].dead
    ensures Reachable(cfg, more, s') && Written(s, s', c)
  {
    if s.handlers[c].pc.frame.payload == [] {
      HeaderAlone(cfg, s, c);
      Extend(cfg, steps, s, WriteHeader(c, Full));
      more, s' := steps + [WriteHeader(c, Full)], Next(cfg, s, WriteHeader(c, Full));
    } else {
      more, s' := CanWriteBoth(cfg, steps, s, c);
    }
  }

  lemma CanWriteBoth(cfg: Config, steps: seq<Step>, s: State, c: nat) returns (more: seq<Step>, s': State)
    requires Reachable(cfg, steps, s) && WellFormed(s) && AtStage(s, c, Locked)
    requires !s.channels[s.handlers[c].pc.target].dead && s.handlers[c].pc.frame.payload != []
    ensures Reachable(cfg, more, s') && Written(s, s', c)
  {
    var run, s1 := HeaderFirst(cfg, steps, s, c);
    more, s' := BodyNext(cfg, run, s1, c);
  }

  lemma SendLocked(cfg: Config, steps: seq<Step>, s: State, c: nat) returns (more: seq<Step>, s': State)
    requires Reachable(cfg, steps, s) && WellFormed(s) && AtStage(s, c, Locked)
    requires !s.channels[s.handlers[c].pc.target].dead
    ensures Reachable(cfg, more, s')
    ensures AnsweredOn(s, s', c, s.handlers[c].pc.target, s.handlers[c].pc.frame)
    ensures s'.handlers[c].inputs == s.handlers[c].inputs
  {
    var run, s1 := CanWriteWhole(cfg, steps, s, c);
    more, s' := Release(cfg, run, s1, c);
  }

  lemma Release(cfg: Config, steps: seq<Step>, s: State, c: nat) returns (more: seq<Step>, s': State)
    requires Reachable(cfg, steps, s) && WellFormed(s) && AtStage(s, c, Unlocking(false))
    ensures Reachable(cfg, more, s') && s'.table == s.table
    ensures s'.handlers == s.handlers[c := s.handlers[c].(pc := Reading)]
    ensures s'.channels == s.channels[s.handlers[c].pc.target := s.channels[s.handlers[c].pc.target].(lock := None)]
  {
    Extend(cfg, steps, s, Unlock(c));
    more, s' := steps + [Unlock(c)], Next(cfg, s, Unlock(c));
  }

  /** A ping is answered in full with a pong of the same payload. */
  lemma PingIsEchoed(cfg: Config, steps: seq<Step>, s: State, c: nat, f: Frame) returns (more: seq<Step>, s': State)
    requires Reachable(cfg, steps, s) && WellFormed(s) && c < |s.handlers|
    requires s.handlers[c].pc == Reading && s.handlers[c].session.Some?
    requires f.kind == FRAME_PING && |f.payload| <= MAX_PAYLOAD
    requires !s.channels[c].dead && s.channels[c].lock == None
    ensures Reachable(cfg, more, s')
    ensures AnsweredOn(s, s', c, c, Frame(0x21, 0, 0, 0, f.payload))
    ensures s'.handlers[c].inputs == s.handlers[c].inputs + [f]
  {
    var read := Read(c, Ok(f));
    Extend(cfg, steps, s, read);
    more, s' := CanSendWhole(cfg, steps + [read], Next(cfg, s, read), c);
  }

  /** A data frame to an endpoint that is connected reaches it, under the sender's own address. */
  lemma DataIsForwarded(cfg: Config, steps: seq<Step>, s: State, a: nat, b: nat, f: Frame)
      returns (more: seq<Step>, s': State)
    requires Reachable(cfg, steps, s) && WellFormed(s) && a < |s.handlers| && b < |s.channels|
    requires s.handlers[a].pc == Reading && s.handlers[a].session.Some?
    requires f.kind == FRAME_DATA && |f.payload| <= MAX_PAYLOAD
    requires cfg.key(EndpointAddr(f.domain, f.group, f.endpoint, 0)) in s.table
             && s.table[cfg.key(EndpointAddr(f.domain, f.group, f.endpoint, 0))] == b
    requires !s.channels[b].dead && s.channels[b].lock == None
    ensures Reachable(cfg, more, s')
    ensures var claims := s.handlers[a].session.value.claims;
      AnsweredOn(s, s', a, b, Frame(0x10, claims.domain, claims.group, claims.endpointID, f.payload))
    ensures s'.handlers[a].inputs == s.handlers[a].inputs + [f]
  {
    var run, s1 := ReadAndFound(cfg, steps, s, a, b, f);
    more, s' := CanSendWhole(cfg, run, s1, a);
  }

  lemma ReadAndFound(cfg: Config, steps: seq<Step>, s: State, a: nat, b: nat, f: Frame)
      returns (more: seq<Step>, s': State)
    requires Reachable(cfg, steps, s) && WellFormed(s) && a < |s.handlers|
    requires s.handlers[a].pc == Reading && s.handlers[a].session.Some?
    requires f.kind == FRAME_DATA && |f.payload| <= MAX_PAYLOAD
    requires cfg.key(EndpointAddr(f.domain, f.group, f.endpoint, 0)) in s.table
             && s.table[cfg.key(EndpointAddr(f.domain, f.group, f.endpoint, 0))] == b
    ensures Reachable(cfg, more, s') && s' == s.(handlers := s'.handlers) && |s'.handlers| == |s.handlers|
    ensures var h, claims := s.handlers[a], s.handlers[a].session.value.claims;
      var frame := Frame(0x10, claims.domain, claims.group, claims.endpointID, f.payload);
      s'.handlers == s.handlers[a := h.(pc := Sending(b, frame, false, Waiting), inputs := h.inputs + [f])]
  {
    var read := Read(a, Ok(f));
    Extend(cfg, steps, s, read);
    ReadExactly(cfg, s, a, Ok(f));
    more, s' := TargetFound(cfg, steps + [read], Next(cfg, s, read), a, b);
  }

  lemma TargetFound(cfg: Config, steps: seq<Step>, s: State, a: nat, b: nat) returns (more: seq<Step>, s': State)
    requires Reachable(cfg, steps, s) && WellFormed(s) && a < |s.handlers|
    requires s.handlers[a].pc.Routing? && s.handlers[a].session.Some?
    requires cfg.key(s.handlers[a].pc.dst) in s.table && s.table[cfg.key(s.handlers[a].pc.dst)] == b
    ensures Reachable(cfg, more, s') && s' == s.(handlers := s'.handlers)
    ensures var h, claims := s.handlers[a], s.handlers[a].session.value.claims;
      var frame := Frame(0x10, claims.domain, claims.group, claims.endpointID, h.pc.payload);
      s'.handlers == s.handlers[a := h.(pc := Sending(b, frame, false, Waiting))]
  {
    Extend(cfg, steps, s, Lookup(a));
    more, s' := steps + [Lookup(a)], Next(cfg, s, Lookup(a));
  }

  /** Whoever presents a valid token is connected: nine bytes say so, and the table holds the new session. */
  lemma ValidTokenConnects(cfg: Config, steps: seq<Step>, s: State, auth: Frame, token: string, now: int)
      returns (more: seq<Step>, s': State)
    requires Reachable(cfg, steps, s) && WellFormed(s)
    requires auth.kind == FRAME_AUTH && IsTextOf(token, auth.payload) && cfg.open(token, now).Ok?
    ensures Reachable(cfg, more, s') && WellFormed(s')
    ensures var c, claims := |s.handlers|, cfg.open(token, now).value;
      && s'.handlers == s.handlers + [Handler(Reading, Some(Session(token, now, claims)), [], map[])]
      && |s'.channels| == c + 1 && s'.channels[..c] == s.channels
      && s'.channels[c].out == [0x02, 0, 0, 0, 0, 0, 0, 0, 0]
      && !s'.channels[c].dead && s'.channels[c].lock == None
      && var key := cfg.key(EndpointAddr(claims.domain, claims.group, claims.endpointID, claims.roleFlags));
         s'.table == s.table[key := c]
  {
    var run, s1 := TokenAccepted(cfg, steps, s, auth, token, now);
    more, s' := Welcome(cfg, run, s1, |s.handlers|);
    WelcomeBytes();
  }

  lemma WelcomeBytes()
    ensures EncodeHeader(HeaderOf(ControlFrame(FRAME_AUTH_OK))) == [0x02, 0, 0, 0, 0, 0, 0, 0, 0]
  {
    HeaderLayout(HeaderOf(ControlFrame(FRAME_AUTH_OK)));
  }

  lemma TokenAccepted(cfg: Config, steps: seq<Step>, s: State, auth: Frame, token: string, now: int)
      returns (more: seq<Step>, s': State)
    requires Reachable(cfg, steps, s) && WellFormed(s)
    requires auth.kind == FRAME_AUTH && IsTextOf(token, auth.payload) && cfg.open(token, now).Ok?
    ensures Reachable(cfg, more, s') && WellFormed(s') && s'.table == s.table
    ensures s'.handlers ==
      s.handlers + [Handler(SendingAuthOK, Some(Session(token, now, cfg.open(token, now).value)), [], map[])]
    ensures s'.channels == s.channels + [NEW_CHANNEL]
  {
    var c := |s.handlers|;
    Extend(cfg, steps, s, Accept);
    var s1 := Next(cfg, s, Accept);
    more := steps + [Accept];
    var present := Authenticate(c, Ok(auth), now);
    AuthExactly(cfg, s1, c, Ok(auth), now, token);
    Extend(cfg, more, s1, present);
    more, s' := more + [present], Next(cfg, s1, present);
  }

  lemma Welcome(cfg: Config, steps: seq<Step>, s: State, c: nat) returns (more: seq<Step>, s': State)
    requires Reachable(cfg, steps, s) && WellFormed(s) && c < |s.handlers|
    requires s.handlers[c].pc == SendingAuthOK && s.handlers[c].session.Some? && s.channels[c] == NEW_CHANNEL
    ensures Reachable(cfg, more, s') && WellFormed(s')
    ensures s'.handlers == s.handlers[c := s.handlers[c].(pc := Reading)]
    ensures s'.channels == s.channels[c := s'.channels[c]]
    ensures s'.channels[c].out == EncodeHeader(HeaderOf(ControlFrame(FRAME_AUTH_OK)))
    ensures !s'.channels[c].dead && s'.channels[c].lock == None
    ensures s'.table == s.table[KeyOf(cfg, s, c) := c]
  {
    var run, s1 := Greeted(cfg, steps, s, c);
    Extend(cfg, run, s1, AddSession(c));
    more, s' := run + [AddSession(c)], Next(cfg, s1, AddSession(c));
  }

  lemma Greeted(cfg: Config, steps: seq<Step>, s: State, c: nat) returns (more: seq<Step>, s': State)
    requires Reachable(cfg, steps, s) && WellFormed(s) && c < |s.handlers|
    requires s.handlers[c].pc == SendingAuthOK && s.channels[c] == NEW_CHANNEL
    ensures Reachable(cfg, more, s') && WellFormed(s') && s'.table == s.table
    ensures s'.handlers == s.handlers[c := s.handlers[c].(pc := Adding)]
    ensures s'.channels == s.channels[c := s'.channels[c]]
    ensures s'.channels[c].out == EncodeHeader(HeaderOf(ControlFrame(FRAME_AUTH_OK)))
    ensures !s'.channels[c].dead && s'.channels[c].lock == None
  {
    var greet := WriteAuthOK(c, Full);
    Extend(cfg, steps, s, greet);
    more, s' := steps + [greet], Next(cfg, s, greet);
  }

  /**
   Two endpoints with valid tokens connect to any relay, and one sends the other a data frame: the receiver's
   bytes are the welcome and then that payload under the sender's address.
   */
  lemma TwoEndpointsTalk(cfg: Config, steps: seq<Step>, s: State, authA: Frame, tokenA: string, authB: Frame,
                         tokenB: string, now: int, f: Frame) returns (more: seq<Step>, s': State)
    requires Reachable(cfg, steps, s) && WellFormed(s)
    requires authA.kind == FRAME_AUTH && IsTextOf(tokenA, authA.payload) && cfg.open(tokenA, now).Ok?
    requires authB.kind == FRAME_AUTH && IsTextOf(tokenB, authB.payload) && cfg.open(tokenB, now).Ok?
    requires f.kind == FRAME_DATA && |f.payload| <= MAX_PAYLOAD
    requires var b := cfg.open(tokenB, now).value;
      cfg.key(EndpointAddr(f.domain, f.group, f.endpoint, 0))
        == cfg.key(EndpointAddr(b.domain, b.group, b.endpointID, b.roleFlags))
    ensures Reachable(cfg, more, s') && |s'.channels| == |s.channels| + 2
    ensures var a := cfg.open(tokenA, now).value;
      s'.channels[|s.channels| + 1].out ==
        [0x02, 0, 0, 0, 0, 0, 0, 0, 0] + Encode(Frame(0x10, a.domain, a.group, a.endpointID, f.payload))
  {
    var run, s1 := ValidTokenConnects(cfg, steps, s, authA, tokenA, now);
    var run2, s2 := ValidTokenConnects(cfg, run, s1, authB, tokenB, now);
    more, s' := DataIsForwarded(cfg, run2, s2, |s.handlers|, |s.handlers| + 1, f);
  }
}
