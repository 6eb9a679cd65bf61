/**
 The UDP hole-punch handshake (holepunch.go, PunchUDP): two peers, each with a sender, a receiver and a
 caller waiting on a WaitGroup, over a network that loses, duplicates and reorders messages.
 */
module HolePunch {

  const MAX_TRIES := 60

  /** The sender goroutine; `Sleeping` is its select between the retry timer and cancellation. */
  datatype Sender = Sending(i: nat) | Sleeping(i: nat) | TimedOut | ClosingDone | SenderReturning | SenderStopped

  /** The receiver goroutine; a message is handled after the recv_done check that let it through. */
  datatype Receiver =
    | NotStarted
    | Listening
    | GotHelo
    | Replied
    | GotOkay
    | CancelledSender
    | GotBad
    | GotNoAddress
    | ExitHelo
    | ExitOkay
    | ReceiverStopped

  datatype Caller = Launching | Waiting | Closing | Checking | Succeeded | Failed

  /**
   `crashed` means some goroutine panicked, which ends the process. The last four fields are history: a
   message of that kind from the other peer was received, the sender ran out of tries and closed recv_done,
   and a read failed without an address while recv_done was open.
   */
  datatype Peer = Peer(
    sender: Sender,
    receiver: Receiver,
    caller: Caller,
    wg: int,
    helo: bool,
    okay: bool,
    fail: bool,
    recvDone: bool,
    cancelled: bool,
    crashed: bool,
    heardHelo: bool,
    heardOkay: bool,
    gaveUp: bool,
    readFailed: bool)

  datatype Kind = Helo | Okay

  datatype Message = Message(kind: Kind, from: nat)

  /** Any message ever sent may be delivered at any later time, any number of times, or never. */
  datatype State = State(peers: seq<Peer>, sent: set<Message>)

  const START := Peer(Sending(1), NotStarted, Launching, 1, false, false, false, false, false, false, false, false,
      false, false)
  const INIT := State([START, START], {})

  datatype Action =
    | Launch
    | SendHelo
    | RetryTimer
    | Cancelled
    | SetTimeout
    | CloseRecvDone
    | SenderDone
    | StopReceiver
    | ReceiveHelo
    | ReceiveOkay
    | ReceiveBad
    | ReadFails
    | ReadFailsWithAddress
    | UseNoAddress
    | ReplyOkay
    | MarkHelo
    | CancelSender
    | MarkOkay
    | Abort
    | DeferHelo
    | DeferOkay
    | WaitOver
    | CallerCloses
    | CallerChecks

  function Other(p: nat): nat
    requires p < 2
  {
    1 - p
  }

  predicate Enabled(s: State, p: nat, a: Action)
    requires p < |s.peers| == 2
  {
    var x := s.peers[p];
    !x.crashed &&
    match a
    case Launch => x.caller.Launching?
    case SendHelo => x.sender.Sending?
    case RetryTimer => x.sender.Sleeping?
    case Cancelled => x.sender.Sleeping? && x.cancelled
    case SetTimeout => x.sender.TimedOut?
    case CloseRecvDone => x.sender.ClosingDone?
    case SenderDone => x.sender.SenderReturning?
    case StopReceiver => x.receiver.Listening? && x.recvDone
    case ReceiveHelo => x.receiver.Listening? && !x.recvDone && Message(Helo, Other(p)) in s.sent
    case ReceiveOkay => x.receiver.Listening? && !x.recvDone && Message(Okay, Other(p)) in s.sent
    case ReceiveBad => x.receiver.Listening? && !x.recvDone
    case ReadFails => x.receiver.Listening? && !x.recvDone
    case ReadFailsWithAddress => x.receiver.Listening? && !x.recvDone
    case UseNoAddress => x.receiver.GotNoAddress?
    case ReplyOkay => x.receiver.GotHelo?
    case MarkHelo => x.receiver.Replied?
    case CancelSender => x.receiver.GotOkay?
    case MarkOkay => x.receiver.CancelledSender?
    case Abort => x.receiver.GotBad?
    case DeferHelo => x.receiver.ExitHelo?
    case DeferOkay => x.receiver.ExitOkay?
    case WaitOver => x.caller.Waiting? && x.wg == 0
    case CallerCloses => x.caller.Closing?
    case CallerChecks => x.caller.Checking?
  }

  /**
   The acting peer after an action. Closing recv_done twice panics, and so does asking a missing address for
   its text: a failed read is compared with the expected address before its error is looked at, and aborts the
   handshake only if it came with the peer's address.
   */
  function PeerAfter(x: Peer, a: Action): Peer {
    match a
    case Launch => x.(caller := Waiting, receiver := Listening, wg := x.wg + 2)
    case SendHelo => if x.sender.Sending? then x.(sender := Sleeping(x.sender.i)) else x
    case RetryTimer =>
      if x.sender.Sleeping? then x.(sender := if x.sender.i == MAX_TRIES then TimedOut else Sending(x.sender.i + 1))
      else x
    case Cancelled => x.(sender := SenderReturning)
    case SetTimeout => x.(sender := ClosingDone, fail := true)
    case CloseRecvDone =>
      if x.recvDone then x.(crashed := true)
      else x.(sender := SenderReturning, recvDone := true, gaveUp := true)
    case SenderDone => x.(sender := SenderStopped, wg := x.wg - 1)
    case StopReceiver => x.(receiver := ExitHelo)
    case ReceiveHelo => x.(receiver := GotHelo, heardHelo := true)
    case ReceiveOkay => x.(receiver := GotOkay, heardOkay := true)
    case ReceiveBad => x.(receiver := GotBad)
    case ReadFails => x.(receiver := GotNoAddress, readFailed := true)
    case ReadFailsWithAddress => x.(receiver := GotBad)
    case UseNoAddress => x.(crashed := true)
    case ReplyOkay => x.(receiver := Replied)
    case MarkHelo => x.(receiver := Listening, helo := true, wg := if x.helo then x.wg else x.wg - 1)
    case CancelSender => x.(receiver := CancelledSender, cancelled := true)
    case MarkOkay => x.(receiver := Listening, okay := true, wg := if x.okay then x.wg else x.wg - 1)
    case Abort => x.(receiver := ExitHelo, fail := true, cancelled := true)
    case DeferHelo => x.(receiver := ExitOkay, wg := if x.helo then x.wg else x.wg - 1)
    case DeferOkay => x.(receiver := ReceiverStopped, wg := if x.okay then x.wg else x.wg - 1)
    case WaitOver => x.(caller := Closing)
    case CallerCloses => if x.recvDone then x.(crashed := true) else x.(caller := Checking, recvDone := true)
    case CallerChecks => x.(caller := if x.fail then Failed else Succeeded)
  }

  function Next(s: State, p: nat, a: Action): State
    requires p < |s.peers| == 2
  {
    State(s.peers[p := PeerAfter(s.peers[p], a)],
          s.sent + (if a.SendHelo? then {Message(Helo, p)} else if a.ReplyOkay? then {Message(Okay, p)} else {}))
  }

  ghost predicate Reachable(steps: seq<(nat, Action)>, s: State)
    decreases |steps|
  {
    if steps == [] then s == INIT
    else
      var n := |steps| - 1;
      var (p, a) := steps[n];
      exists before: State :: Reachable(steps[..n], before) && p < |before.peers| == 2 && Enabled(before, p, a)
          && s == Next(before, p, a)
  }

  // ---------- invariant ----------

  /** The receiver still owes the WaitGroup a Done for the HELO, or for the OKAY. */
  predicate OwesHelo(x: Peer) {
    !x.receiver.NotStarted? && !x.helo && !x.receiver.ExitOkay? && !x.receiver.ReceiverStopped?
  }

  predicate OwesOkay(x: Peer) {
    !x.receiver.NotStarted? && !x.okay && !x.receiver.ReceiverStopped?
  }

  function Owed(x: Peer): nat {
    (if x.sender.SenderStopped? then 0 else 1) + (if OwesHelo(x) then 1 else 0) + (if OwesOkay(x) then 1 else 0)
  }

  predicate Exited(x: Peer) {
    x.receiver.ExitHelo? || x.receiver.ExitOkay? || x.receiver.ReceiverStopped?
  }

  predicate WaitPassed(x: Peer) {
    !x.caller.Launching? && !x.caller.Waiting?
  }

  predicate CallerClosed(x: Peer) {
    x.caller.Checking? || x.caller.Succeeded? || x.caller.Failed?
  }

  /** The counter equals the Dones still owed, and the caller gets past Wait only when none is. */
  predicate CounterOK(x: Peer) {
    x.wg == Owed(x) && StartOK(x) && (WaitPassed(x) ==> x.wg == 0)
  }

  predicate StartOK(x: Peer) {
    && (x.caller.Launching? <==> x.receiver.NotStarted?)
    && (x.receiver.NotStarted? ==> !x.helo && !x.okay)
  }

  predicate ClosingOK(x: Peer) {
    && (x.sender.Sending? || x.sender.Sleeping? ==> 1 <= x.sender.i <= MAX_TRIES)
    && (x.sender.ClosingDone? || x.sender.TimedOut? || x.sender.Sending? || x.sender.Sleeping? ==> !x.gaveUp)
    && (x.sender.ClosingDone? ==> x.fail)
    && (x.recvDone <==> x.gaveUp || CallerClosed(x))
    && !(x.gaveUp && CallerClosed(x))
    && (x.crashed ==> x.gaveUp || x.readFailed)
    && (x.readFailed <==> x.receiver.GotNoAddress?)
    && (x.gaveUp ==> x.fail)
    && (x.caller.Failed? ==> x.fail)
  }

  predicate ExitOK(x: Peer) {
    && (Exited(x) && !(x.helo && x.okay) ==> x.fail)
    && (x.caller.Succeeded? ==> x.helo && x.okay)
  }

  predicate FlagsOK(x: Peer) {
    && (x.receiver.GotHelo? || x.receiver.Replied? || x.helo ==> x.heardHelo)
    && (x.receiver.GotOkay? || x.receiver.CancelledSender? || x.okay ==> x.heardOkay)
  }

  predicate LocalOK(x: Peer) {
    CounterOK(x) && ClosingOK(x) && ExitOK(x) && FlagsOK(x)
  }

  predicate HeardOK(s: State, p: nat)
    requires p < |s.peers| == 2
  {
    && (s.peers[p].heardHelo ==> Message(Helo, Other(p)) in s.sent)
    && (s.peers[p].heardOkay ==> Message(Okay, Other(p)) in s.sent)
    && (Message(Okay, p) in s.sent ==> s.peers[p].heardHelo)
  }

  predicate PeerOK(s: State, p: nat)
    requires p < |s.peers| == 2
  {
    LocalOK(s.peers[p]) && HeardOK(s, p)
  }

  predicate Inv(s: State) {
    |s.peers| == 2 && PeerOK(s, 0) && PeerOK(s, 1)
  }

  lemma CounterKept(s: State, p: nat, a: Action)
    requires p < |s.peers| == 2 && CounterOK(s.peers[p]) && Enabled(s, p, a)
    ensures CounterOK(PeerAfter(s.peers[p], a))
  {
  }

  lemma ClosingKept(s: State, p: nat, a: Action)
    requires p < |s.peers| == 2 && LocalOK(s.peers[p]) && Enabled(s, p, a)
    ensures ClosingOK(PeerAfter(s.peers[p], a))
  {
  }

  lemma ExitKept(s: State, p: nat, a: Action)
    requires p < |s.peers| == 2 && LocalOK(s.peers[p]) && Enabled(s, p, a)
    ensures ExitOK(PeerAfter(s.peers[p], a))
  {
  }

  lemma FlagsKept(s: State, p: nat, a: Action)
    requires p < |s.peers| == 2 && LocalOK(s.peers[p]) && Enabled(s, p, a)
    ensures FlagsOK(PeerAfter(s.peers[p], a))
  {
  }

  lemma HeardKept(s: State, p: nat, a: Action, q: nat)
    requires p < |s.peers| == 2 && q < 2 && LocalOK(s.peers[p]) && HeardOK(s, q) && Enabled(s, p, a)
    ensures HeardOK(Next(s, p, a), q)
  {
  }

  lemma StepKeepsInv(s: State, p: nat, a: Action)
    requires Inv(s) && p < 2 && Enabled(s, p, a)
    ensures Inv(Next(s, p, a))
  {
    CounterKept(s, p, a);
    ClosingKept(s, p, a);
    ExitKept(s, p, a);
    FlagsKept(s, p, a);
    HeardKept(s, p, a, 0);
    HeardKept(s, p, a, 1);
  }

  lemma {:induction false} ReachableInv(steps: seq<(nat, Action)>, s: State)
    requires Reachable(steps, s)
    ensures Inv(s)
    decreases |steps|
  {
    if steps != [] {
      var n := |steps| - 1;
      var (p, a) := steps[n];
      var before: State :| Reachable(steps[..n], before) && p < |before.peers| == 2 && Enabled(before, p, a)
          && s == Next(before, p, a);
      ReachableInv(steps[..n], before);
      StepKeepsInv(before, p, a);
    }
  }

  // ---------- guarantees ----------

  ghost predicate CanReach(s: State) {
    exists steps :: Reachable(steps, s)
  }

  lemma CanReachInv(s: State)
    requires CanReach(s)
    ensures Inv(s)
  {
    var steps :| Reachable(steps, s);
    ReachableInv(steps, s);
  }

  /**
   A peer whose call returned success heard a HELO from the other, and the other heard a HELO from it,
   whatever the network lost, duplicated or reordered.
   */
  lemma SuccessMeansBothHeard(s: State, p: nat)
    requires CanReach(s) && p < 2 && |s.peers| == 2 && s.peers[p].caller.Succeeded?
    ensures s.peers[p].heardHelo && s.peers[Other(p)].heardHelo
    ensures Message(Helo, p) in s.sent && Message(Helo, Other(p)) in s.sent && Message(Okay, Other(p)) in s.sent
  {
    ReachedPeer(s, p);
    ReachedPeer(s, Other(p));
    SuccessHeard(s.peers[p]);
    HeardWasSent(s, p);
  }

  lemma ReachedPeer(s: State, p: nat)
    requires CanReach(s) && p < 2 && |s.peers| == 2
    ensures LocalOK(s.peers[p]) && HeardOK(s, p)
  {
    CanReachInv(s);
    assert PeerOK(s, p);
  }

  lemma SuccessHeard(x: Peer)
    requires LocalOK(x) && x.caller.Succeeded?
    ensures x.heardHelo && x.heardOkay
  {
  }

  /** What a peer heard was sent, and an OKAY was sent by a peer that had heard a HELO. */
  lemma HeardWasSent(s: State, p: nat)
    requires p < |s.peers| == 2 && HeardOK(s, p) && HeardOK(s, Other(p))
    requires s.peers[p].heardHelo && s.peers[p].heardOkay
    ensures Message(Helo, Other(p)) in s.sent && Message(Okay, Other(p)) in s.sent
    ensures s.peers[Other(p)].heardHelo && Message(Helo, p) in s.sent
  {
  }

  /** The WaitGroup counter is exactly the number of Done calls still to come, so it never goes below zero. */
  lemma WaitGroupCountsOwedDones(s: State, p: nat)
    requires CanReach(s) && p < 2 && |s.peers| == 2
    ensures s.peers[p].wg == Owed(s.peers[p]) >= 0
    ensures WaitPassed(s.peers[p]) ==> s.peers[p].wg == 0
  {
    CanReachInv(s);
    CounterFacts(s.peers[0]);
    CounterFacts(s.peers[1]);
  }

  lemma CounterFacts(x: Peer)
    requires LocalOK(x)
    ensures x.wg == Owed(x) >= 0 && (WaitPassed(x) ==> x.wg == 0)
  {
  }

  /** An OKAY is only ever sent in reply to a HELO that was itself sent. */
  lemma OkayAnswersHelo(s: State, p: nat)
    requires CanReach(s) && p < 2 && |s.peers| == 2 && Message(Okay, p) in s.sent
    ensures s.peers[p].heardHelo && Message(Helo, Other(p)) in s.sent
  {
    CanReachInv(s);
    assert PeerOK(s, p);
  }

  /** The process is down, or the call has returned and no failed read is still on its way to the panic. */
  predicate Finished(x: Peer) {
    x.crashed || ((x.caller.Succeeded? || x.caller.Failed?) && !x.receiver.GotNoAddress?)
  }

  /**
   A finished call panicked exactly when its sender gave up after the last try, so that recv_done is closed
   twice, or a read failed without an address while recv_done was open. Its timeout error is never returned.
   */
  lemma FinishedCallPanicsIff(s: State, p: nat)
    requires CanReach(s) && p < 2 && |s.peers| == 2 && Finished(s.peers[p])
    ensures s.peers[p].crashed <==> s.peers[p].gaveUp || s.peers[p].readFailed
    ensures !s.peers[p].crashed && s.peers[p].caller.Failed? ==> s.peers[p].fail
  {
    CanReachInv(s);
    assert PeerOK(s, p);
  }

  /** After such a read the panic is the receiver's only step, whatever else the peer does first. */
  lemma FailedReadIsFatal(s: State, p: nat, a: Action)
    requires CanReach(s) && p < 2 && |s.peers| == 2 && s.peers[p].readFailed && !s.peers[p].crashed
    ensures Enabled(s, p, UseNoAddress) && PeerAfter(s.peers[p], UseNoAddress).crashed
    ensures Enabled(s, p, a) ==>
              PeerAfter(s.peers[p], a).readFailed && PeerAfter(s.peers[p], a).receiver == s.peers[p].receiver
  {
    CanReachLocal(s, p);
    NoAddressStays(s, p, a);
  }

  lemma NoAddressStays(s: State, p: nat, a: Action)
    requires p < |s.peers| == 2 && LocalOK(s.peers[p]) && s.peers[p].readFailed && !s.peers[p].crashed
    ensures Enabled(s, p, UseNoAddress)
    ensures Enabled(s, p, a) ==>
              PeerAfter(s.peers[p], a).readFailed && PeerAfter(s.peers[p], a).receiver == s.peers[p].receiver
  {
  }

  lemma CanReachLocal(s: State, p: nat)
    requires CanReach(s) && p < 2
    ensures |s.peers| == 2 && LocalOK(s.peers[p])
  {
    CanReachInv(s);
    assert PeerOK(s, p);
  }

  // ---------- both panics happen ----------

  lemma Extend(s: State, p: nat, a: Action)
    requires CanReach(s) && p < |s.peers| == 2 && Enabled(s, p, a)
    ensures CanReach(Next(s, p, a))
  {
    var steps :| Reachable(steps, s);
    var steps' := steps + [(p, a)];
    assert steps'[..|steps|] == steps;
    assert Reachable(steps', Next(s, p, a));
  }

  /** Peer 0 acts, sending nothing, while peer 1 stays as it is. */
  lemma Acts(x: Peer, y: Peer, sent: set<Message>, a: Action)
    requires CanReach(State([x, y], sent)) && Enabled(State([x, y], sent), 0, a) && !a.SendHelo? && !a.ReplyOkay?
    ensures CanReach(State([PeerAfter(x, a), y], sent))
  {
    var s := State([x, y], sent);
    Extend(s, 0, a);
    assert Next(s, 0, a) == State([PeerAfter(x, a), y], sent);
  }

  /** A launched peer. */
  const LAUNCHED := START.(receiver := Listening, caller := Waiting, wg := 3)

  const HELO_SENT := {Message(Helo, 0)}

  lemma {:induction false} TriesReachable(i: nat)
    requires 1 <= i <= MAX_TRIES
    ensures CanReach(State([LAUNCHED.(sender := Sleeping(i)), START], HELO_SENT))
  {
    var x := LAUNCHED.(sender := Sending(i));
    if i == 1 {
      assert Reachable([], INIT);
      Acts(START, START, {}, Launch);
      Sends(x, START, {});
    } else {
      TriesReachable(i - 1);
      Acts(LAUNCHED.(sender := Sleeping(i - 1)), START, HELO_SENT, RetryTimer);
      Sends(x, START, HELO_SENT);
    }
    assert HELO_SENT + HELO_SENT == HELO_SENT && {} + HELO_SENT == HELO_SENT;
  }

  lemma Sends(x: Peer, y: Peer, sent: set<Message>)
    requires CanReach(State([x, y], sent)) && x.sender.Sending? && !x.crashed
    ensures CanReach(State([x.(sender := Sleeping(x.sender.i)), y], sent + HELO_SENT))
  {
    var s := State([x, y], sent);
    Extend(s, 0, SendHelo);
    assert Next(s, 0, SendHelo) == State([x.(sender := Sleeping(x.sender.i)), y], sent + HELO_SENT);
  }

  /** A peer whose sender has closed recv_done and stopped. */
  const GAVE_UP := LAUNCHED.(sender := SenderStopped, wg := 2, fail := true, recvDone := true, gaveUp := true)

  lemma GiveUpReachable()
    ensures CanReach(State([GAVE_UP, START], HELO_SENT))
  {
    TriesReachable(MAX_TRIES);
    var a := LAUNCHED.(sender := Sleeping(MAX_TRIES));
    Acts(a, START, HELO_SENT, RetryTimer);
    Acts(a.(sender := TimedOut), START, HELO_SENT, SetTimeout);
    var b := a.(sender := ClosingDone, fail := true);
    Acts(b, START, HELO_SENT, CloseRecvDone);
    Acts(b.(sender := SenderReturning, recvDone := true, gaveUp := true), START, HELO_SENT, SenderDone);
  }

  /** Sixty unanswered HELOs: the call panics where it means to return its timeout error. */
  lemma TimeoutPanics() returns (s: State)
    ensures CanReach(s) && |s.peers| == 2 && s.peers[0].crashed && s.peers[0].gaveUp && !s.peers[0].readFailed
  {
    GiveUpReachable();
    var d := GAVE_UP;
    Acts(d, START, HELO_SENT, StopReceiver);
    Acts(d.(receiver := ExitHelo), START, HELO_SENT, DeferHelo);
    Acts(d.(receiver := ExitOkay, wg := 1), START, HELO_SENT, DeferOkay);
    var e := d.(receiver := ReceiverStopped, wg := 0);
    Acts(e, START, HELO_SENT, WaitOver);
    Acts(e.(caller := Closing), START, HELO_SENT, CallerCloses);
    s := State([e.(caller := Closing, crashed := true), START], HELO_SENT);
  }

  const BOTH_SENT := {Message(Helo, 0), Message(Helo, 1), Message(Okay, 1)}

  /** A peer that has said HELO and has answered the HELO it received. */
  const REPLIED := LAUNCHED.(sender := Sleeping(1), receiver := Replied, heardHelo := true)

  lemma BothTrying()
    ensures CanReach(State([LAUNCHED.(sender := Sleeping(1)), LAUNCHED.(sender := Sleeping(1))],
            BOTH_SENT - {Message(Okay, 1)}))
  {
    var x := LAUNCHED.(sender := Sleeping(1));
    TriesReachable(1);
    ActsToo(x, START, HELO_SENT, Launch);
    assert HELO_SENT + {} == HELO_SENT;
    ActsToo(x, LAUNCHED, HELO_SENT, SendHelo);
    assert HELO_SENT + {Message(Helo, 1)} == BOTH_SENT - {Message(Okay, 1)};
  }

  lemma OkayReachable()
    ensures CanReach(State([LAUNCHED.(sender := Sleeping(1)), REPLIED], BOTH_SENT))
  {
    var x, helos := LAUNCHED.(sender := Sleeping(1)), BOTH_SENT - {Message(Okay, 1)};
    BothTrying();
    ActsToo(x, x, helos, ReceiveHelo);
    assert helos + {} == helos;
    ActsToo(x, x.(receiver := GotHelo, heardHelo := true), helos, ReplyOkay);
    assert helos + {Message(Okay, 1)} == BOTH_SENT;
  }

  /** What an action of peer 1 sends. */
  function SentBy(a: Action): set<Message> {
    if a.SendHelo? then {Message(Helo, 1)} else if a.ReplyOkay? then {Message(Okay, 1)} else {}
  }

  /** Peer 1 acts while peer 0 stays as it is. */
  lemma ActsToo(x: Peer, y: Peer, sent: set<Message>, a: Action)
    requires CanReach(State([x, y], sent)) && Enabled(State([x, y], sent), 1, a)
    ensures CanReach(State([x, PeerAfter(y, a)], sent + SentBy(a)))
  {
    var s := State([x, y], sent);
    Extend(s, 1, a);
    assert Next(s, 1, a) == State([x, PeerAfter(y, a)], sent + SentBy(a));
  }

  /**
   An OKAY stops the sender; when every HELO of the other peer is then lost until the read deadline passes, the
   read fails without an address and the call panics, though its sender did not give up.
   */
  lemma SilenceAfterOkayPanics() returns (s: State)
    ensures CanReach(s) && |s.peers| == 2 && s.peers[0].crashed && s.peers[0].readFailed && !s.peers[0].gaveUp
    ensures s.peers[0].okay && s.peers[0].sender.SenderStopped? && Message(Helo, 1) in s.sent && !s.peers[0].heardHelo
  {
    OkayStopsSender();
    Acts(OKAYED, REPLIED, BOTH_SENT, ReadFails);
    Acts(OKAYED.(receiver := GotNoAddress, readFailed := true), REPLIED, BOTH_SENT, UseNoAddress);
    s := State([OKAYED.(receiver := GotNoAddress, crashed := true, readFailed := true), REPLIED], BOTH_SENT);
  }

  /** A peer whose sender an OKAY has stopped; it has received nothing else. */
  const OKAYED := LAUNCHED.(sender := SenderStopped, wg := 1, okay := true, heardOkay := true, cancelled := true)

  lemma OkayStopsSender()
    ensures CanReach(State([OKAYED, REPLIED], BOTH_SENT))
  {
    OkayReachable();
    var a := LAUNCHED.(sender := Sleeping(1));
    Acts(a, REPLIED, BOTH_SENT, ReceiveOkay);
    Acts(a.(receiver := GotOkay, heardOkay := true), REPLIED, BOTH_SENT, CancelSender);
    var b := a.(receiver := CancelledSender, heardOkay := true, cancelled := true);
    Acts(b, REPLIED, BOTH_SENT, MarkOkay);
    var c := b.(receiver := Listening, okay := true, wg := 2);
    Acts(c, REPLIED, BOTH_SENT, Cancelled);
    Acts(c.(sender := SenderReturning), REPLIED, BOTH_SENT, SenderDone);
  }

  // ---------- stopping, and success ----------

  /** The receiver does not stop without telling the sender: it has cancelled it, or recv_done is closed. */
  predicate StopsTogether(x: Peer) {
    && (Exited(x) ==> x.cancelled || x.recvDone)
    && (x.recvDone ==> x.sender.SenderReturning? || x.sender.SenderStopped?)
  }

  lemma StopsTogetherKept(s: State, p: nat, a: Action)
    requires p < |s.peers| == 2 && LocalOK(s.peers[p]) && StopsTogether(s.peers[p]) && Enabled(s, p, a)
    ensures StopsTogether(PeerAfter(s.peers[p], a))
  {
  }

  lemma {:induction false} ReachableStopsTogether(steps: seq<(nat, Action)>, s: State)
    requires Reachable(steps, s)
    ensures |s.peers| == 2 && StopsTogether(s.peers[0]) && StopsTogether(s.peers[1])
    decreases |steps|
  {
    if steps != [] {
      var n := |steps| - 1;
      var (p, a) := steps[n];
      var before: State :| Reachable(steps[..n], before) && p < |before.peers| == 2 && Enabled(before, p, a)
          && s == Next(before, p, a);
      ReachableInv(steps[..n], before);
      ReachableStopsTogether(steps[..n], before);
      BothStopTogether(before, p, a);
    }
  }

  lemma BothStopTogether(s: State, p: nat, a: Action)
    requires Inv(s) && p < 2 && Enabled(s, p, a) && StopsTogether(s.peers[0]) && StopsTogether(s.peers[1])
    ensures StopsTogether(Next(s, p, a).peers[0]) && StopsTogether(Next(s, p, a).peers[1])
  {
    assert PeerOK(s, p);
    StopsTogetherKept(s, p, a);
  }

  /** Once the receiver has stopped, a sleeping sender can be cancelled at once: it need not try sixty times. */
  lemma StoppedReceiverFreesSender(s: State, p: nat)
    requires CanReach(s) && p < 2 && |s.peers| == 2 && Exited(s.peers[p]) && !s.peers[p].crashed
    requires s.peers[p].sender.Sleeping?
    ensures s.peers[p].cancelled && Enabled(s, p, Cancelled) && PeerAfter(s.peers[p], Cancelled).sender.SenderReturning?
  {
    var steps :| Reachable(steps, s);
    ReachableStopsTogether(steps, s);
  }

  const HEARD := LAUNCHED.(sender := Sleeping(1), helo := true, heardHelo := true, wg := 2)

  const DONE := HEARD.(sender := SenderStopped, receiver := Listening, okay := true, heardOkay := true,
      cancelled := true, caller := Succeeded, recvDone := true, wg := 0)

  function Sent(p: nat, a: Action): set<Message> {
    if a.SendHelo? then {Message(Helo, p)} else if a.ReplyOkay? then {Message(Okay, p)} else {}
  }

  /** One peer acts while the other stays as it is. */
  lemma Step(s: State, p: nat, a: Action) returns (s': State)
    requires CanReach(s) && p < |s.peers| == 2 && Enabled(s, p, a)
    ensures CanReach(s') && s' == State(s.peers[p := PeerAfter(s.peers[p], a)], s.sent + Sent(p, a))
  {
    Extend(s, p, a);
    s' := Next(s, p, a);
  }

  /** The state with peer p replaced. */
  function With(s: State, p: nat, x: Peer): State
    requires p < |s.peers| == 2
  {
    State(s.peers[p := x], s.sent)
  }

  lemma Quietly(s: State, p: nat, x: Peer, a: Action)
    requires p < |s.peers| == 2 && CanReach(With(s, p, x)) && Enabled(With(s, p, x), p, a)
    requires !a.SendHelo? && !a.ReplyOkay?
    ensures CanReach(With(s, p, PeerAfter(x, a)))
  {
    var s' := Step(With(s, p, x), p, a);
    assert s' == With(s, p, PeerAfter(x, a));
  }

  /** A peer hears the other's HELO and answers it. */
  lemma HearsHelo(s: State, p: nat) returns (s': State)
    requires CanReach(s) && p < |s.peers| == 2 && s.peers[p] == LAUNCHED.(sender := Sleeping(1))
    requires Message(Helo, Other(p)) in s.sent
    ensures CanReach(s') && s' == State(s.peers[p := HEARD], s.sent + {Message(Okay, p)})
  {
    s' := Step(s, p, ReceiveHelo);
    s' := Step(s', p, ReplyOkay);
    s' := Step(s', p, MarkHelo);
    assert s.sent + {} + {Message(Okay, p)} + {} == s.sent + {Message(Okay, p)};
  }

  const ANSWERED := HEARD.(receiver := Listening, okay := true, heardOkay := true, cancelled := true, wg := 1)

  /** A peer that hears an OKAY as well stops its sender and returns success. */
  lemma HearsOkay(s: State, p: nat) returns (s': State)
    requires CanReach(s) && p < |s.peers| == 2 && s.peers[p] == HEARD && Message(Okay, Other(p)) in s.sent
    ensures CanReach(s') && s' == State(s.peers[p := DONE], s.sent)
  {
    s' := With(s, p, DONE);
    assert s == With(s, p, HEARD);
    Quietly(s, p, HEARD, ReceiveOkay);
    Quietly(s, p, HEARD.(receiver := GotOkay, heardOkay := true), CancelSender);
    Quietly(s, p, HEARD.(receiver := CancelledSender, heardOkay := true, cancelled := true), MarkOkay);
    Finishes(s, p);
  }

  /** With both flags set, the cancelled sender's return lets the caller through. */
  lemma Finishes(s: State, p: nat)
    requires p < |s.peers| == 2 && CanReach(With(s, p, ANSWERED))
    ensures CanReach(With(s, p, DONE))
  {
    var x := ANSWERED;
    Quietly(s, p, x, Cancelled);
    Quietly(s, p, x.(sender := SenderReturning), SenderDone);
    var y := x.(sender := SenderStopped, wg := 0);
    Quietly(s, p, y, WaitOver);
    Quietly(s, p, y.(caller := Closing), CallerCloses);
    Quietly(s, p, y.(caller := Checking, recvDone := true), CallerChecks);
  }

  /** Two HELOs and two OKAYs that arrive let both calls return success. */
  lemma BothCanSucceed() returns (s: State)
    ensures CanReach(s) && |s.peers| == 2 && s.peers[0].caller.Succeeded? && s.peers[1].caller.Succeeded?
    ensures !s.peers[0].crashed && !s.peers[1].crashed
    ensures s.sent == {Message(Helo, 0), Message(Helo, 1), Message(Okay, 0), Message(Okay, 1)}
  {
    s := BothHeard();
    s := HearsOkay(s, 0);
    assert s.peers == [DONE, HEARD];
    s := HearsOkay(s, 1);
    assert s.peers == [DONE, DONE];
  }

  lemma BothHeard() returns (s: State)
    ensures CanReach(s) && s.peers == [HEARD, HEARD]
    ensures s.sent == {Message(Helo, 0), Message(Helo, 1), Message(Okay, 0), Message(Okay, 1)}
  {
    BothTrying();
    var x := LAUNCHED.(sender := Sleeping(1));
    s := State([x, x], BOTH_SENT - {Message(Okay, 1)});
    s := HearsHelo(s, 0);
    assert s.peers == [HEARD, x];
    s := HearsHelo(s, 1);
    assert s.peers == [HEARD, HEARD];
  }
}
