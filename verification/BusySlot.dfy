/** The pipeline's busy slot: enqueuers publish and then try to acquire it, exclusive jobs
    (custom chunks, deletes) hold it and exit with a handoff, processing runs drain the
    mailbox. Every action below is one critical section; any interleaving is allowed. */
module BusySlot {
  import opened KgModel

  type Token = nat

  /** What waits in the ingress mailbox. */
  datatype Mail = Mail(documents: set<DocId>, rescan: bool, retries: seq<nat>)

  predicate HasWork(m: Mail) {
    m.documents != {} || m.rescan || m.retries != []
  }

  const EMPTY := Mail({}, false, [])

  /** `Leaving` is between the exit decision and the backstop release. */
  datatype Phase = Published | Holding | Running(backstop: bool) | Leaving | Gone

  datatype Board = Board(owner: Option<Token>, mailbox: Mail)

  /** `published` and `requested` are what went into the mailbox, `taken` and `served` what runs
      have dealt with. */
  datatype World = World(board: Board, tasks: map<Token, Phase>, published: set<DocId>, taken: set<DocId>,
                         requested: seq<nat>, served: seq<nat>)

  // ----- critical sections on the board -----

  /** An exclusive job takes a free slot or is turned away. */
  function Reserved(b: Board, token: Token): Board {
    if b.owner.None? then b.(owner := Some(token)) else b
  }

  /** A processing run takes a free slot; refused, it arms the rescan flag for the holder. */
  function ProcessingReserved(b: Board, token: Token): Board {
    if b.owner.None? then b.(owner := Some(token)) else b.(mailbox := b.mailbox.(rescan := true))
  }

  datatype ExitDecision = NotOwner | Handoff | Released

  /** The exit decision of an exclusive job. A probe that fails counts as work. */
  function ExitDecided(b: Board, token: Token, probeFails: bool): ExitDecision {
    if b.owner != Some(token) then NotOwner
    else if probeFails || HasWork(b.mailbox) then Handoff
    else Released
  }

  function Exited(b: Board, token: Token, probeFails: bool): Board {
    if ExitDecided(b, token, probeFails).Released? then b.(owner := None) else b
  }

  /** Owner-checked release, whatever the mailbox holds. */
  function TerminallyReleased(b: Board, token: Token): Board {
    if b.owner == Some(token) then b.(owner := None) else b
  }

  /** A run's last decision: release only while the mailbox is empty. */
  function Decided(b: Board, token: Token): Board {
    if b.owner == Some(token) && !HasWork(b.mailbox) then b.(owner := None) else b
  }

  // ----- interleavings -----

  datatype Action =
    | Publish(token: Token, documents: set<DocId>)
    | RequestRetry(token: Token, request: nat)
    | TryProcess(token: Token)
    | StartJob(token: Token)
    | ExitJob(token: Token, probeFails: bool)
    | Backstop(token: Token)
    | AbsorbRescan(token: Token)
    | TakeDocuments(token: Token)
    | ServeRetry(token: Token)
    | DecideNext(token: Token)
    | RunRaises(token: Token)

  predicate In(w: World, token: Token, phase: Phase) {
    token in w.tasks && w.tasks[token] == phase
  }

  predicate IsRunning(w: World, token: Token) {
    token in w.tasks && w.tasks[token].Running?
  }

  predicate Enabled(w: World, a: Action) {
    match a
    case Publish(token, documents) => token !in w.tasks
    case RequestRetry(token, _) => token !in w.tasks
    case TryProcess(token) => In(w, token, Published)
    case StartJob(token) => token !in w.tasks
    case ExitJob(token, _) => In(w, token, Holding)
    case Backstop(token) => In(w, token, Leaving)
    case AbsorbRescan(token) => IsRunning(w, token)
    case TakeDocuments(token) => IsRunning(w, token)
    case ServeRetry(token) => IsRunning(w, token) && w.board.mailbox.retries != []
    case DecideNext(token) => IsRunning(w, token)
    case RunRaises(token) => IsRunning(w, token)
  }

  /** A run that was handed the slot returns to a caller whose backstop release is still to come. */
  function AfterRun(phase: Phase): Phase {
    if phase == Running(true) then Leaving else Gone
  }

  function Step(w: World, a: Action): World
    requires Enabled(w, a)
  {
    var b := w.board;
    match a
    case Publish(token, documents) =>
      w.(board := b.(mailbox := b.mailbox.(documents := b.mailbox.documents + documents)),
         tasks := w.tasks[token := Published], published := w.published + documents)
    case RequestRetry(token, request) =>
      w.(board := b.(mailbox := b.mailbox.(retries := b.mailbox.retries + [request])),
         tasks := w.tasks[token := Published], requested := w.requested + [request])
    case TryProcess(token) =>
      w.(board := ProcessingReserved(b, token),
         tasks := w.tasks[token := if b.owner.None? then Running(false) else Gone])
    case StartJob(token) =>
      w.(board := Reserved(b, token), tasks := w.tasks[token := if b.owner.None? then Holding else Gone])
    case ExitJob(token, probeFails) =>
      w.(board := Exited(b, token, probeFails),
         tasks := w.tasks[token := if ExitDecided(b, token, probeFails).Handoff? then Running(true) else Leaving])
    case Backstop(token) =>
      w.(board := TerminallyReleased(b, token), tasks := w.tasks[token := Gone])
    case AbsorbRescan(token) =>
      w.(board := b.(mailbox := b.mailbox.(rescan := false)))
    case TakeDocuments(token) =>
      w.(board := b.(mailbox := b.mailbox.(documents := {})), taken := w.taken + b.mailbox.documents)
    case ServeRetry(token) =>
      w.(board := b.(mailbox := b.mailbox.(retries := b.mailbox.retries[1..])),
         served := w.served + [b.mailbox.retries[0]])
    case DecideNext(token) =>
      w.(board := Decided(b, token),
         tasks := if HasWork(b.mailbox) then w.tasks else w.tasks[token := AfterRun(w.tasks[token])])
    case RunRaises(token) =>
      // The run releases the slot as it goes, handed off or not; a caller's backstop comes later.
      w.(board := TerminallyReleased(b, token), tasks := w.tasks[token := AfterRun(w.tasks[token])])
  }

  // ----- the invariant -----

  predicate Owns(phase: Phase) {
    phase.Holding? || phase.Running?
  }

  /** Someone has published and not yet tried to acquire. */
  ghost predicate SomeonePublished(w: World) {
    exists token :: In(w, token, Published)
  }

  /** Whoever works in the slot owns it. */
  ghost predicate OwnersAgree(w: World) {
    forall token :: token in w.tasks && Owns(w.tasks[token]) ==> w.board.owner == Some(token)
  }

  /** A taken slot is held by a task that still works in it. */
  ghost predicate NeverWedged(w: World) {
    w.board.owner.Some? ==>
      w.board.owner.value in w.tasks && Owns(w.tasks[w.board.owner.value])
  }

  ghost predicate NoLostWakeup(w: World) {
    HasWork(w.board.mailbox) && w.board.owner.None? ==> SomeonePublished(w)
  }

  /** Nothing that was put into the mailbox is lost, and retries are served in their order. */
  ghost predicate Conserved(w: World) {
    && w.published == w.board.mailbox.documents + w.taken
    && w.requested == w.served + w.board.mailbox.retries
  }

  ghost predicate Inv(w: World) {
    && OwnersAgree(w) && NeverWedged(w) && NoLostWakeup(w) && Conserved(w)
    && (forall token: Token :: In(w, token, Leaving) ==> w.board.owner != Some(token))
  }

  /** If the slot were given up now, nothing would be left waiting for nobody. */
  ghost predicate SafeToGiveUp(w: World) {
    !HasWork(w.board.mailbox) || SomeonePublished(w)
  }

  lemma StepKeepsInv(w: World, a: Action)
    requires Inv(w) && Enabled(w, a)
    requires a.RunRaises? ==> SafeToGiveUp(w)
    ensures Inv(Step(w, a))
  {
    var next := Step(w, a);
    assert a.Publish? || a.RequestRetry? ==> In(next, a.token, Published);
    if !a.TryProcess? && SomeonePublished(w) {
      var token :| In(w, token, Published);
      assert In(next, token, Published);
    }
  }

  ghost predicate Legal(w: World, trace: seq<Action>)
    decreases trace
  {
    trace == [] || (Enabled(w, trace[0]) && Legal(Step(w, trace[0]), trace[1..]))
  }

  ghost function Replay(w: World, trace: seq<Action>): World
    requires Legal(w, trace)
    decreases trace
  {
    if trace == [] then w else Replay(Step(w, trace[0]), trace[1..])
  }

  function Opening(): World {
    World(Board(None, EMPTY), map[], {}, {}, [], [])
  }

  /** Every run that raises does so when nothing waits, or when an enqueuer is on its way. */
  ghost predicate RaisesSafely(w: World, trace: seq<Action>)
    requires Legal(w, trace)
    decreases trace
  {
    trace != [] ==> (trace[0].RunRaises? ==> SafeToGiveUp(w)) && RaisesSafely(Step(w, trace[0]), trace[1..])
  }

  lemma {:induction false} TraceKeepsInv(w: World, trace: seq<Action>)
    requires Inv(w) && Legal(w, trace) && RaisesSafely(w, trace)
    ensures Inv(Replay(w, trace))
    decreases trace
  {
    if trace != [] {
      StepKeepsInv(w, trace[0]);
      TraceKeepsInv(Step(w, trace[0]), trace[1..]);
    }
  }

  /** Every interleaving: work with a free slot implies an enqueuer that is about to try, at
      most one task works in the slot, and once everyone is gone nothing is left behind: the
      slot is free, the mailbox empty and every published document taken over by a run. */
  lemma NoInterleavingLosesWork(trace: seq<Action>)
    requires Legal(Opening(), trace) && RaisesSafely(Opening(), trace)
    ensures var w := Replay(Opening(), trace);
      && (HasWork(w.board.mailbox) && w.board.owner.None? ==> SomeonePublished(w))
      && (forall t, u :: t in w.tasks && u in w.tasks && Owns(w.tasks[t]) && Owns(w.tasks[u]) ==> t == u)
      && ((forall t :: t in w.tasks ==> w.tasks[t].Gone?) ==>
            w.board == Board(None, EMPTY) && w.published == w.taken && w.requested == w.served)
  {
    assert Inv(Opening());
    TraceKeepsInv(Opening(), trace);
    var w := Replay(Opening(), trace);
    if forall t :: t in w.tasks ==> w.tasks[t].Gone? {
      assert w.board.owner.None? && !SomeonePublished(w);
    }
  }

  /** A release by a token that no longer owns the slot changes nothing on the board. */
  lemma StaleReleaseIsANoOp(w: World, token: Token)
    requires Inv(w) && Enabled(w, Backstop(token))
    ensures Step(w, Backstop(token)).board == w.board
    ensures forall holder :: holder in w.tasks && Owns(w.tasks[holder]) ==>
      Step(w, Backstop(token)).board.owner == Some(holder) && Step(w, Backstop(token)).tasks[holder] == w.tasks[holder]
  {
  }

  // ----- when a run raises -----

  /** Of its own or handed off, a run that raises leaves the slot free, and the wake-up is lost
      exactly when the mailbox has work that no published enqueuer is about to pick up. */
  lemma RaisedRunLosesWakeupIff(w: World, token: Token)
    requires Inv(w) && IsRunning(w, token)
    ensures var raised := Step(w, RunRaises(token));
      && raised.board == Board(None, w.board.mailbox)
      && (Inv(raised) <==> SafeToGiveUp(w)) && (NoLostWakeup(raised) <==> SafeToGiveUp(w))
  {
    var raised := Step(w, RunRaises(token));
    if SomeonePublished(w) {
      var other :| In(w, other, Published);
      assert In(raised, other, Published);
    }
    if SomeonePublished(raised) {
      var other :| In(raised, other, Published);
      assert In(w, other, Published);
    }
    if SafeToGiveUp(w) {
      StepKeepsInv(w, RunRaises(token));
    }
  }

  /** Two such runs from the start. In the first a document is published and the run its
      enqueuer starts raises at once. In the second a job holds the slot, the enqueuer is
      refused, the job hands off, and that run raises. */
  lemma RaisedRunStrandsADocument()
    ensures exists trace ::
      Legal(Opening(), trace) && !NoLostWakeup(Replay(Opening(), trace)) && StartJob(0) !in trace
    ensures exists trace ::
      Legal(Opening(), trace) && !NoLostWakeup(Replay(Opening(), trace)) && ExitJob(0, false) in trace
  {
    OwnRunRaises();
    HandedOffRunRaises();
  }

  lemma OwnRunRaises()
    ensures var trace := [Publish(1, {7})] + ([TryProcess(1)] + [RunRaises(1)]);
      Legal(Opening(), trace) && !NoLostWakeup(Replay(Opening(), trace)) && StartJob(0) !in trace
  {
    var w1 := Step(Opening(), Publish(1, {7}));
    var w2 := Step(w1, TryProcess(1));
    var w3 := Step(w2, RunRaises(1));
    assert 7 in w3.board.mailbox.documents && w3.board.owner.None?;
    assert w3.tasks == map[1 := Gone] && !SomeonePublished(w3);
    Prepend(w2, RunRaises(1), []);
    assert [RunRaises(1)] + [] == [RunRaises(1)];
    Prepend(w1, TryProcess(1), [RunRaises(1)]);
    Prepend(Opening(), Publish(1, {7}), [TryProcess(1)] + [RunRaises(1)]);
  }

  lemma HandedOffRunRaises()
    ensures var trace := [StartJob(0)] + ([Publish(1, {7})] + ([TryProcess(1)] + ([ExitJob(0, false)] + [RunRaises(0)])));
      Legal(Opening(), trace) && !NoLostWakeup(Replay(Opening(), trace)) && ExitJob(0, false) in trace
  {
    var w1 := Step(Opening(), StartJob(0));
    var w2 := Step(w1, Publish(1, {7}));
    var w3 := Step(w2, TryProcess(1));
    var w4 := Step(w3, ExitJob(0, false));
    var w5 := Step(w4, RunRaises(0));
    assert 7 in w5.board.mailbox.documents && w5.board.owner.None?;
    assert w5.tasks == map[0 := Leaving, 1 := Gone] && !SomeonePublished(w5);
    Prepend(w4, RunRaises(0), []);
    assert [RunRaises(0)] + [] == [RunRaises(0)];
    Prepend(w3, ExitJob(0, false), [RunRaises(0)]);
    var tail := [ExitJob(0, false)] + [RunRaises(0)];
    Prepend(w2, TryProcess(1), tail);
    Prepend(w1, Publish(1, {7}), [TryProcess(1)] + tail);
    Prepend(Opening(), StartJob(0), [Publish(1, {7})] + ([TryProcess(1)] + tail));
  }

  lemma Prepend(w: World, a: Action, rest: seq<Action>)
    requires Enabled(w, a) && Legal(Step(w, a), rest)
    ensures Legal(w, [a] + rest) && Replay(w, [a] + rest) == Replay(Step(w, a), rest)
  {
    assert ([a] + rest)[1..] == rest;
  }

  // ----- the critical sections as the program writes them -----

  class PipelineStatus {
    var busy: bool
    var busyOwner: Option<Token>
    var mailbox: Mail

    ghost predicate Valid()
      reads this
    {
      busy <==> busyOwner.Some?
    }

    ghost function State(): Board
      reads this
    {
      Board(busyOwner, mailbox)
    }

    constructor ()
      ensures Valid() && State() == Board(None, EMPTY)
    {
      busy, busyOwner, mailbox := false, None, EMPTY;
    }

    method AcquireReservation(token: Token) returns (acquired: bool)
      requires Valid()
      modifies this
      ensures Valid() && acquired == old(busyOwner.None?)
      ensures State() == Reserved(old(State()), token)
      ensures mailbox == old(mailbox) && busyOwner == if acquired then Some(token) else old(busyOwner)
    {
      if busy { return false; }
      busy, busyOwner := true, Some(token);
      return true;
    }

    /** The refusal and the rescan arm share one critical section. */
    method AcquireProcessing(token: Token, alreadyHeld: bool) returns (acquired: bool)
      requires Valid() && (alreadyHeld ==> busyOwner == Some(token))
      modifies this
      ensures Valid() && acquired == (alreadyHeld || old(busyOwner.None?))
      ensures State() == if alreadyHeld then old(State()) else ProcessingReserved(old(State()), token)
      ensures if acquired then busyOwner == Some(token) && mailbox == old(mailbox)
              else busyOwner == old(busyOwner) && mailbox == old(mailbox).(rescan := true)
    {
      if !alreadyHeld && busy {
        mailbox := mailbox.(rescan := true);
        return false;
      }
      busy, busyOwner := true, Some(token);
      return true;
    }

    /** The exit decision under the owner check; `probe` is absent when it failed. */
    method ExitAction(token: Token, probeFails: bool) returns (decision: ExitDecision)
      requires Valid()
      modifies this
      ensures Valid() && decision == ExitDecided(old(State()), token, probeFails)
      ensures State() == Exited(old(State()), token, probeFails)
      ensures decision.NotOwner? <==> old(busyOwner) != Some(token)
      ensures decision.Released? <==> old(busyOwner) == Some(token) && !probeFails && !HasWork(mailbox)
      ensures mailbox == old(mailbox) && busyOwner == if decision.Released? then None else old(busyOwner)
    {
      if busyOwner != Some(token) { return NotOwner; }
      var work := probeFails;
      if !probeFails {
        work := mailbox.documents != {} || mailbox.rescan || |mailbox.retries| > 0;
      }
      if work { return Handoff; }
      busy, busyOwner := false, None;
      return Released;
    }

    method TerminalRelease(token: Token)
      requires Valid()
      modifies this
      ensures Valid() && State() == TerminallyReleased(old(State()), token)
      ensures mailbox == old(mailbox) && busyOwner == if old(busyOwner) == Some(token) then None else old(busyOwner)
    {
      if busyOwner == Some(token) {
        busy, busyOwner := false, None;
      }
    }

    method DecideNextStep(token: Token) returns (released: bool)
      requires Valid()
      modifies this
      ensures Valid() && State() == Decided(old(State()), token)
      ensures released <==> old(busyOwner) == Some(token) && !HasWork(old(mailbox))
    {
      released := false;
      if busyOwner == Some(token) && !HasWork(mailbox) {
        busy, busyOwner := false, None;
        released := true;
      }
    }

    /** The handed-off run: drain what is there, then re-check and release in one section. */
    method HandoffRun(token: Token) returns (taken: set<DocId>, served: seq<nat>)
      requires Valid() && busyOwner == Some(token)
      modifies this
      ensures Valid() && State() == Board(None, EMPTY)
      ensures taken == old(mailbox.documents) && served == old(mailbox.retries)
    {
      var acquired := AcquireProcessing(token, true);
      taken, served := mailbox.documents, [];
      mailbox := Mail({}, false, mailbox.retries);
      while |mailbox.retries| > 0
        invariant Valid() && busyOwner == Some(token)
        invariant mailbox.documents == {} && !mailbox.rescan
        invariant served + mailbox.retries == old(mailbox.retries)
        decreases |mailbox.retries|
      {
        served := served + [mailbox.retries[0]];
        mailbox := mailbox.(retries := mailbox.retries[1..]);
      }
      var released := DecideNextStep(token);
    }

    /** The whole exit of an exclusive job that still owns the slot, undisturbed: nothing is
        left in the mailbox and the slot is free. */
    method ExitWithHandoff(token: Token, probeFails: bool) returns (taken: set<DocId>, served: seq<nat>)
      requires Valid()
      modifies this
      ensures Valid()
      ensures old(busyOwner) == Some(token) ==>
        State() == Board(None, EMPTY) && taken == old(mailbox.documents) && served == old(mailbox.retries)
      ensures old(busyOwner) != Some(token) ==> State() == old(State())
    {
      taken, served := {}, [];
      var decision := ExitAction(token, probeFails);
      if decision == Handoff {
        taken, served := HandoffRun(token);
      }
      TerminalRelease(token);
    }
  }
}
