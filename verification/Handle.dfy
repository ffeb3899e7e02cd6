/** The handle submit returns: callback_info_t's finished_ counter, mutex and condition
    variable, next to the pipeline whose poller runs the callback and one thread that waits. */
module Handle {
  import opened Types
  import opened Split
  import opened Tokens
  import opened Pipeline
  import opened Frames
  import opened QpInvariant
  import opened SystemInvariant
  import opened Placement
  import opened Delivery
  import opened Safety

  // ----- RDMAAssignment -----

  class RDMAAssignment {
    const opcode: OpCode
    const batch: array<Assignment>
    const batchSize: nat

    /** The constructor's copy loop, with its counter. */
    constructor (opcode: OpCode, source: seq<Assignment>)
      ensures this.opcode == opcode && batchSize == |source| && fresh(batch) && batch[..] == source
    {
      this.opcode, batchSize := opcode, |source|;
      var copy := new Assignment[|source|](_ => Assignment("", 0, 0, 0));
      var cnt := 0;
      while cnt < |source|
        invariant 0 <= cnt <= |source| && copy[..cnt] == source[..cnt]
      {
        var a := source[cnt];
        copy[cnt] := Assignment(a.mrKey, a.targetOffset, a.sourceOffset, a.length);
        cnt := cnt + 1;
      }
      batch := copy;
    }
  }

  // ----- callback_info_t -----

  datatype LatchHolder = NoOne | ThePoller | TheWaiter

  /** Where the default callback stands: outside it, holding the mutex, after the fetch_add,
      after notify_one. */
  datatype CallPc = Outside | Entered | Counted | Notified

  /** Where the waiting thread stands: not in wait(), before the lock, holding the lock and about
      to test the predicate, in the condition variable, returned. */
  datatype WaitPc = Away | Arriving | Testing | Blocked | Back

  datatype Latch = Latch(mutex: LatchHolder, finished: nat, call: CallPc, waiter: WaitPc, signalled: bool)

  const NEW_LATCH: Latch := Latch(NoOne, 0, Outside, Away, false)

  /** query() */
  predicate Query(l: Latch) {
    l.finished > 0
  }

  /** The pipeline together with the latch of one submission's handle. */
  datatype World = World(s: System, l: Latch)

  datatype WorldStep = Pipe(step: Step) | Enter | CountUp | NotifyOne | LeaveCall
                     | BeginWait | TakeLock | TestFinished | WakeUp | WakeSpuriously

  /** The poller is about to run the callback of submission sid's handle. */
  predicate Calls(s: System, sid: nat) {
    IsReadAssignment(s.subs, sid, 0) && AtEntry(s) && s.ppc.wcs[0].wrId == Some(FinalToken(s.subs, sid))
  }

  /** That callback has run: the final chunk's completion has been processed. */
  predicate Processed(s: System, sid: nat) {
    && IsReadAssignment(s.subs, sid, 0) && s.subs[sid].q < |s.qps|
    && FinalToken(s.subs, sid) in FiredToks(s.qps[s.subs[sid].q].fired)
  }

  predicate WorldEnabled(cfg: Config, sid: nat, w: World, step: WorldStep) {
    match step
    case Pipe(p) =>
      && Enabled(cfg, w.s, p) && (OfPoller(p) ==> w.l.call == Outside) && !(p == Callback && Calls(w.s, sid))
    case Enter => w.l.call == Outside && Calls(w.s, sid) && Enabled(cfg, w.s, Callback) && w.l.mutex == NoOne
    case CountUp => w.l.call == Entered && Enabled(cfg, w.s, Callback)
    case NotifyOne => w.l.call == Counted
    case LeaveCall => w.l.call == Notified
    case BeginWait => w.l.waiter == Away
    case TakeLock => w.l.waiter == Arriving && w.l.mutex == NoOne
    case TestFinished => w.l.waiter == Testing
    case WakeUp => w.l.waiter == Blocked && w.l.signalled && w.l.mutex == NoOne
    case WakeSpuriously => w.l.waiter == Blocked && w.l.mutex == NoOne
  }

  function WorldDo(cfg: Config, sid: nat, w: World, step: WorldStep): World
    requires WorldEnabled(cfg, sid, w, step)
  {
    match step
    case Pipe(p) => w.(s := Do(cfg, w.s, p))
    case Enter => w.(l := w.l.(call := Entered, mutex := ThePoller))
    case CountUp => World(Do(cfg, w.s, Callback), w.l.(call := Counted, finished := w.l.finished + 1))
    case NotifyOne => w.(l := w.l.(call := Notified, signalled := w.l.signalled || w.l.waiter == Blocked))
    case LeaveCall => w.(l := w.l.(call := Outside, mutex := NoOne))
    case BeginWait => w.(l := w.l.(waiter := Arriving))
    case TakeLock => w.(l := w.l.(waiter := Testing, mutex := TheWaiter))
    case TestFinished =>
      if w.l.finished > 0 then w.(l := w.l.(waiter := Back, mutex := NoOne))
      else w.(l := w.l.(waiter := Blocked, mutex := NoOne, signalled := false))
    case WakeUp => w.(l := w.l.(waiter := Testing, mutex := TheWaiter, signalled := false))
    case WakeSpuriously => w.(l := w.l.(waiter := Testing, mutex := TheWaiter, signalled := false))
  }

  // ----- The pipeline side -----

  ghost predicate SameFired(s: System, r: System) {
    |r.qps| == |s.qps| && s.subs <= r.subs && forall q :: 0 <= q < |s.qps| ==> r.qps[q].fired == s.qps[q].fired
  }

  lemma OnlyCallbackFires(cfg: Config, s: System, step: Step)
    requires Enabled(cfg, s, step) && step != Callback && s.qps != []
    ensures SameFired(s, Do(cfg, s, step))
  {
    FiredKept(cfg, s, step, 0);
    forall q: nat | q < |s.qps|
      ensures Do(cfg, s, step).qps[q].fired == s.qps[q].fired
    {
      FiredKept(cfg, s, step, q);
    }
  }

  /** A submission's final token does not depend on later submissions. */
  lemma SameFinalToken(subs: seq<Submission>, more: seq<Submission>, sid: nat)
    requires subs <= more && IsReadAssignment(subs, sid, 0)
    ensures IsReadAssignment(more, sid, 0) && FinalToken(more, sid) == FinalToken(subs, sid) && more[sid] == subs[sid]
  {
  }

  lemma OthersProcess(cfg: Config, s: System, step: Step, sid: nat)
    requires Enabled(cfg, s, step) && IsReadAssignment(s.subs, sid, 0) && step != Callback && s.qps != []
    ensures IsReadAssignment(Do(cfg, s, step).subs, sid, 0)
    ensures Processed(Do(cfg, s, step), sid) <==> Processed(s, sid)
  {
    OnlyCallbackFires(cfg, s, step);
    SameFinalToken(s.subs, Do(cfg, s, step).subs, sid);
  }

  /** The Callback step adds one entry to the history of the token's queue pair. */
  lemma CallbackAdds(cfg: Config, s: System, q: nat)
    requires Enabled(cfg, s, Callback) && q < |s.qps|
    ensures var tok, r := s.ppc.wcs[0].wrId.value, Do(cfg, s, Callback);
      && |r.qps| == |s.qps| && r.subs == s.subs
      && FiredToks(r.qps[q].fired) == FiredToks(s.qps[q].fired) + if tok.qpi == q then [tok] else []
  {
    var tok, r := s.ppc.wcs[0].wrId.value, Do(cfg, s, Callback);
    assert FiredToks(s.qps[q].fired) + [] == FiredToks(s.qps[q].fired);
  }

  lemma OtherCallback(cfg: Config, s: System, sid: nat)
    requires Enabled(cfg, s, Callback) && IsReadAssignment(s.subs, sid, 0) && !Calls(s, sid)
    ensures Processed(Do(cfg, s, Callback), sid) <==> Processed(s, sid)
  {
    if s.subs[sid].q < |s.qps| {
      CallbackAdds(cfg, s, s.subs[sid].q);
    }
  }

  /** The handle's callback runs when the final chunk's completion is processed, and only once. */
  lemma OwnCallback(cfg: Config, s: System, sid: nat)
    requires Reachable(cfg, s) && Enabled(cfg, s, Callback) && Calls(s, sid)
    ensures !Processed(s, sid) && Processed(Do(cfg, s, Callback), sid)
  {
    var q, r := s.subs[sid].q, Do(cfg, s, Callback);
    StepReachable(cfg, s, Callback, r);
    ExactlyOnce(cfg, s, sid);
    CallbackAdds(cfg, s, q);
    AtMostOnce(cfg, r, sid, FiredToks(s.qps[q].fired));
  }

  lemma AtMostOnce(cfg: Config, r: System, sid: nat, before: seq<Token>)
    requires Reachable(cfg, r) && IsReadAssignment(r.subs, sid, 0) && r.subs[sid].q < |r.qps|
    requires FiredToks(r.qps[r.subs[sid].q].fired) == before + [FinalToken(r.subs, sid)]
    ensures FinalToken(r.subs, sid) !in before
  {
    ExactlyOnce(cfg, r, sid);
    OnceMeans(r.qps[r.subs[sid].q].fired, before, FinalToken(r.subs, sid));
  }

  lemma OnceMeans(fired: seq<Fired>, before: seq<Token>, t: Token)
    requires FiresAtMostOnce(fired, t) && FiredToks(fired) == before + [t]
    ensures t !in before
  {
    assert FiredToks(fired)[|before|] == t;
    forall n | 0 <= n < |before|
      ensures before[n] != t
    {
      assert FiredToks(fired)[n] == before[n];
    }
  }

  // ----- The invariant -----

  ghost predicate LatchInv(l: Latch) {
    && (l.mutex == ThePoller <==> l.call != Outside) && (l.mutex == TheWaiter <==> l.waiter == Testing)
    && l.finished <= 1 && (l.call == Counted || l.call == Notified ==> l.finished == 1)
    && (l.waiter == Back ==> l.finished == 1)
    && (l.waiter == Blocked && l.finished == 1 ==> l.signalled || l.call == Counted)
  }

  ghost predicate WorldInv(cfg: Config, sid: nat, w: World) {
    && Reachable(cfg, w.s) && IsReadAssignment(w.s.subs, sid, 0) && LatchInv(w.l)
    && (w.l.finished == 1 <==> Processed(w.s, sid))
    && (w.l.call == Entered ==> Calls(w.s, sid) && Enabled(cfg, w.s, Callback) && w.l.finished == 0)
  }

  /** When submit has made the handle, and nothing of the submission has completed. */
  ghost predicate WorldStart(cfg: Config, sid: nat, w: World) {
    Reachable(cfg, w.s) && IsReadAssignment(w.s.subs, sid, 0) && !Processed(w.s, sid) && w.l == NEW_LATCH
  }

  lemma FiredAreOlder(cfg: Config, s: System, q: nat, t: Token)
    requires Reachable(cfg, s) && q < |s.qps| && t in FiredToks(s.qps[q].fired)
    ensures t.chunk.sid < |s.subs|
  {
    CallbacksInOrder(cfg, s, q);
    var n :| 0 <= n < |s.qps[q].fired| && s.qps[q].fired[n].tok == t;
    var p :| 0 <= p < |PlacedOn(s.subs, q)| && PlacedOn(s.subs, q)[p] == t.chunk;
    PlacedOrigin(s.subs, q, p);
  }

  lemma NewFinalToken(subs: seq<Submission>, sub: Submission)
    requires sub.opcode == READ && sub.batch != []
    ensures IsReadAssignment(subs + [sub], |subs|, 0) && FinalToken(subs + [sub], |subs|).chunk.sid == |subs|
  {
  }

  /** That is how every nonempty READ submission begins. */
  lemma SubmitStarts(cfg: Config, s: System, q: nat, batch: seq<Assignment>)
    requires Reachable(cfg, s) && Enabled(cfg, s, Acquire(q, READ, batch)) && batch != []
    ensures WorldStart(cfg, |s.subs|, World(Do(cfg, s, Acquire(q, READ, batch)), NEW_LATCH))
  {
    var r := Do(cfg, s, Acquire(q, READ, batch));
    StepReachable(cfg, s, Acquire(q, READ, batch), r);
    NewFinalToken(s.subs, Submission(q, READ, batch));
    if FinalToken(r.subs, |s.subs|) in FiredToks(s.qps[q].fired) {
      FiredAreOlder(cfg, s, q, FinalToken(r.subs, |s.subs|));
    }
  }

  lemma CallsStays(cfg: Config, s: System, step: Step, sid: nat)
    requires Enabled(cfg, s, step) && !OfPoller(step) && Calls(s, sid) && Enabled(cfg, s, Callback)
    ensures Calls(Do(cfg, s, step), sid) && Enabled(cfg, Do(cfg, s, step), Callback)
  {
    OthersLeavePoller(cfg, s, step);
    OnlyCallbackFires(cfg, s, step);
    SameFinalToken(s.subs, Do(cfg, s, step).subs, sid);
  }

  lemma PipeKeeps(cfg: Config, sid: nat, w: World, step: Step)
    requires WorldInv(cfg, sid, w) && WorldEnabled(cfg, sid, w, Pipe(step))
    ensures WorldInv(cfg, sid, WorldDo(cfg, sid, w, Pipe(step)))
  {
    StepReachable(cfg, w.s, step, Do(cfg, w.s, step));
    SubFacts(cfg, w.s, sid);
    if step == Callback {
      OtherCallback(cfg, w.s, sid);
    } else {
      OthersProcess(cfg, w.s, step, sid);
      if w.l.call == Entered {
        CallsStays(cfg, w.s, step, sid);
      }
    }
  }

  lemma CountKeeps(cfg: Config, sid: nat, w: World)
    requires WorldInv(cfg, sid, w) && WorldEnabled(cfg, sid, w, CountUp)
    ensures WorldInv(cfg, sid, WorldDo(cfg, sid, w, CountUp))
  {
    OwnCallback(cfg, w.s, sid);
    StepReachable(cfg, w.s, Callback, Do(cfg, w.s, Callback));
  }

  lemma EnterFirst(cfg: Config, sid: nat, w: World)
    requires WorldInv(cfg, sid, w) && WorldEnabled(cfg, sid, w, Enter)
    ensures w.l.finished == 0
  {
    OwnCallback(cfg, w.s, sid);
  }

  lemma WorldKeeps(cfg: Config, sid: nat, w: World, step: WorldStep)
    requires WorldInv(cfg, sid, w) && WorldEnabled(cfg, sid, w, step)
    ensures WorldInv(cfg, sid, WorldDo(cfg, sid, w, step))
  {
    match step
    case Pipe(p) => PipeKeeps(cfg, sid, w, p);
    case Enter => EnterFirst(cfg, sid, w);
    case CountUp => CountKeeps(cfg, sid, w);
    case NotifyOne => case LeaveCall => case BeginWait => case TakeLock => case TestFinished => case WakeUp =>
    case WakeSpuriously =>
  }

  // ----- Main results -----

  ghost predicate IsWorldRun(cfg: Config, sid: nat, states: seq<World>, steps: seq<WorldStep>) {
    && |states| == |steps| + 1
    && forall i :: 0 <= i < |steps| ==> WorldEnabled(cfg, sid, states[i], steps[i])
                                        && states[i + 1] == WorldDo(cfg, sid, states[i], steps[i])
  }

  lemma {:induction false} WorldRunInv(cfg: Config, sid: nat, states: seq<World>, steps: seq<WorldStep>, n: nat)
    requires IsWorldRun(cfg, sid, states, steps) && WorldStart(cfg, sid, states[0]) && n <= |steps|
    ensures WorldInv(cfg, sid, states[n])
  {
    if n > 0 {
      WorldRunInv(cfg, sid, states, steps, n - 1);
      WorldKeeps(cfg, sid, states[n - 1], steps[n - 1]);
    }
  }

  /** At every point of every run: query is true exactly when the completion of the final chunk
      has been processed; wait has returned only if it has; and a waiter that sleeps although
      finished_ is set has been notified, or the callback is just about to notify it. */
  lemma HandleExact(cfg: Config, sid: nat, states: seq<World>, steps: seq<WorldStep>, n: nat)
    requires IsWorldRun(cfg, sid, states, steps) && WorldStart(cfg, sid, states[0]) && n <= |steps|
    ensures var w := states[n];
      && Reachable(cfg, w.s) && (Query(w.l) <==> Processed(w.s, sid)) && w.l.finished <= 1
      && (w.l.waiter == Back ==> Processed(w.s, sid))
      && (w.l.waiter == Blocked && w.l.finished > 0 ==> w.l.signalled || w.l.call == Counted)
  {
    WorldRunInv(cfg, sid, states, steps, n);
  }

  /** finished_ changes once, from 0 to 1, in the step that processes the completion. */
  lemma FinishedOnce(cfg: Config, sid: nat, states: seq<World>, steps: seq<WorldStep>, n: nat)
    requires IsWorldRun(cfg, sid, states, steps) && WorldStart(cfg, sid, states[0]) && n < |steps|
    ensures var l, r := states[n].l, states[n + 1].l;
      r.finished != l.finished ==> steps[n] == CountUp && l.finished == 0 && r.finished == 1
    ensures steps[n] == CountUp ==> !Processed(states[n].s, sid) && Processed(states[n + 1].s, sid)
  {
    WorldRunInv(cfg, sid, states, steps, n);
    WorldRunInv(cfg, sid, states, steps, n + 1);
  }

  /** Steps left to the callback and the waiter once finished_ is set. */
  function WaitWork(l: Latch): nat {
    (match l.call
     case Outside => 0
     case Notified => 1
     case Counted => 2
     case Entered => 3)
    + (match l.waiter
       case Back => 0
       case Away => 0
       case Testing => 1
       case Blocked => 2
       case Arriving => 2)
  }

  /** Once the completion has been processed a thread in wait() returns: as long as it has not,
      the callback or the thread can take a step, every step of theirs is progress, and there
      are at most four. */
  lemma WaiterReturns(cfg: Config, sid: nat, w: World)
    requires WorldInv(cfg, sid, w) && Processed(w.s, sid) && w.l.waiter != Away && w.l.waiter != Back
    ensures WaitWork(w.l) <= 4
    ensures exists step: WorldStep :: !step.Pipe? && WorldEnabled(cfg, sid, w, step)
    ensures forall step: WorldStep :: !step.Pipe? && WorldEnabled(cfg, sid, w, step) ==>
      WaitWork(WorldDo(cfg, sid, w, step).l) < WaitWork(w.l)
  {
    if w.l.call == Counted {
      assert WorldEnabled(cfg, sid, w, NotifyOne);
    } else if w.l.call == Notified {
      assert WorldEnabled(cfg, sid, w, LeaveCall);
    } else if w.l.waiter == Testing {
      assert WorldEnabled(cfg, sid, w, TestFinished);
    } else if w.l.waiter == Blocked {
      assert WorldEnabled(cfg, sid, w, WakeUp);
    } else {
      assert WorldEnabled(cfg, sid, w, TakeLock);
    }
    forall step: WorldStep | !step.Pipe? && WorldEnabled(cfg, sid, w, step)
      ensures step != Enter
    {
      if step == Enter {
        EnterFirst(cfg, sid, w);
      }
    }
  }

  /** The callback of sid's handle is entry n of its queue pair's history, and no other entry. */
  ghost predicate FinalEntry(s: System, sid: nat, n: nat) {
    && IsReadAssignment(s.subs, sid, 0) && s.subs[sid].q < |s.qps| && n < |s.qps[s.subs[sid].q].fired|
    && forall k :: 0 <= k < |s.qps[s.subs[sid].q].fired| ==>
         (s.qps[s.subs[sid].q].fired[k].tok == FinalToken(s.subs, sid) <==> k == n)
  }

  lemma HasFinalEntry(cfg: Config, s: System, sid: nat) returns (n: nat)
    requires Reachable(cfg, s) && Processed(s, sid)
    ensures FinalEntry(s, sid, n)
  {
    var fired, t := s.qps[s.subs[sid].q].fired, FinalToken(s.subs, sid);
    n :| n < |FiredToks(fired)| && FiredToks(fired)[n] == t;
    ExactlyOnce(cfg, s, sid);
    forall k | 0 <= k < |fired| && fired[k].tok == t
      ensures k == n
    {
      assert FiredToks(fired)[k] == t && FiresAtMostOnce(fired, t);
    }
  }

  lemma FinalTokenFields(subs: seq<Submission>, sid: nat)
    requires IsReadAssignment(subs, sid, 0)
    ensures FinalToken(subs, sid).chunk.last && FinalToken(subs, sid).chunk.sid == sid
  {
  }

  /** wait returns when the final callback has run, whatever status that callback got.  The
      status is SUCCESS if and only if every request of the batch succeeded, in which case the
      data of the whole batch has arrived. */
  lemma WaitDelivers(cfg: Config, sid: nat, w: World) returns (n: nat)
    requires WorldInv(cfg, sid, w) && w.l.waiter == Back
    ensures FinalEntry(w.s, sid, n)
    ensures var q := w.s.subs[sid].q;
      && (w.s.qps[q].fired[n].ok <==> forall m :: 0 <= m < |w.s.subs[sid].batch| ==> Succeeded(cfg, w.s, sid, m))
      && (w.s.qps[q].fired[n].ok ==>
            forall m :: 0 <= m < |w.s.subs[sid].batch| && WritesApart(cfg, w.s, sid, m)
                        && FitsFields(cfg, w.s.subs[sid].batch[m])
              ==> Arrived(cfg, w.s, w.s.subs[sid].batch[m]))
      && (!w.s.qps[q].failed ==> w.s.qps[q].fired[n].ok)
  {
    var q := w.s.subs[sid].q;
    n := HasFinalEntry(cfg, w.s, sid);
    FinalTokenFields(w.s.subs, sid);
    SuccessExact(cfg, w.s, q, n);
    FiredFacts(cfg, w.s, q, n);
    StatusFacts(cfg, w.s, q);
    if w.s.qps[q].fired[n].ok {
      EndToEnd(cfg, w.s, q, n);
    }
  }

  // ----- RDMASchedulerAssignment::wait -----

  /** The member handles, and the index of the one being waited for. */
  datatype Group = Group(members: seq<World>, at: nat)

  datatype Member = Member(cfg: Config, sid: nat)

  predicate IsWaiterStep(step: WorldStep) {
    step.BeginWait? || step.TakeLock? || step.TestFinished? || step.WakeUp? || step.WakeSpuriously?
  }

  /** One step of member j, or the loop going on to the next member. */
  datatype GroupStep = MemberStep(j: nat, step: WorldStep) | NextMember

  predicate GroupEnabled(ms: seq<Member>, g: Group, step: GroupStep) {
    match step
    case MemberStep(j, s) =>
      && j < |ms| == |g.members| && WorldEnabled(ms[j].cfg, ms[j].sid, g.members[j], s)
      && (IsWaiterStep(s) ==> j == g.at)
    case NextMember => g.at < |g.members| && g.members[g.at].l.waiter == Back
  }

  function GroupDo(ms: seq<Member>, g: Group, step: GroupStep): Group
    requires GroupEnabled(ms, g, step)
  {
    match step
    case MemberStep(j, s) => g.(members := g.members[j := WorldDo(ms[j].cfg, ms[j].sid, g.members[j], s)])
    case NextMember => g.(at := g.at + 1)
  }

  ghost predicate GroupInv(ms: seq<Member>, g: Group) {
    && |ms| == |g.members| && g.at <= |g.members|
    && (forall j :: 0 <= j < |ms| ==> WorldInv(ms[j].cfg, ms[j].sid, g.members[j]))
    && forall j :: 0 <= j < g.at ==> g.members[j].l.waiter == Back
  }

  ghost predicate GroupStart(ms: seq<Member>, g: Group) {
    |ms| == |g.members| && g.at == 0 && forall j :: 0 <= j < |ms| ==> WorldStart(ms[j].cfg, ms[j].sid, g.members[j])
  }

  lemma OnlyWaiterMoves(cfg: Config, sid: nat, w: World, step: WorldStep)
    requires WorldEnabled(cfg, sid, w, step) && !IsWaiterStep(step)
    ensures WorldDo(cfg, sid, w, step).l.waiter == w.l.waiter
  {
  }

  lemma OneMember(ms: seq<Member>, g: Group, j: nat, w: World)
    requires GroupInv(ms, g) && j < |ms| && WorldInv(ms[j].cfg, ms[j].sid, w)
    requires j < g.at ==> w.l.waiter == Back
    ensures GroupInv(ms, g.(members := g.members[j := w]))
  {
  }

  lemma GroupKeeps(ms: seq<Member>, g: Group, step: GroupStep)
    requires GroupInv(ms, g) && GroupEnabled(ms, g, step)
    ensures GroupInv(ms, GroupDo(ms, g, step))
  {
    if step.MemberStep? {
      WorldKeeps(ms[step.j].cfg, ms[step.j].sid, g.members[step.j], step.step);
      if !IsWaiterStep(step.step) {
        OnlyWaiterMoves(ms[step.j].cfg, ms[step.j].sid, g.members[step.j], step.step);
      }
      OneMember(ms, g, step.j, WorldDo(ms[step.j].cfg, ms[step.j].sid, g.members[step.j], step.step));
    }
  }

  ghost predicate IsGroupRun(ms: seq<Member>, states: seq<Group>, steps: seq<GroupStep>) {
    && |states| == |steps| + 1
    && forall i :: 0 <= i < |steps| ==> GroupEnabled(ms, states[i], steps[i]) && states[i + 1] == GroupDo(ms, states[i], steps[i])
  }

  lemma {:induction false} GroupRunInv(ms: seq<Member>, states: seq<Group>, steps: seq<GroupStep>, n: nat)
    requires IsGroupRun(ms, states, steps) && GroupStart(ms, states[0]) && n <= |steps|
    ensures GroupInv(ms, states[n])
  {
    if n > 0 {
      GroupRunInv(ms, states, steps, n - 1);
      GroupKeeps(ms, states[n - 1], steps[n - 1]);
    }
  }

  /** A scheduler handle's wait gets past the last member only when every member's completion
      has been processed. */
  lemma GroupWaits(ms: seq<Member>, states: seq<Group>, steps: seq<GroupStep>, n: nat)
    requires IsGroupRun(ms, states, steps) && GroupStart(ms, states[0]) && n <= |steps|
    requires states[n].at == |states[n].members|
    ensures |states[n].members| == |ms|
    ensures forall j :: 0 <= j < |ms| ==> Query(states[n].members[j].l) && Processed(states[n].members[j].s, ms[j].sid)
  {
    GroupRunInv(ms, states, steps, n);
  }
}
