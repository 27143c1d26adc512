/** The half of a websocket stream both ends share:  a write queue and a close state machine, every handler on one strand, any thread
    calling in.  The stream, the executor and the timer are the environment:  what is outstanding with them completes when they choose. */
module Socket {
  import opened Options

  type Frame = nat
  type Session = nat

  /** What a Close asks for. */
  datatype Closing = Closing(session: Session, code: nat)

  /** A hop to the strand that has not run. */
  datatype Task = WriteHop(frame: Frame) | CloseHop(closing: Closing)

  /** The close deadline:  one that has expired is past cancelling. */
  datatype Timer = NoTimer | Armed | Expired | Fired | Cancelled

  /** What OnClosed is told. */
  datatype Outcome = CloseResult(ok: bool) | TimedOut | NeverOpened

  datatype State = State(
    // the object
    open: bool,
    queue: seq<Frame>,
    writing: bool,
    closeSession: Option<Session>,
    closeCode: nat,
    transportClosed: bool,
    closing: bool,
    timer: Timer,
    // outstanding elsewhere
    tasks: multiset<Task>,
    writes: nat,
    closes: seq<Closing>,
    // what has happened
    accepted: seq<Frame>,
    started: seq<Frame>,
    closer: Option<Closing>,
    closeRan: bool,
    closed: seq<(Session, Outcome)>)

  const INITIAL := State(false, [], false, None, 0, false, false, NoTimer, multiset{}, 0, [], [], [], None, false, [])

  // ---- The handlers ----

  function StartWrite(s: State): State
    requires s.queue != []
  {
    s.(writing := true, writes := s.writes + 1, started := s.started + [s.queue[0]])
  }

  function WriteRuns(s: State, frame: Frame): State {
    if s.closing then s else
      var t := s.(queue := s.queue + [frame], accepted := s.accepted + [frame]);
      if t.writing then t else StartWrite(t)
  }

  function Cancel(timer: Timer): Timer {
    if timer.Armed? then Cancelled else timer
  }

  /** The one way to OnClosed:  the parked session is the token. */
  function Finish(s: State): State {
    if s.closeSession.None? then s else
      var t := s.(closeSession := None, queue := []);
      if !s.open || s.transportClosed then
        t.(timer := Cancel(s.timer), closed := s.closed + [(s.closeSession.value, if s.transportClosed then TimedOut else NeverOpened)])
      else t.(closes := s.closes + [Closing(s.closeSession.value, s.closeCode)])
  }

  function CloseRuns(s: State, c: Closing): State {
    var t := s.(closeSession := Some(c.session), closeCode := c.code, closeRan := true, timer := if s.open then Armed else s.timer);
    if t.writing then t else Finish(t)
  }

  /** What a write error's hook does. */
  datatype Hook = Logs | Closes(closing: Closing) | Writes(frame: Frame)

  /** On the strand already, so a hop runs there and then. */
  function HookRuns(s: State, hook: Hook): State {
    match hook
    case Logs => s
    case Closes(c) => if s.closing then s else CloseRuns(s.(closing := true, closer := Some(c)), c)
    case Writes(f) => WriteRuns(s, f)
  }

  function WriteEnds(s: State, failed: bool, hook: Hook): State
    requires s.writes > 0 && s.queue != []
  {
    var t := s.(queue := s.queue[1..], writing := false, writes := s.writes - 1);
    var u := if failed then HookRuns(t, hook) else t;
    if u.closeSession.Some? then Finish(u)
    else if u.queue != [] && !u.closing then StartWrite(u)
    else u
  }

  datatype Step =
    | Write(frame: Frame)
    | RunWrite(frame: Frame)
    | Close(closing: Closing)
    | RunClose(closing: Closing)
    | WriteDone(failed: bool, hook: Hook)
    | CloseDone(ok: bool)
    | Expire
    | Fire
    | Opened(ok: bool)

  predicate Enabled(s: State, e: Step) {
    match e
    case Write(_) => true
    case RunWrite(f) => WriteHop(f) in s.tasks
    case Close(_) => true
    case RunClose(c) => CloseHop(c) in s.tasks
    case WriteDone(_, _) => s.writes > 0 && s.queue != []
    case CloseDone(_) => s.closes != []
    case Expire => s.timer.Armed?
    case Fire => s.timer.Expired?
    case Opened(_) => true
  }

  /** A write error's hook may close;  it does not write. */
  predicate Legal(e: Step) {
    e.WriteDone? && e.failed ==> !e.hook.Writes?
  }

  function Next(s: State, e: Step): State
    requires Enabled(s, e)
  {
    match e
    case Write(f) => s.(tasks := s.tasks + multiset{WriteHop(f)})
    case RunWrite(f) => WriteRuns(s.(tasks := s.tasks - multiset{WriteHop(f)}), f)
    case Close(c) => if s.closing then s else s.(closing := true, closer := Some(c), tasks := s.tasks + multiset{CloseHop(c)})
    case RunClose(c) => CloseRuns(s.(tasks := s.tasks - multiset{CloseHop(c)}), c)
    case WriteDone(failed, hook) => WriteEnds(s, failed, hook)
    case CloseDone(ok) => s.(closes := s.closes[1..], timer := Cancel(s.timer),
        closed := s.closed + [(s.closes[0].session, CloseResult(ok))])
    case Expire => s.(timer := Expired)
    case Fire => s.(timer := Fired, transportClosed := true)
    case Opened(ok) => s.(open := ok)
  }

  // ---- What every step keeps ----

  ghost predicate NoHop(s: State) {
    forall c :: CloseHop(c) !in s.tasks
  }

  /** Where a close stands. */
  datatype Stage = NotClosing | Hopping | Parked | Handshaking | Ended

  ghost predicate At(s: State, stage: Stage) {
    match stage
    case NotClosing => !s.closing && s.closer.None? && NoHop(s) && s.closeSession.None? && s.closes == [] && s.closed == [] && !s.closeRan
    case Hopping =>
      && s.closing && s.closer.Some? && s.closeSession.None? && s.closes == [] && s.closed == [] && !s.closeRan
      && s.tasks[CloseHop(s.closer.value)] == 1 && forall c :: CloseHop(c) in s.tasks ==> c == s.closer.value
    case Parked =>
      && s.closing && s.closer.Some? && NoHop(s) && s.closes == [] && s.closed == [] && s.closeRan
      && s.closeSession == Some(s.closer.value.session) && s.closeCode == s.closer.value.code && s.writing
    case Handshaking =>
      && s.closing && s.closer.Some? && NoHop(s) && s.closeSession.None? && s.closes == [s.closer.value] && s.closed == [] && s.closeRan
      && !s.writing && s.queue == []
    case Ended =>
      && s.closing && s.closer.Some? && NoHop(s) && s.closeSession.None? && s.closes == [] && s.closeRan
      && |s.closed| == 1 && s.closed[0].0 == s.closer.value.session
      && !s.writing && s.queue == []
  }

  ghost predicate WritesOK(s: State) {
    && s.writes == (if s.writing then 1 else 0)
    && (s.writing ==> s.queue != [])
    && (!s.closing && s.queue != [] ==> s.writing)
    && s.started <= s.accepted
    && (!s.closeRan ==> s.accepted == s.started + s.queue[s.writes..])
  }

  ghost predicate TimerOK(s: State) {
    && (s.transportClosed <==> s.timer.Fired?)
    && (!s.timer.NoTimer? ==> s.closeRan)
    && (s.timer.Cancelled? ==> s.closed != [])
  }

  function StageOf(s: State): Stage {
    if !s.closing then NotClosing
    else if !s.closeRan then Hopping
    else if s.closeSession.Some? then Parked
    else if s.closes != [] then Handshaking
    else Ended
  }

  ghost predicate Inv(s: State) {
    WritesOK(s) && TimerOK(s) && At(s, StageOf(s))
  }

  lemma StartWriteKeeps(s: State)
    requires s.queue != [] && !s.writing && s.writes == 0 && !s.closeRan && s.accepted == s.started + s.queue
    ensures WritesOK(StartWrite(s))
  {
    assert s.queue == [s.queue[0]] + s.queue[1..];
  }

  lemma WriteRunsKeeps(s: State, f: Frame)
    requires Inv(s)
    ensures Inv(WriteRuns(s, f))
  {
    if !s.closing {
      var t := s.(queue := s.queue + [f], accepted := s.accepted + [f]);
      if t.writing {
        assert t.queue[1..] == s.queue[1..] + [f];
      } else {
        StartWriteKeeps(t);
      }
    }
  }

  /** A parked close finishes with nothing outstanding. */
  lemma FinishKeeps(s: State)
    requires s.closing && s.closer.Some? && NoHop(s) && s.closes == [] && s.closed == [] && s.closeRan
    requires s.closeSession == Some(s.closer.value.session) && s.closeCode == s.closer.value.code
    requires !s.writing && s.writes == 0 && s.started <= s.accepted && TimerOK(s)
    ensures Inv(Finish(s)) && (StageOf(Finish(s)).Handshaking? || StageOf(Finish(s)).Ended?)
  {
  }

  lemma CloseRunsKeeps(s: State, c: Closing)
    requires s.closing && s.closer == Some(c) && NoHop(s) && s.closes == [] && s.closed == [] && !s.closeRan && s.closeSession.None?
    requires WritesOK(s) && TimerOK(s)
    ensures Inv(CloseRuns(s, c)) && CloseRuns(s, c).closeRan
  {
    var t := s.(closeSession := Some(c.session), closeCode := c.code, closeRan := true, timer := if s.open then Armed else s.timer);
    if !t.writing {
      FinishKeeps(t);
    }
  }

  lemma WriteEndsKeeps(s: State, failed: bool, hook: Hook)
    requires Inv(s) && s.writes > 0 && s.queue != [] && (failed ==> !hook.Writes?)
    ensures Inv(WriteEnds(s, failed, hook))
  {
    var t := s.(queue := s.queue[1..], writing := false, writes := s.writes - 1);
    if At(s, Parked) {
      FinishKeeps(t);
    } else if At(s, NotClosing) {
      if failed && hook.Closes? {
        CloseRunsKeeps(t.(closing := true, closer := Some(hook.closing)), hook.closing);
      } else {
        if t.queue != [] {
          StartWriteKeeps(t);
        }
      }
    }
  }

  lemma TaskAdded(s: State, f: Frame)
    requires Inv(s)
    ensures Inv(s.(tasks := s.tasks + multiset{WriteHop(f)}))
  {
    var t := s.(tasks := s.tasks + multiset{WriteHop(f)});
    assert forall c :: t.tasks[CloseHop(c)] == s.tasks[CloseHop(c)];
  }

  lemma TaskTaken(s: State, f: Frame)
    requires Inv(s)
    ensures Inv(s.(tasks := s.tasks - multiset{WriteHop(f)}))
  {
    var t := s.(tasks := s.tasks - multiset{WriteHop(f)});
    assert forall c :: t.tasks[CloseHop(c)] == s.tasks[CloseHop(c)];
  }

  lemma CloseKeeps(s: State, c: Closing)
    requires Inv(s)
    ensures Inv(Next(s, Close(c)))
  {
    if !s.closing {
      var t := Next(s, Close(c));
      assert forall d :: t.tasks[CloseHop(d)] == s.tasks[CloseHop(d)] + if d == c then 1 else 0;
    }
  }

  lemma HopTaken(s: State, c: Closing)
    requires Inv(s) && CloseHop(c) in s.tasks
    ensures At(s, Hopping) && s.closer == Some(c) && NoHop(s.(tasks := s.tasks - multiset{CloseHop(c)}))
  {
    var t := s.(tasks := s.tasks - multiset{CloseHop(c)});
    assert forall d :: t.tasks[CloseHop(d)] == s.tasks[CloseHop(d)] - if d == c then 1 else 0;
  }

  lemma NextKeeps(s: State, e: Step)
    requires Inv(s) && Enabled(s, e) && Legal(e)
    ensures Inv(Next(s, e))
  {
    match e
    case Write(f) => TaskAdded(s, f);
    case RunWrite(f) =>
      TaskTaken(s, f);
      WriteRunsKeeps(s.(tasks := s.tasks - multiset{WriteHop(f)}), f);
    case Close(c) => CloseKeeps(s, c);
    case RunClose(c) =>
      HopTaken(s, c);
      CloseRunsKeeps(s.(tasks := s.tasks - multiset{CloseHop(c)}), c);
    case WriteDone(failed, hook) => WriteEndsKeeps(s, failed, hook);
    case CloseDone(ok) =>
    case Expire =>
    case Fire =>
    case Opened(_) =>
  }

  // ---- Over whole runs ----

  ghost predicate Runs(s: State, steps: seq<Step>)
    decreases |steps|
  {
    steps == [] || (Enabled(s, steps[0]) && Legal(steps[0]) && Runs(Next(s, steps[0]), steps[1..]))
  }

  function After(s: State, steps: seq<Step>): State
    requires Runs(s, steps)
    decreases |steps|
  {
    if steps == [] then s else After(Next(s, steps[0]), steps[1..])
  }

  /** What has happened stays happened;  and once a close's handler has run, no further write starts. */
  predicate Onward(s: State, t: State) {
    && s.accepted <= t.accepted && s.started <= t.started && s.closed <= t.closed
    && (s.closer.Some? ==> t.closer == s.closer)
    && (s.closeRan ==> t.closeRan && t.started == s.started)
  }

  lemma NextOnward(s: State, e: Step)
    requires Inv(s) && Enabled(s, e) && Legal(e)
    ensures Onward(s, Next(s, e))
  {
  }

  lemma {:induction false} RunKeeps(s: State, steps: seq<Step>)
    requires Inv(s) && Runs(s, steps)
    ensures Inv(After(s, steps)) && Onward(s, After(s, steps))
    decreases |steps|
  {
    if steps != [] {
      NextKeeps(s, steps[0]);
      NextOnward(s, steps[0]);
      RunKeeps(Next(s, steps[0]), steps[1..]);
    }
  }

  /** In every run of a new socket:  never a write and a close, nor two of either, outstanding together;  frames start
      in the order they were accepted, none of them twice or skipped;  OnClosed runs at most once, for the Close that
      came first;  and between any state of the run and a later one no write starts once the close's handler has run. */
  lemma SocketRun(steps: seq<Step>, more: seq<Step>)
    requires Runs(INITIAL, steps) && Runs(After(INITIAL, steps), more)
    ensures var s := After(INITIAL, steps);
            && s.writes + |s.closes| <= 1
            && s.started <= s.accepted
            && |s.closed| <= 1
            && (s.closed != [] ==> s.closer.Some? && s.closed[0].0 == s.closer.value.session)
            && (s.closes != [] ==> s.closer == Some(s.closes[0]))
            && Onward(s, After(s, more))
  {
    RunKeeps(INITIAL, steps);
    RunKeeps(After(INITIAL, steps), more);
  }

  // ---- Towards OnClosed ----

  function TimerLeft(timer: Timer): nat {
    match timer
    case Armed => 2
    case Expired => 1
    case _ => 0
  }

  /** How far a close is from OnClosed. */
  function Measure(s: State): nat {
    match StageOf(s)
    case Ended => 0
    case Handshaking => 3 + TimerLeft(s.timer)
    case Parked => 6 + TimerLeft(s.timer)
    case _ => 9
  }

  /** A write's end finishes a parked close, and leaves one still hopping to finish itself. */
  lemma WriteEndsNearer(s: State, failed: bool, hook: Hook)
    requires Inv(s) && s.closing && s.writes > 0
    ensures var t := WriteEnds(s, failed, hook);
            t.closing && Measure(t) <= Measure(s) && (StageOf(s).Hopping? || (StageOf(s).Parked? && Measure(t) <= 5))
  {
    var t := s.(queue := s.queue[1..], writing := false, writes := s.writes - 1);
    assert HookRuns(t, hook) == t;
    assert WriteEnds(s, failed, hook) == if t.closeSession.Some? then Finish(t) else t;
  }

  lemma NeverFurther(s: State, e: Step)
    requires Inv(s) && s.closing && Enabled(s, e) && Legal(e)
    ensures Next(s, e).closing && Measure(Next(s, e)) <= Measure(s)
  {
    if e.WriteDone? {
      WriteEndsNearer(s, e.failed, e.hook);
    } else if e.RunClose? {
      CloseRunsNearer(s, e.closing);
    } else if e.RunWrite? || e.Write? || e.Close? {
      assert Next(s, e) == s.(tasks := Next(s, e).tasks);
    } else {
      StreamNearer(s, e);
    }
  }

  lemma CloseRunsNearer(s: State, c: Closing)
    requires Inv(s) && s.closing && CloseHop(c) in s.tasks
    ensures Next(s, RunClose(c)).closing && Measure(Next(s, RunClose(c))) <= Measure(s)
  {
    HopTaken(s, c);
  }

  lemma StreamNearer(s: State, e: Step)
    requires Inv(s) && s.closing && (e.CloseDone? || e.Expire? || e.Fire? || e.Opened?) && Enabled(s, e)
    ensures Next(s, e).closing && Measure(Next(s, e)) <= Measure(s)
  {
  }

  /** A close that has not ended has a step pending that brings it nearer. */
  lemma Nearer(s: State) returns (e: Step)
    requires Inv(s) && s.closing && s.closed == []
    ensures Enabled(s, e) && Legal(e) && Measure(Next(s, e)) < Measure(s)
  {
    match StageOf(s)
    case Hopping => e := RunClose(s.closer.value);
    case Parked => e := WriteDone(false, Logs);
    case _ => e := CloseDone(true);
  }

  /** What needs nothing of the peer:  the executor's hops, the timer, and what a closed transport aborts. */
  predicate Unaided(s: State, e: Step) {
    e.RunWrite? || e.RunClose? || e.Expire? || e.Fire? || (s.transportClosed && (e.WriteDone? || e.CloseDone?))
  }

  /** With the deadline set, a peer that has stopped reading cannot hold a close up. */
  lemma NearerUnaided(s: State) returns (e: Step)
    requires Inv(s) && s.closing && s.closed == [] && (s.closeRan ==> !s.timer.NoTimer?)
    ensures Enabled(s, e) && Legal(e) && Unaided(s, e) && Measure(Next(s, e)) < Measure(s)
  {
    if !s.closeRan {
      e := RunClose(s.closer.value);
    } else if s.timer.Armed? {
      e := Expire;
    } else if s.timer.Expired? {
      e := Fire;
    } else if s.closeSession.Some? {
      e := WriteDone(true, Logs);
    } else {
      e := CloseDone(false);
    }
  }

  /** A close is left without a deadline if and only if its handler found a write outstanding on a stream not yet open. */
  lemma Undeadlined(s: State, e: Step)
    requires Inv(s) && Enabled(s, e) && Legal(e) && !s.closeRan && Next(s, e).closeRan
    ensures Next(s, e).closed == [] && Next(s, e).timer.NoTimer? <==> e.RunClose? && !s.open && s.writing
  {
  }

  ghost predicate Reaches(steps: seq<Step>, t: State) {
    Runs(INITIAL, steps) && After(INITIAL, steps) == t
  }

  lemma RunsOn(steps: seq<Step>, a: State, e: Step, b: State)
    requires Reaches(steps, a) && Enabled(a, e) && Legal(e) && Next(a, e) == b
    ensures Reaches(steps + [e], b)
  {
    RunsSnoc(INITIAL, steps, e);
  }

  lemma {:induction false} RunsSnoc(s: State, steps: seq<Step>, e: Step)
    requires Runs(s, steps) && Enabled(After(s, steps), e) && Legal(e)
    ensures Runs(s, steps + [e]) && After(s, steps + [e]) == Next(After(s, steps), e)
    decreases |steps|
  {
    if steps == [] {
      assert steps + [e] == [e] && [e][1..] == [];
    } else {
      assert (steps + [e])[0] == steps[0] && (steps + [e])[1..] == steps[1..] + [e];
      RunsSnoc(Next(s, steps[0]), steps[1..], e);
    }
  }

  /** One frame, being written on a stream that is not open. */
  function Outstanding(f: Frame): State {
    INITIAL.(queue := [f], accepted := [f], started := [f], writing := true, writes := 1)
  }

  lemma WritesFirst(f: Frame) returns (steps: seq<Step>)
    ensures Reaches(steps, Outstanding(f))
  {
    var s := Next(INITIAL, Write(f));
    assert s.tasks - multiset{WriteHop(f)} == multiset{} && [] + [f] == [f];
    RunsOn([], INITIAL, Write(f), s);
    RunsOn([] + [Write(f)], s, RunWrite(f), Outstanding(f));
    steps := [] + [Write(f)] + [RunWrite(f)];
  }

  /** And some are:  a frame written and a close asked for while the stream is still being opened. */
  lemma LeftUndeadlined(f: Frame, c: Closing) returns (steps: seq<Step>, s: State)
    ensures Reaches(steps, s) && s.closeRan && s.closed == [] && s.timer.NoTimer?
  {
    steps := WritesFirst(f);
    var asked := Next(Outstanding(f), Close(c));
    RunsOn(steps, Outstanding(f), Close(c), asked);
    s := Next(asked, RunClose(c));
    RunsOn(steps + [Close(c)], asked, RunClose(c), s);
    steps := steps + [Close(c)] + [RunClose(c)];
  }

  /** A close not ended that has its deadline, or will have it or end at once when its handler runs. */
  predicate Deadlined(s: State) {
    s.closed != [] || if s.closeRan then !s.timer.NoTimer? else s.open || !s.writing
  }

  lemma StaysDeadlined(s: State, e: Step)
    requires Inv(s) && s.closing && Deadlined(s) && s.closed == [] && Enabled(s, e) && Legal(e) && Unaided(s, e)
    ensures Deadlined(Next(s, e))
  {
    if !s.closeRan && Next(s, e).closeRan {
      Undeadlined(s, e);
    }
  }

  ghost predicate AllUnaided(s: State, steps: seq<Step>)
    requires Runs(s, steps)
    decreases |steps|
  {
    steps == [] || (Unaided(s, steps[0]) && AllUnaided(Next(s, steps[0]), steps[1..]))
  }

  /** From any closing state so, OnClosed is at most as many steps off as the measure says, none of them the peer's. */
  lemma {:induction false} EndsUnaided(s: State) returns (steps: seq<Step>)
    requires Inv(s) && s.closing && Deadlined(s)
    ensures Runs(s, steps) && AllUnaided(s, steps) && |steps| <= Measure(s) && After(s, steps).closed != []
    decreases Measure(s)
  {
    if s.closed != [] {
      steps := [];
    } else {
      var e := NearerUnaided(s);
      NextKeeps(s, e);
      NeverFurther(s, e);
      StaysDeadlined(s, e);
      var rest := EndsUnaided(Next(s, e));
      steps := [e] + rest;
      assert steps[1..] == rest;
    }
  }

  // ---- Frames go out ----

  function Flushes(n: nat): seq<Step> {
    if n == 0 then [] else [WriteDone(false, Logs)] + Flushes(n - 1)
  }

  /** With no close, every accepted frame is out after as many completions as there are frames queued, whatever order
      they were posted in. */
  lemma {:induction false} Drains(s: State)
    requires Inv(s) && !s.closing
    ensures Runs(s, Flushes(|s.queue|))
    ensures var t := After(s, Flushes(|s.queue|)); t.queue == [] && t.started == t.accepted == s.accepted && !t.writing
    decreases |s.queue|
  {
    if s.queue != [] {
      var e := WriteDone(false, Logs);
      NextKeeps(s, e);
      Drains(Next(s, e));
      assert Flushes(|s.queue|)[1..] == Flushes(|s.queue| - 1);
    }
  }

  /** Why a write error's hook must not write:  two writes are then outstanding, unless a Close has come first. */
  lemma HookWrites(s: State, frame: Frame)
    requires Inv(s) && s.writing
    ensures Next(s, WriteDone(true, Writes(frame))).writes <= 1 <==> s.closing
  {
  }

  /** And they can be:  a frame's write fails, its hook's write starts, and the completion starts that frame again. */
  lemma TwoWrites(f: Frame, frame: Frame) returns (steps: seq<Step>, s: State)
    ensures Reaches(steps, s) && s.writing && !s.closing
    ensures Enabled(s, WriteDone(true, Writes(frame))) && Next(s, WriteDone(true, Writes(frame))).writes == 2
  {
    steps := WritesFirst(f);
    s := Outstanding(f);
  }

  // ---- The object ----

  class SocketCore {
    var open: bool
    var writeQueue: seq<Frame>
    var writing: bool
    var closeSession: Option<Session>
    var closeCode: nat
    var transportClosed: bool
    var closing: bool
    var closeDeadline: Timer

    // The strand's queue and the stream's outstanding operations.
    var tasks: multiset<Task>
    var writes: nat
    var closes: seq<Closing>

    ghost var accepted: seq<Frame>
    ghost var started: seq<Frame>
    ghost var closer: Option<Closing>
    ghost var closeRan: bool
    ghost var closed: seq<(Session, Outcome)>

    ghost function View(): State
      reads this
    {
      State(open, writeQueue, writing, closeSession, closeCode, transportClosed, closing, closeDeadline, tasks, writes, closes,
            accepted, started, closer, closeRan, closed)
    }

    constructor ()
      ensures View() == INITIAL
    {
      open, writeQueue, writing, closeSession, closeCode, transportClosed, closing, closeDeadline := false, [], false,
          None, 0, false, false, NoTimer;
      tasks, writes, closes := multiset{}, 0, [];
      accepted, started, closer, closeRan, closed := [], [], None, false, [];
    }

    method Write(frame: Frame)
      modifies this
      ensures View() == Next(old(View()), Step.Write(frame))
    {
      tasks := tasks + multiset{WriteHop(frame)};
    }

    method RunWrite(frame: Frame)
      requires Enabled(View(), Step.RunWrite(frame))
      modifies this
      ensures View() == Next(old(View()), Step.RunWrite(frame))
    {
      tasks := tasks - multiset{WriteHop(frame)};
      Queue(frame);
    }

    /** A write's handler, on the strand. */
    method Queue(frame: Frame)
      modifies this
      ensures View() == WriteRuns(old(View()), frame)
    {
      if closing {
        return;
      }
      writeQueue, accepted := writeQueue + [frame], accepted + [frame];
      if !writing {
        DoWrite();
      }
    }

    method DoWrite()
      requires writeQueue != []
      modifies this
      ensures View() == StartWrite(old(View()))
    {
      writing := true;
      writes, started := writes + 1, started + [writeQueue[0]];
    }

    method WriteDone(failed: bool, hook: Hook)
      requires Enabled(View(), Step.WriteDone(failed, hook))
      modifies this
      ensures View() == Next(old(View()), Step.WriteDone(failed, hook))
    {
      ghost var s := View();
      writes, writeQueue, writing := writes - 1, writeQueue[1..], false;
      assert View() == s.(queue := s.queue[1..], writing := false, writes := s.writes - 1);
      if failed {
        OnWriteError(hook);
      }
      if closeSession.Some? {
        DoClose();
      } else if writeQueue != [] && !closing {
        DoWrite();
      }
    }

    method OnWriteError(hook: Hook)
      modifies this
      ensures View() == HookRuns(old(View()), hook)
    {
      match hook
      case Logs =>
      case Closes(c) =>
        if !closing {
          closing, closer := true, Some(c);
          StartClose(c);
        }
      case Writes(f) => Queue(f);
    }

    method Close(c: Closing)
      modifies this
      ensures View() == Next(old(View()), Step.Close(c))
    {
      if closing {
        return;
      }
      closing, closer := true, Some(c);
      tasks := tasks + multiset{CloseHop(c)};
    }

    method RunClose(c: Closing)
      requires Enabled(View(), Step.RunClose(c))
      modifies this
      ensures View() == Next(old(View()), Step.RunClose(c))
    {
      tasks := tasks - multiset{CloseHop(c)};
      StartClose(c);
    }

    /** A close's handler, on the strand. */
    method StartClose(c: Closing)
      modifies this
      ensures View() == CloseRuns(old(View()), c)
    {
      closeSession, closeCode, closeRan := Some(c.session), c.code, true;
      if open {
        closeDeadline := Armed;
      }
      if !writing {
        DoClose();
      }
    }

    method DoClose()
      modifies this
      ensures View() == Finish(old(View()))
    {
      var session := closeSession;
      if session.None? {
        return;
      }
      ghost var s := View();
      closeSession, writeQueue := None, [];
      assert View() == s.(closeSession := None, queue := []);
      if !open || transportClosed {
        closeDeadline := Cancel(closeDeadline);
        closed := closed + [(session.value, if transportClosed then TimedOut else NeverOpened)];
        return;
      }
      closes := closes + [Closing(session.value, closeCode)];
    }

    method CloseDone(ok: bool)
      requires Enabled(View(), Step.CloseDone(ok))
      modifies this
      ensures View() == Next(old(View()), Step.CloseDone(ok))
    {
      closeDeadline := Cancel(closeDeadline);
      closed := closed + [(closes[0].session, CloseResult(ok))];
      closes := closes[1..];
    }

    method Deadline()
      requires Enabled(View(), Fire)
      modifies this
      ensures View() == Next(old(View()), Fire)
    {
      closeDeadline, transportClosed := Fired, true;
    }
  }
}
