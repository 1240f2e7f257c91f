/** The job recorder (jobs/jobs.go): the steps of a job, its bounded log, and the throttled writes of both to the
    job's row. Every region under the job's lock is one atomic step. Times are milliseconds; a duration is kept as
    a number instead of its printed form, and the text of an error is a parameter. */
module Jobs {
  import opened Wrappers
  import opened Strings

  const MAX_LOG: nat := 5000
  const FLUSH_EVERY: int := 300

  // ---------------------------------------------------------------- the state of a job

  datatype StepStatus = Pending | Running | Done | Failed | Skipped
  datatype JobStep = JobStep(label_: string, sub: string, status: StepStatus, took: int)
  datatype Line = Line(level: string, text: string)
  datatype Status = Active | Success | Failure

  /** The fields of a job. cur is the running step, -1 for none; finished and lastFlush are None while zero. */
  datatype State = State(steps: seq<JobStep>, stepStart: seq<int>, cur: int, log: seq<Line>, result: map<string, string>,
                         stackId: string, status: Status, finished: Option<int>, dirty: bool, lastFlush: Option<int>,
                         flushing: bool, scheduled: bool)

  predicate Shaped(s: State) { |s.steps| == |s.stepStart| && -1 <= s.cur < |s.steps| }

  /** At most one step runs: the current one. A finished job has no pending or running step. */
  ghost predicate Sound(s: State) {
    && Shaped(s)
    && (forall i :: 0 <= i < |s.steps| ==> (s.steps[i].status == Running <==> i == s.cur))
    && (s.finished.Some? <==> s.status != Active)
    && (s.finished.Some? ==> forall i :: 0 <= i < |s.steps| ==> Over(s.steps[i]))
  }

  predicate Over(x: JobStep) { x.status in {Done, Failed, Skipped} }

  /** Steps are only added, labels stay, and what is over stays exactly as it is, for a step as for the job. */
  ghost predicate Evolves(s: State, t: State) {
    && |s.steps| <= |t.steps|
    && (forall i :: 0 <= i < |s.steps| ==> t.steps[i].label_ == s.steps[i].label_)
    && (forall i :: 0 <= i < |s.steps| && Over(s.steps[i]) ==> t.steps[i] == s.steps[i])
    && (s.status != Active ==> t.status == s.status && t.finished == s.finished)
  }

  // ---------------------------------------------------------------- the bounded log

  const MARK: Line := Line("muted", "… earlier output truncated")

  function AppendLine(log: seq<Line>, l: Line): seq<Line> {
    (if |log| >= MAX_LOG then [MARK] + log[|log| - MAX_LOG + 500..] else log) + [l]
  }

  function AppendLines(log: seq<Line>, ls: seq<Line>): seq<Line>
    decreases |ls|
  {
    if ls == [] then log else AppendLines(AppendLine(log, ls[0]), ls[1..])
  }

  /** How many real lines are kept of n. */
  function Kept(n: nat): (k: nat)
    ensures n <= MAX_LOG ==> k == n
    ensures n > MAX_LOG ==> 4501 <= k <= 4999 && k < n
  {
    if n <= MAX_LOG then n else 4501 + (n - 5001) % 499
  }

  /** The log of a history: all of it, or the marker and the last lines. */
  function Tail(h: seq<Line>): seq<Line> {
    if |h| <= MAX_LOG then h else [MARK] + h[|h| - Kept(|h|)..]
  }

  lemma TailSnoc(h: seq<Line>, l: Line)
    ensures AppendLine(Tail(h), l) == Tail(h + [l])
  {
    var n := |h|;
    var all := h + [l];
    if n > MAX_LOG {
      KeptNext(n);
      if Kept(n) == 4999 {
        assert ([MARK] + h[n - 4999..])[500..] == h[n - 4500..];
        assert [MARK] + h[n - 4500..] + [l] == [MARK] + all[n + 1 - 4501..];
      } else {
        assert [MARK] + h[n - Kept(n)..] + [l] == [MARK] + all[n + 1 - Kept(n + 1)..];
      }
    } else if n == MAX_LOG {
      assert [MARK] + h[500..] + [l] == [MARK] + all[n + 1 - 4501..];
    }
  }

  lemma KeptNext(n: nat)
    requires n > MAX_LOG
    ensures Kept(n + 1) == if Kept(n) == 4999 then 4501 else Kept(n) + 1
  {
    var q, r := (n - 5001) / 499, (n - 5001) % 499;
    assert n - 5001 == 499 * q + r;
    if r == 498 {
      assert n + 1 - 5001 == 499 * (q + 1);
    } else {
      assert n + 1 - 5001 == 499 * q + (r + 1);
    }
  }

  lemma TailBounded(h: seq<Line>)
    ensures |Tail(h)| <= MAX_LOG
  {
  }

  /** However lines are added, the log is the tail of everything ever logged: at most 5000 entries, and once it was
      cut, the marker and at least 4501 real lines. */
  lemma {:induction false} LogIsTail(h: seq<Line>, ls: seq<Line>)
    ensures AppendLines(Tail(h), ls) == Tail(h + ls)
    ensures |Tail(h + ls)| <= MAX_LOG
    decreases |ls|
  {
    TailBounded(h + ls);
    hide Tail, AppendLine;
    if ls == [] {
      assert h + ls == h;
    } else {
      TailSnoc(h, ls[0]);
      LogIsTail(h + [ls[0]], ls[1..]);
      assert h + [ls[0]] + ls[1..] == h + ls;
    }
  }

  // ---------------------------------------------------------------- what the operations do to the state

  function Finished(s: State, now: int, status: StepStatus): State
    requires Shaped(s)
  {
    if s.cur < 0 then s
    else s.(steps := s.steps[s.cur := s.steps[s.cur].(status := status, took := now - s.stepStart[s.cur])], cur := -1)
  }

  /** The first pending step with this label, or the number of steps. */
  function Planned(steps: seq<JobStep>, label_: string): (i: nat)
    ensures i <= |steps|
    ensures i < |steps| ==> steps[i].label_ == label_ && steps[i].status == Pending
    ensures forall k :: 0 <= k < i ==> !(steps[k].label_ == label_ && steps[k].status == Pending)
  {
    if steps == [] || (steps[0].label_ == label_ && steps[0].status == Pending) then 0
    else 1 + Planned(steps[1..], label_)
  }

  function TrimLineEnds(s: string): string {
    if s != "" && s[|s| - 1] == '\n' then TrimLineEnds(s[..|s| - 1]) else s
  }

  function TextLines(level: string, text: string): seq<Line> {
    var parts := Split(TrimLineEnds(text), '\n');
    seq(|parts|, i requires 0 <= i < |parts| => Line(level, parts[i]))
  }

  datatype Op =
    | Step(label_: string, sub: string)
    | Sub(sub: string)
    | Complete(sub: string)
    | Skip(label_: string, sub: string)
    | Fail(sub: string)
    | Log(level: string, text: string)
    | Set(key: string, val: string)
    | SetStack(id: string)

  function WithSub(s: State, sub: string): State
    requires Shaped(s)
  {
    if s.cur < 0 then s else s.(steps := s.steps[s.cur := s.steps[s.cur].(sub := sub)])
  }

  function StepEffect(s: State, label_: string, sub: string, now: int): State
    requires Shaped(s)
  {
    var f := Finished(s, now, Done);
    var i := Planned(f.steps, label_);
    var steps := if i < |f.steps| then f.steps else f.steps + [JobStep(label_, "", Pending, 0)];
    var starts := if i < |f.steps| then f.stepStart else f.stepStart + [now];
    f.(steps := steps[i := steps[i].(status := Running, sub := sub)], stepStart := starts[i := now], cur := i, dirty := true)
  }

  function SkipEffect(s: State, label_: string, sub: string, now: int): State
    requires Shaped(s)
  {
    var f := Finished(s, now, Done);
    var i := Planned(f.steps, label_);
    if i < |f.steps| then f.(steps := f.steps[i := f.steps[i].(status := Skipped, sub := sub)], dirty := true)
    else f.(steps := f.steps + [JobStep(label_, sub, Skipped, 0)], stepStart := f.stepStart + [now], dirty := true)
  }

  function Effect(s: State, op: Op, now: int): State
    requires Shaped(s)
  {
    match op
    case Step(l, sub) => StepEffect(s, l, sub, now)
    case Sub(sub) => if s.cur < 0 then s else WithSub(s, sub).(dirty := true)
    case Complete(sub) => Finished(if sub == "" then s else WithSub(s, sub), now, Done).(dirty := true)
    case Skip(l, sub) => SkipEffect(s, l, sub, now)
    case Fail(sub) => Finished(WithSub(s, sub), now, Failed).(dirty := true)
    case Log(level, text) => s.(log := AppendLines(s.log, TextLines(level, text)), dirty := true)
    case Set(k, v) => s.(result := s.result[k := v], dirty := true)
    case SetStack(id) => s.(stackId := id, dirty := true)
  }

  function LinesOf(op: Op): seq<Line> { if op.Log? then TextLines(op.level, op.text) else [] }

  function Truncate(s: string, n: nat): string { if |s| <= n then s else s[..n] + "…" }

  function SkipPending(steps: seq<JobStep>): seq<JobStep> {
    seq(|steps|, i requires 0 <= i < |steps| => if steps[i].status == Pending then steps[i].(status := Skipped) else steps[i])
  }

  /** The end of run: with an error text, or without. */
  function Ended(s: State, err: Option<string>, now: int): State
    requires Shaped(s)
  {
    var f := Finished(s, now, if err.Some? then Failed else Done);
    var steps := if err.Some? && s.cur >= 0 && s.steps[s.cur].sub == ""
                 then f.steps[s.cur := f.steps[s.cur].(sub := Truncate(err.value, 200))] else f.steps;
    var g := f.(steps := SkipPending(steps), cur := -1, finished := Some(now), status := if err.Some? then Failure else Success);
    if err.Some? then g.(log := AppendLine(s.log, Line("error", err.value)), dirty := true) else g
  }

  function Begun(plan: seq<string>, hostId: string): State {
    State(seq(|plan|, i requires 0 <= i < |plan| => JobStep(plan[i], "", Pending, 0)), seq(|plan|, _ => 0), -1, [],
          if hostId == "" then map[] else map["hostId" := hostId], "", Active, None, false, None, false, false)
  }

  // ---------------------------------------------------------------- the steps stay sound

  lemma BegunIsSound(plan: seq<string>, hostId: string)
    ensures Sound(Begun(plan, hostId))
  {
  }

  lemma FinishedStep(s: State, now: int, status: StepStatus)
    requires Sound(s) && status in {Done, Failed} && s.finished.None?
    ensures Sound(Finished(s, now, status)) && Evolves(s, Finished(s, now, status)) && Finished(s, now, status).cur == -1
  {
  }

  lemma EvolvesTrans(a: State, b: State, c: State)
    requires Evolves(a, b) && Evolves(b, c)
    ensures Evolves(a, c)
  {
  }

  lemma WithSubSound(s: State, sub: string)
    requires Sound(s) && s.finished.None?
    ensures Sound(WithSub(s, sub)) && Evolves(s, WithSub(s, sub)) && WithSub(s, sub).finished.None?
  {
  }

  /** Finishing the current step after perhaps setting its text. */
  lemma FinishKeepsSound(s: State, u: State, now: int, status: StepStatus)
    requires Sound(s) && s.finished.None? && Sound(u) && Evolves(s, u) && u.finished.None? && status in {Done, Failed}
    ensures var t := Finished(u, now, status).(dirty := true); Sound(t) && Evolves(s, t) && t.finished.None?
  {
    FinishedStep(u, now, status);
    EvolvesTrans(s, u, Finished(u, now, status));
    assert Finished(u, now, status).finished == u.finished;
    DirtyIsFree(Finished(u, now, status));
    EvolvesTrans(s, Finished(u, now, status), Finished(u, now, status).(dirty := true));
    hide Sound, Evolves, Finished;
  }

  lemma DirtyIsFree(s: State)
    requires Sound(s)
    ensures Sound(s.(dirty := true)) && Evolves(s, s.(dirty := true))
  {
  }

  lemma EvolvesSelf(s: State)
    ensures Evolves(s, s)
  {
  }

  lemma OtherFieldsAreFree(s: State, log: seq<Line>, result: map<string, string>, id: string)
    requires Sound(s)
    ensures var t := s.(log := log, result := result, stackId := id, dirty := true); Sound(t) && Evolves(s, t)
  {
  }

  lemma OpKeepsSound(s: State, op: Op, now: int)
    requires Sound(s) && s.finished.None?
    ensures var t := Effect(s, op, now);
            Sound(t) && Evolves(s, t) && t.finished.None? && (op.Step? ==> t.cur >= 0 && t.steps[t.cur].label_ == op.label_)
  {
    assert Shaped(s);
    hide Sound, Evolves, Finished, WithSub, StepEffect, SkipEffect, AppendLines, TextLines;
    EvolvesSelf(s);
    match op
    case Step(l, sub) =>
      AfterFinish(s, now);
      StepKeepsSound(s, l, sub, now);
    case Skip(l, sub) =>
      AfterFinish(s, now);
      SkipKeepsSound(s, l, sub, now);
    case Sub(sub) =>
      WithSubSound(s, sub);
      DirtyIsFree(WithSub(s, sub));
      EvolvesTrans(s, WithSub(s, sub), WithSub(s, sub).(dirty := true));
    case Complete(sub) =>
      WithSubSound(s, sub);
      FinishKeepsSound(s, if sub == "" then s else WithSub(s, sub), now, Done);
    case Fail(sub) =>
      WithSubSound(s, sub);
      FinishKeepsSound(s, WithSub(s, sub), now, Failed);
    case Log(level, text) =>
      OtherFieldsAreFree(s, AppendLines(s.log, TextLines(level, text)), s.result, s.stackId);
    case Set(k, v) =>
      OtherFieldsAreFree(s, s.log, s.result[k := v], s.stackId);
    case SetStack(id) =>
      OtherFieldsAreFree(s, s.log, s.result, id);
  }

  lemma AfterFinish(s: State, now: int)
    requires Sound(s) && s.finished.None?
    ensures var f := Finished(s, now, Done); Sound(f) && Evolves(s, f) && f.finished.None? && f.cur == -1 && Shaped(f)
  {
    FinishedStep(s, now, Done);
  }

  lemma StepKeepsSound(s: State, label_: string, sub: string, now: int)
    requires Sound(s) && s.finished.None?
    ensures var t := StepEffect(s, label_, sub, now);
            Sound(t) && Evolves(s, t) && t.finished.None? && t.cur >= 0 && t.steps[t.cur].label_ == label_
  {
    AfterFinish(s, now);
    var f := Finished(s, now, Done);
    hide Finished;
    assert Evolves(f, StepEffect(s, label_, sub, now));
    EvolvesTrans(s, f, StepEffect(s, label_, sub, now));
  }

  lemma SkipKeepsSound(s: State, label_: string, sub: string, now: int)
    requires Sound(s) && s.finished.None?
    ensures var t := SkipEffect(s, label_, sub, now); Sound(t) && Evolves(s, t) && t.finished.None?
  {
    AfterFinish(s, now);
    var f := Finished(s, now, Done);
    hide Finished;
    assert Evolves(f, SkipEffect(s, label_, sub, now));
    EvolvesTrans(s, f, SkipEffect(s, label_, sub, now));
  }

  /** After the end no step is pending or running, and only the running and the pending steps have changed. */
  lemma EndKeepsSound(s: State, err: Option<string>, now: int)
    requires Sound(s) && s.finished.None?
    ensures var t := Ended(s, err, now);
            && Sound(t) && Evolves(s, t) && t.finished == Some(now) && |t.steps| == |s.steps|
            && forall i :: 0 <= i < |s.steps| ==>
                 t.steps[i].status == match s.steps[i].status
                                      case Running => if err.Some? then Failed else Done
                                      case Pending => Skipped
                                      case other => other
  {
    FinishedStep(s, now, if err.Some? then Failed else Done);
  }

  // ---------------------------------------------------------------- flushing

  /** What a write takes along. */
  datatype Snap = Snap(steps: seq<JobStep>, log: seq<Line>, result: map<string, string>, status: Status, finished: Option<int>,
                       stackId: string)

  function SnapOf(s: State): Snap { Snap(s.steps, s.log, s.result, s.status, s.finished, s.stackId) }

  /** The first region of flush either takes what to write or gives up, perhaps leaving a timer behind. */
  datatype Entered = Write(snap: Snap) | GiveUp(arm: bool)

  function Enter(s: State, force: bool, now: int): (State, Entered) {
    if !s.dirty || s.flushing || (!force && s.lastFlush.Some? && now - s.lastFlush.value < FLUSH_EVERY) then
      (s.(scheduled := s.scheduled || s.dirty), GiveUp(s.dirty && !s.scheduled))
    else (s.(flushing := true, dirty := false, lastFlush := Some(now)), Write(SnapOf(s)))
  }

  /** The second region: whether to flush once more. */
  function Exit(s: State): (State, bool) { (s.(flushing := false), s.dirty && s.finished.Some?) }

  function Fired(s: State): State { s.(scheduled := false) }

  /** An operation is followed by a flush, forced or not, or by none. */
  datatype Follow = Forced | Lazy | NoFlush

  function FollowOf(op: Op): Follow {
    match op
    case Sub(_) => Lazy
    case Log(_, _) => Lazy
    case Set(_, _) => NoFlush
    case _ => Forced
  }

  // ---------------------------------------------------------------- the job object

  class Job {
    var steps: seq<JobStep>
    var stepStart: seq<int>
    var cur: int
    var log: seq<Line>
    var result: map<string, string>
    var stackId: string
    var status: Status
    var finished: Option<int>
    var dirty: bool
    var lastFlush: Option<int>
    var flushing: bool
    var scheduled: bool

    function View(): State
      reads this
    {
      State(steps, stepStart, cur, log, result, stackId, status, finished, dirty, lastFlush, flushing, scheduled)
    }

    constructor (plan: seq<string>, hostId: string)
      ensures View() == Begun(plan, hostId)
      ensures |steps| == |plan| && forall i :: 0 <= i < |plan| ==> steps[i] == JobStep(plan[i], "", Pending, 0)
      ensures status == Active && finished.None? && cur == -1 && log == [] && !dirty
      ensures result == if hostId == "" then map[] else map["hostId" := hostId]
    {
      steps, stepStart, cur, log, result := [], [], -1, [], map[];
      stackId, status, finished, dirty, lastFlush, flushing, scheduled := "", Active, None, false, None, false, false;
      new;
      for i := 0 to |plan|
        invariant View() == Begun(plan[..i], "")
      {
        steps := steps + [JobStep(plan[i], "", Pending, 0)];
        stepStart := stepStart + [0];
        assert steps == Begun(plan[..i + 1], "").steps && stepStart == Begun(plan[..i + 1], "").stepStart;
      }
      assert plan[..|plan|] == plan;
      if hostId != "" {
        result := result["hostId" := hostId];
      }
    }

    method FinishCurrent(now: int, s: StepStatus)
      requires Shaped(View())
      modifies this`steps, this`cur
      ensures View() == Finished(old(View()), now, s)
    {
      if cur >= 0 {
        steps := steps[cur := steps[cur].(status := s)];
        steps := steps[cur := steps[cur].(took := now - stepStart[cur])];
        cur := -1;
      }
    }

    /** Where a pending step with this label is. */
    method FindPlanned(label_: string) returns (i: nat)
      ensures i == Planned(steps, label_)
    {
      i := 0;
      while i < |steps| && !(steps[i].label_ == label_ && steps[i].status == Pending)
        invariant i <= |steps| && Planned(steps, label_) == i + Planned(steps[i..], label_)
      {
        assert steps[i..][1..] == steps[i + 1..];
        i := i + 1;
      }
    }

    method Step(label_: string, sub: string, now: int)
      requires Shaped(View())
      modifies this`steps, this`stepStart, this`cur, this`dirty
      ensures View() == Effect(old(View()), Op.Step(label_, sub), now)
    {
      FinishCurrent(now, Done);
      var i := FindPlanned(label_);
      if i == |steps| {
        steps := steps + [JobStep(label_, "", Pending, 0)];
        stepStart := stepStart + [now];
      }
      steps := steps[i := steps[i].(status := Running)];
      steps := steps[i := steps[i].(sub := sub)];
      stepStart := stepStart[i := now];
      cur, dirty := i, true;
    }

    method Sub(sub: string)
      requires Shaped(View())
      modifies this`steps, this`dirty
      ensures View() == Effect(old(View()), Op.Sub(sub), 0)
    {
      if cur >= 0 {
        steps := steps[cur := steps[cur].(sub := sub)];
        dirty := true;
      }
    }

    method Complete(sub: string, now: int)
      requires Shaped(View())
      modifies this`steps, this`cur, this`dirty
      ensures View() == Effect(old(View()), Op.Complete(sub), now)
    {
      if cur >= 0 && sub != "" {
        steps := steps[cur := steps[cur].(sub := sub)];
      }
      FinishCurrent(now, Done);
      dirty := true;
    }

    method Skip(label_: string, sub: string, now: int)
      requires Shaped(View())
      modifies this`steps, this`stepStart, this`cur, this`dirty
      ensures View() == Effect(old(View()), Op.Skip(label_, sub), now)
    {
      FinishCurrent(now, Done);
      var i := FindPlanned(label_);
      if i < |steps| {
        steps := steps[i := steps[i].(status := Skipped, sub := sub)];
      } else {
        steps := steps + [JobStep(label_, sub, Skipped, 0)];
        stepStart := stepStart + [now];
      }
      dirty := true;
    }

    method Fail(sub: string, now: int)
      requires Shaped(View())
      modifies this`steps, this`cur, this`dirty
      ensures View() == Effect(old(View()), Op.Fail(sub), now)
    {
      if cur >= 0 {
        steps := steps[cur := steps[cur].(sub := sub)];
      }
      FinishCurrent(now, Failed);
      dirty := true;
    }

    method Append(level: string, text: string)
      modifies this`log, this`dirty
      ensures log == AppendLine(old(log), Line(level, text)) && dirty
    {
      if |log| >= MAX_LOG {
        var keep := log[|log| - MAX_LOG + 500..];
        log := [MARK] + keep;
      }
      log := log + [Line(level, text)];
      dirty := true;
    }

    method Log(level: string, text: string)
      requires Shaped(View())
      modifies this`log, this`dirty
      ensures View() == Effect(old(View()), Op.Log(level, text), 0)
    {
      var parts := Split(TrimLineEnds(text), '\n');
      ghost var ls := TextLines(level, text);
      for i := 0 to |parts|
        invariant AppendLines(log, ls[i..]) == AppendLines(old(log), ls)
        invariant i > 0 ==> dirty
        invariant View() == old(View()).(log := log, dirty := dirty)
      {
        assert ls[i..][1..] == ls[i + 1..];
        Append(level, parts[i]);
      }
    }

    method Set(k: string, v: string)
      requires Shaped(View())
      modifies this`result, this`dirty
      ensures View() == Effect(old(View()), Op.Set(k, v), 0)
    {
      result := result[k := v];
      dirty := true;
    }

    method SetStack(id: string)
      requires Shaped(View())
      modifies this`stackId, this`dirty
      ensures View() == Effect(old(View()), Op.SetStack(id), 0)
    {
      stackId := id;
      dirty := true;
    }

    method SkipRest()
      modifies this`steps
      ensures steps == SkipPending(old(steps))
    {
      for i := 0 to |steps|
        invariant |steps| == |old(steps)|
        invariant forall k :: 0 <= k < |steps| ==> steps[k] == if k < i then SkipPending(old(steps))[k] else old(steps)[k]
      {
        if steps[i].status == Pending {
          steps := steps[i := steps[i].(status := Skipped)];
        }
      }
    }

    method MarkCurrent(s: StepStatus, now: int)
      requires Shaped(View())
      modifies this`steps
      ensures View() == old(View()).(steps := Finished(old(View()), now, s).steps)
    {
      if cur >= 0 {
        steps := steps[cur := steps[cur].(status := s)];
        steps := steps[cur := steps[cur].(took := now - stepStart[cur])];
      }
    }

    /** The region of run after the work has returned. */
    method End(err: Option<string>, now: int)
      requires Shaped(View())
      modifies this`steps, this`cur, this`log, this`status, this`finished, this`dirty
      ensures View() == Ended(old(View()), err, now)
    {
      MarkCurrent(if err.Some? then Failed else Done, now);
      ghost var marked := steps;
      if err.Some? {
        if cur >= 0 && steps[cur].sub == "" {
          steps := steps[cur := steps[cur].(sub := Truncate(err.value, 200))];
        }
        hide Finished, SkipPending, AppendLine, Truncate;
        SkipRest();
        Append("error", err.value);
        status := Failure;
      } else {
        hide Finished, SkipPending, AppendLine, Truncate;
        SkipRest();
        status := Success;
      }
      cur, finished := -1, Some(now);
    }

    method FlushEnter(force: bool, now: int) returns (r: Entered)
      modifies this`scheduled, this`flushing, this`dirty, this`lastFlush
      ensures (View(), r) == Enter(old(View()), force, now)
    {
      if !dirty || flushing || (!force && lastFlush.Some? && now - lastFlush.value < FLUSH_EVERY) {
        var schedule := dirty && !scheduled;
        if schedule {
          scheduled := true;
        }
        return GiveUp(schedule);
      }
      flushing, dirty, lastFlush := true, false, Some(now);
      return Write(Snap(steps, log, result, status, finished, stackId));
    }

    method FlushExit() returns (again: bool)
      modifies this`flushing
      ensures (View(), again) == Exit(old(View()))
    {
      flushing := false;
      again := dirty && finished.Some?;
    }

    method TimerFired()
      modifies this`scheduled
      ensures View() == Fired(old(View()))
    {
      scheduled := false;
    }
  }

  // ---------------------------------------------------------------- all interleavings

  /** The job's row in the table. */
  datatype Row = Row(steps: seq<JobStep>, log: seq<Line>, result: map<string, string>, status: Status, finished: Option<int>,
                     stack: string)

  /** The UPDATE statement; an empty stack id keeps the column. */
  function Written(row: Row, w: Snap): Row {
    Row(w.steps, w.log, w.result, w.status, w.finished, if w.stackId == "" then row.stack else w.stackId)
  }

  /** The row holds what the snapshot says. */
  predicate Holds(row: Row, w: Snap) {
    && row.steps == w.steps && row.log == w.log && row.result == w.result && row.status == w.status
    && row.finished == w.finished && (w.stackId != "" ==> row.stack == w.stackId)
  }

  /** A flush between its two regions: what it writes, which change number that has, and whether the statement
      was run. */
  datatype Writer = Writer(snap: Snap, version: nat, ran: bool)

  /** The job, its row, flush calls not yet begun, writers, armed timers, the number of changes so far, the number
      that the row holds, and everything ever logged. lost: the last write failed; wanted: something was left to
      write when the job ended. */
  datatype Sys = Sys(job: State, row: Row, forced: nat, lazy: nat, writers: seq<Writer>, timers: nat, version: nat,
                     rowVersion: nat, history: seq<Line>, lost: bool, wanted: bool)

  datatype Event =
    | Change(op: Op, at: int)
    | End(err: Option<string>, at: int)
    | EnterForced(at: int)
    | EnterLazy(at: int)
    | Run(i: nat, ok: bool)
    | Leave(i: nat)
    | Fire

  /** Operations come from the job's own work, so none comes after its end. */
  predicate Enabled(s: Sys, e: Event) {
    match e
    case Change(_, _) => s.job.finished.None?
    case End(_, _) => s.job.finished.None?
    case EnterForced(_) => s.forced > 0
    case EnterLazy(_) => s.lazy > 0
    case Run(i, _) => i < |s.writers| && !s.writers[i].ran
    case Leave(i) => i < |s.writers| && s.writers[i].ran
    case Fire => s.timers > 0
  }

  function Entering(s: Sys, force: bool, now: int): Sys {
    var (job, r) := Enter(s.job, force, now);
    match r
    case Write(snap) => s.(job := job, writers := s.writers + [Writer(snap, s.version, false)])
    case GiveUp(arm) => s.(job := job, timers := if arm then s.timers + 1 else s.timers)
  }

  function Next(s: Sys, e: Event): Sys
    requires Enabled(s, e) && Shaped(s.job)
  {
    match e
    case Change(op, now) =>
      s.(job := Effect(s.job, op, now), version := s.version + 1, history := s.history + LinesOf(op),
         forced := if FollowOf(op) == Forced then s.forced + 1 else s.forced,
         lazy := if FollowOf(op) == Lazy then s.lazy + 1 else s.lazy)
    case End(err, now) =>
      var job := Ended(s.job, err, now);
      s.(job := job, version := s.version + 1, forced := s.forced + 1, wanted := job.dirty,
         history := if err.Some? then s.history + [Line("error", err.value)] else s.history)
    case EnterForced(now) => Entering(s.(forced := s.forced - 1), true, now)
    case EnterLazy(now) => Entering(s.(lazy := s.lazy - 1), false, now)
    case Run(i, ok) =>
      var w := s.writers[i];
      var t := s.(writers := s.writers[i := w.(ran := true)], lost := !ok);
      if ok then t.(row := Written(s.row, w.snap), rowVersion := w.version) else t
    case Leave(i) =>
      var (job, again) := Exit(s.job);
      s.(job := job, writers := s.writers[..i] + s.writers[i + 1..], forced := if again then s.forced + 1 else s.forced)
    case Fire => s.(job := Fired(s.job), timers := s.timers - 1, lazy := s.lazy + 1)
  }

  function Fresh(plan: seq<string>, hostId: string, stack: string): Sys {
    var job := Begun(plan, hostId);
    Sys(job, Row(job.steps, [], map[], Active, None, stack), 0, 0, [], 0, 0, 0, [], false, false)
  }

  /** Something will still flush. */
  predicate Busy(s: Sys) { s.forced + s.lazy + |s.writers| + s.timers > 0 }

  /** The snapshot that a writer carries or that was written last is what memory holds, unless memory is dirty. */
  ghost predicate UpToDate(s: Sys) {
    !s.job.dirty ==>
      if s.writers != [] && !s.writers[0].ran then s.writers[0].snap == SnapOf(s.job)
      else s.lost || Holds(s.row, SnapOf(s.job))
  }

  /** Nothing of the end of the job was ever written or is about to be. */
  predicate StillActive(s: Sys) { s.row.status == Active && (s.writers != [] && !s.writers[0].ran ==> s.writers[0].snap.status == Active) }

  ghost predicate Inv(s: Sys) {
    && Sound(s.job)
    && s.job.log == Tail(s.history)
    // one write at a time, and the flags say what is under way
    && |s.writers| == (if s.job.flushing then 1 else 0)
    && s.timers == (if s.job.scheduled then 1 else 0)
    // writes only move forward
    && s.rowVersion <= s.version
    && (s.writers != [] ==> s.rowVersion <= s.writers[0].version <= s.version)
    // what is left to write will be written
    && (s.job.finished.Some? && s.job.dirty ==> Busy(s))
    && (s.job.finished.Some? && s.wanted ==> UpToDate(s))
    && (s.job.finished.Some? && !s.wanted ==> !s.job.dirty)
    && (s.job.finished.None? || !s.wanted ==> StillActive(s))
  }

  lemma FreshInv(plan: seq<string>, hostId: string, stack: string)
    ensures Inv(Fresh(plan, hostId, stack))
  {
    BegunIsSound(plan, hostId);
  }

  lemma ChangeKeeps(s: Sys, e: Event)
    requires Inv(s) && Enabled(s, e) && e.Change?
    ensures Inv(Next(s, e)) && Evolves(s.job, Next(s, e).job)
  {
    OpKeepsSound(s.job, e.op, e.at);
    LogIsTail(s.history, LinesOf(e.op));
    EffectRest(s.job, e.op, e.at);
    hide Sound, Evolves, Effect, Tail;
  }

  /** An operation does not touch the fields of flush, the status or, unless it logs, the log. */
  lemma EffectRest(s: State, op: Op, now: int)
    requires Shaped(s)
    ensures var t := Effect(s, op, now);
            SameFlags(s, t) && t.log == AppendLines(s.log, LinesOf(op)) && (s.dirty ==> t.dirty)
  {
    hide AppendLines, Planned, TextLines;
    assert AppendLines(s.log, []) == s.log by { NoLines(s.log); }
    if op.Step? {
      StepRest(s, op.label_, op.sub, now);
      hide StepEffect;
    } else if op.Skip? {
      SkipRest(s, op.label_, op.sub, now);
      hide SkipEffect;
    }
  }

  predicate SameFlags(s: State, t: State) {
    t.flushing == s.flushing && t.scheduled == s.scheduled && t.status == s.status && t.finished == s.finished
  }

  lemma NoLines(log: seq<Line>)
    ensures AppendLines(log, []) == log
  {
  }

  lemma StepRest(s: State, label_: string, sub: string, now: int)
    requires Shaped(s)
    ensures var t := StepEffect(s, label_, sub, now); SameFlags(s, t) && t.log == s.log && t.dirty
  {
  }

  lemma SkipRest(s: State, label_: string, sub: string, now: int)
    requires Shaped(s)
    ensures var t := SkipEffect(s, label_, sub, now); SameFlags(s, t) && t.log == s.log && t.dirty
  {
  }

  lemma EndKeeps(s: Sys, e: Event)
    requires Inv(s) && Enabled(s, e) && e.End?
    ensures Inv(Next(s, e)) && Evolves(s.job, Next(s, e).job)
  {
    EndKeepsSound(s.job, e.err, e.at);
    if e.err.Some? {
      TailSnoc(s.history, Line("error", e.err.value));
    }
    hide Sound, Evolves, Tail;
  }

  lemma EnterKeeps(s: Sys, force: bool, now: int)
    requires Inv(s.(forced := s.forced + if force then 1 else 0, lazy := s.lazy + if force then 0 else 1))
    ensures Inv(Entering(s, force, now)) && Evolves(s.job, Entering(s, force, now).job)
  {
  }

  lemma RestKeeps(s: Sys, e: Event)
    requires Inv(s) && Enabled(s, e) && (e.Run? || e.Leave? || e.Fire?)
    ensures Inv(Next(s, e)) && Evolves(s.job, Next(s, e).job)
  {
  }

  lemma StepKeeps(s: Sys, e: Event)
    requires Inv(s) && Enabled(s, e)
    ensures Inv(Next(s, e)) && Evolves(s.job, Next(s, e).job)
    ensures s.rowVersion <= Next(s, e).rowVersion
  {
    hide Sound, Evolves, UpToDate, StillActive, Effect, Ended, Tail, Written;
    match e
    case Change(_, _) => ChangeKeeps(s, e);
    case End(_, _) => EndKeeps(s, e);
    case EnterForced(now) => EnterKeeps(s.(forced := s.forced - 1), true, now);
    case EnterLazy(now) => EnterKeeps(s.(lazy := s.lazy - 1), false, now);
    case _ => RestKeeps(s, e);
  }

  ghost predicate Possible(s: Sys, es: seq<Event>)
    decreases |es|
  {
    es == [] || (Enabled(s, es[0]) && Shaped(s.job) && Possible(Next(s, es[0]), es[1..]))
  }

  function After(s: Sys, es: seq<Event>): Sys
    requires Possible(s, es)
    decreases |es|
  {
    if es == [] then s else After(Next(s, es[0]), es[1..])
  }

  /** In every interleaving: the steps are sound, the log is the tail of what was logged, at most one write is in
      flight, the row only moves to later versions, and steps and statuses only evolve. */
  lemma {:induction false} RunsKeep(s: Sys, es: seq<Event>)
    requires Inv(s) && Possible(s, es)
    ensures Inv(After(s, es)) && Evolves(s.job, After(s, es).job) && s.rowVersion <= After(s, es).rowVersion
    decreases |es|
  {
    if es != [] {
      StepKeeps(s, es[0]);
      RunsKeep(Next(s, es[0]), es[1..]);
      EvolvesTrans(s.job, Next(s, es[0]).job, After(s, es).job);
    }
  }

  lemma OneWriteAtATime(plan: seq<string>, hostId: string, stack: string, es: seq<Event>)
    requires Possible(Fresh(plan, hostId, stack), es)
    ensures var s := After(Fresh(plan, hostId, stack), es);
            && |s.writers| <= 1 && s.timers <= 1 && Sound(s.job) && s.job.log == Tail(s.history) && |s.job.log| <= MAX_LOG
  {
    FreshInv(plan, hostId, stack);
    RunsKeep(Fresh(plan, hostId, stack), es);
    var s := After(Fresh(plan, hostId, stack), es);
    LogIsTail(s.history, []);
    assert s.history + [] == s.history;
  }

  lemma WantedStep(s: Sys, e: Event)
    requires Shaped(s.job) && Enabled(s, e) && s.job.finished.Some?
    ensures Next(s, e).wanted == s.wanted && SnapOf(Next(s, e).job) == SnapOf(s.job) && Next(s, e).job.finished.Some?
  {
  }

  lemma {:induction false} WantedStays(s: Sys, es: seq<Event>)
    requires Inv(s) && Possible(s, es) && s.job.finished.Some?
    ensures After(s, es).wanted == s.wanted && SnapOf(After(s, es).job) == SnapOf(s.job)
    decreases |es|
  {
    if es != [] {
      StepKeeps(s, es[0]);
      WantedStep(s, es[0]);
      hide Inv, Next, Enabled;
      WantedStays(Next(s, es[0]), es[1..]);
    }
  }

  /** Once everything has drained after the end of a job, and the last write did not fail, the row holds what
      memory holds exactly when the job failed or something was still to be written when it ended. */
  lemma RowEqualsMemory(plan: seq<string>, hostId: string, stack: string, before: seq<Event>, err: Option<string>, now: int,
                        after: seq<Event>)
    requires var s := Fresh(plan, hostId, stack);
             && Possible(s, before) && Enabled(After(s, before), End(err, now)) && Shaped(After(s, before).job)
             && Possible(Next(After(s, before), End(err, now)), after)
    ensures var mid := After(Fresh(plan, hostId, stack), before);
            var s := After(Next(mid, End(err, now)), after);
            !Busy(s) && !s.lost ==> (Holds(s.row, SnapOf(s.job)) <==> err.Some? || mid.job.dirty)
  {
    FreshInv(plan, hostId, stack);
    RunsKeep(Fresh(plan, hostId, stack), before);
    var mid := After(Fresh(plan, hostId, stack), before);
    var t := Next(mid, End(err, now));
    StepKeeps(mid, End(err, now));
    RunsKeep(t, after);
    WantedStays(t, after);
  }

  lemma OneMore(s: Sys, e: Event, es: seq<Event>)
    requires Enabled(s, e) && Shaped(s.job) && Possible(Next(s, e), es)
    ensures Possible(s, [e] + es) && After(s, [e] + es) == After(Next(s, e), es)
  {
    assert ([e] + es)[1..] == es;
  }

  /** A job that has flushed everything, or never had anything to flush, and then ends without an error: nothing
      will flush again and its row still says "running". */
  lemma CleanSuccessIsNotWritten(s: Sys, now: int)
    requires Inv(s) && !Busy(s) && s.job.finished.None? && !s.job.dirty
    ensures var es := [End(None, now), EnterForced(now)];
            Possible(s, es) &&
            var t := After(s, es);
            !Busy(t) && t.row == s.row && t.row.status == Active && t.job.status == Success
  {
    var t := Next(s, End(None, now));
    StepKeeps(s, End(None, now));
    OneMore(t, EnterForced(now), []);
    OneMore(s, End(None, now), [EnterForced(now)] + []);
    assert [End(None, now)] + ([EnterForced(now)] + []) == [End(None, now), EnterForced(now)];
  }
}
