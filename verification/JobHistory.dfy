/** What a recorded job says, in terms of the calls that its work made and of how that work returned
    (jobs/jobs.go). */
module JobHistory {
  import opened Wrappers
  import opened Strings
  import opened Jobs

  // ---------------------------------------------------------------- how a job ends

  /** An error's text, or its first 200 characters with an ellipsis. */
  ghost predicate ShownError(sub: string, text: string) {
    if |text| <= 200 then sub == text else |sub| == 201 && sub[..200] == text[..200] && sub[200] == '…'
  }

  /** What is to be read of a job whose work returned at `now`, with an error or without; `mid` is the job just
      before. */
  ghost predicate Tells(status: Status, finished: Option<int>, steps: seq<JobStep>, log: seq<Line>, mid: State,
                        err: Option<string>, now: int)
    requires Shaped(mid)
  {
    && (status == Failure <==> err.Some?) && (status == Success <==> err.None?) && finished == Some(now)
    && |steps| == |mid.steps|
    && (err.Some? ==> log != [] && log[|log| - 1] == Line("error", err.value))
    && (err.None? ==> log == mid.log)
    && (mid.cur >= 0 ==>
          var x, y := mid.steps[mid.cur], steps[mid.cur];
          && y.label_ == x.label_ && y.took == now - mid.stepStart[mid.cur]
          && y.status == (if err.Some? then Failed else Done)
          && (if err.Some? && x.sub == "" then ShownError(y.sub, err.value) else y.sub == x.sub))
    && forall i :: 0 <= i < |steps| && i != mid.cur ==>
         steps[i] == if mid.steps[i].status == Pending then mid.steps[i].(status := Skipped) else mid.steps[i]
  }

  lemma EndTells(s: State, err: Option<string>, now: int)
    requires Sound(s) && s.finished.None?
    ensures var t := Ended(s, err, now);
            && Tells(t.status, t.finished, t.steps, t.log, s, err, now)
            && t.result == s.result && t.stackId == s.stackId
  {
  }

  /** In every run that holds the end of the job: memory, and the row whenever it holds what memory does, say
      whether and with which error the work returned, and what became of every step. */
  lemma EndIsRecorded(plan: seq<string>, hostId: string, stack: string, before: seq<Event>, err: Option<string>, now: int,
                      after: seq<Event>)
    requires var s := Fresh(plan, hostId, stack);
             && Possible(s, before) && Enabled(After(s, before), End(err, now)) && Shaped(After(s, before).job)
             && Possible(Next(After(s, before), End(err, now)), after)
    ensures var mid := After(Fresh(plan, hostId, stack), before);
            var s := After(Next(mid, End(err, now)), after);
            && Tells(s.job.status, s.job.finished, s.job.steps, s.job.log, mid.job, err, now)
            && (Holds(s.row, SnapOf(s.job)) ==> Tells(s.row.status, s.row.finished, s.row.steps, s.row.log, mid.job, err, now))
            && s.job.result == mid.job.result && s.job.stackId == mid.job.stackId
  {
    FreshInv(plan, hostId, stack);
    RunsKeep(Fresh(plan, hostId, stack), before);
    var mid := After(Fresh(plan, hostId, stack), before);
    StepKeeps(mid, End(err, now));
    EndTells(mid.job, err, now);
    WantedStays(Next(mid, End(err, now)), after);
    hide Tells, Inv, Sound;
  }

  // ---------------------------------------------------------------- what one call does

  predicate EndsStep(op: Op) { op.Step? || op.Complete? || op.Skip? || op.Fail? }

  /** The text of the running step after a call. */
  function SubAfter(op: Op, sub: string): string {
    match op
    case Sub(s) => s
    case Fail(s) => s
    case Complete(s) => if s != "" then s else sub
    case _ => sub
  }

  /** Where Step and Skip record: the first pending step with their label, or a new one. */
  ghost predicate RecordsAt(s: State, label_: string, i: nat) {
    && i <= |s.steps|
    && (i < |s.steps| ==> s.steps[i].status == Pending && s.steps[i].label_ == label_)
    && forall k :: 0 <= k < i ==> !(s.steps[k].status == Pending && s.steps[k].label_ == label_)
  }

  /** What a call makes of the running step. */
  ghost predicate RunningTells(s: State, t: State, op: Op, now: int)
    requires Shaped(s) && 0 <= s.cur < |t.steps|
  {
    var x, y := s.steps[s.cur], t.steps[s.cur];
    && y.label_ == x.label_ && y.sub == SubAfter(op, x.sub)
    && (if EndsStep(op) then y.status == (if op.Fail? then Failed else Done) && y.took == now - s.stepStart[s.cur]
        else y.status == Running && y.took == x.took)
  }

  /** What Step and Skip record at their place. */
  ghost predicate PlaceTells(t: State, op: Op, now: int, i: nat)
    requires op.Step? || op.Skip?
  {
    && i < |t.steps| == |t.stepStart|
    && t.steps[i].label_ == op.label_ && t.steps[i].sub == op.sub
    && t.steps[i].status == (if op.Step? then Running else Skipped)
    && (op.Step? ==> t.stepStart[i] == now)
    && t.cur == if op.Step? then i else -1
  }

  ghost predicate OthersKept(s: State, t: State, i: nat) {
    && |s.steps| == |s.stepStart| <= |t.steps| == |t.stepStart|
    && forall k :: 0 <= k < |s.steps| && k != i ==>
         t.stepStart[k] == s.stepStart[k] && (k != s.cur ==> t.steps[k] == s.steps[k])
  }

  /** A call ends the running step with its duration or changes its text, opens or skips the step it names, and
      leaves every other step alone. */
  lemma CallRecords(s: State, op: Op, now: int) returns (i: nat)
    requires Sound(s) && s.finished.None?
    ensures var t := Effect(s, op, now);
            && OthersKept(s, t, i) && (s.cur >= 0 ==> RunningTells(s, t, op, now))
            && (op.Step? || op.Skip? ==>
                  RecordsAt(s, op.label_, i) && PlaceTells(t, op, now, i) && |t.steps| == if i < |s.steps| then |s.steps| else i + 1)
            && (!op.Step? && !op.Skip? ==> i == |s.steps| == |t.steps| && t.cur == if EndsStep(op) then -1 else s.cur)
  {
    hide Effect, RecordsAt, PlaceTells, OthersKept, RunningTells;
    i := |s.steps|;
    if op.Step? || op.Skip? {
      i := Planned(Finished(s, now, Done).steps, op.label_);
      PlannedBefore(s, op.label_, now);
      if op.Step? {
        StepRecords(s, op, now);
      } else {
        SkipRecords(s, op, now);
      }
    } else {
      OtherRecords(s, op, now);
    }
  }

  lemma PlannedBefore(s: State, label_: string, now: int)
    requires Sound(s)
    ensures RecordsAt(s, label_, Planned(Finished(s, now, Done).steps, label_))
  {
    var f := Finished(s, now, Done).steps;
    forall k | 0 <= k < Planned(f, label_) ensures !(s.steps[k].status == Pending && s.steps[k].label_ == label_) {
      assert k != s.cur ==> f[k] == s.steps[k];
    }
  }

  lemma OtherRecords(s: State, op: Op, now: int)
    requires Sound(s) && !op.Step? && !op.Skip?
    ensures var t := Effect(s, op, now);
            && OthersKept(s, t, |s.steps|) && (s.cur >= 0 ==> RunningTells(s, t, op, now))
            && |t.steps| == |s.steps| && t.cur == if EndsStep(op) then -1 else s.cur
  {
    hide AppendLines, TextLines, StepEffect, SkipEffect, Planned, OthersKept, RunningTells;
    assert Shaped(s);
    if op.Complete? || op.Fail? {
      EndRecords(s, op, now);
    } else {
      RestRecords(s, op, now);
    }
  }

  lemma EndRecords(s: State, op: Op, now: int)
    requires Shaped(s) && (op.Complete? || op.Fail?)
    ensures var t := Effect(s, op, now);
            && OthersKept(s, t, |s.steps|) && (s.cur >= 0 ==> RunningTells(s, t, op, now))
            && |t.steps| == |s.steps| && t.cur == -1
  {
  }

  lemma RestRecords(s: State, op: Op, now: int)
    requires Sound(s) && !EndsStep(op)
    ensures var t := Effect(s, op, now);
            && OthersKept(s, t, |s.steps|) && (s.cur >= 0 ==> RunningTells(s, t, op, now))
            && |t.steps| == |s.steps| && t.cur == s.cur
  {
    hide AppendLines, TextLines;
  }

  lemma StepRecords(s: State, op: Op, now: int)
    requires Sound(s) && op.Step?
    ensures var t, i := Effect(s, op, now), Planned(Finished(s, now, Done).steps, op.label_);
            && OthersKept(s, t, i) && PlaceTells(t, op, now, i) && (s.cur >= 0 ==> RunningTells(s, t, op, now))
            && |t.steps| == if i < |s.steps| then |s.steps| else i + 1
  {
  }

  lemma SkipRecords(s: State, op: Op, now: int)
    requires Sound(s) && op.Skip?
    ensures var t, i := Effect(s, op, now), Planned(Finished(s, now, Done).steps, op.label_);
            && OthersKept(s, t, i) && PlaceTells(t, op, now, i) && (s.cur >= 0 ==> RunningTells(s, t, op, now))
            && |t.steps| == if i < |s.steps| then |s.steps| else i + 1
  {
  }

  // ---------------------------------------------------------------- what a run of calls leaves

  /** When the running step was started: the time of the last Step, or `at` without one. */
  function StartedAt(es: seq<Event>, at: int): int
    decreases |es|
  {
    if es == [] then at else StartedAt(es[1..], if es[0].Change? && es[0].op.Step? then es[0].at else at)
  }

  lemma RunningStep(s: Sys, e: Event, at: int)
    requires Inv(s) && Enabled(s, e) && (s.job.cur >= 0 ==> s.job.stepStart[s.job.cur] == at)
    ensures var t := Next(s, e).job;
            Shaped(t) && (t.cur >= 0 ==> t.stepStart[t.cur] == if e.Change? && e.op.Step? then e.at else at)
  {
    StepKeeps(s, e);
    if e.Change? {
      var i := CallRecords(s.job, e.op, e.at);
      hide Effect;
    } else if e.End? {
      hide AppendLine, SkipPending, Truncate;
    }
  }

  lemma {:induction false} RunningSince(s: Sys, es: seq<Event>, at: int)
    requires Inv(s) && Possible(s, es) && (s.job.cur >= 0 ==> s.job.stepStart[s.job.cur] == at)
    ensures var t := After(s, es).job; Shaped(t) && (t.cur >= 0 ==> t.stepStart[t.cur] == StartedAt(es, at))
    decreases |es|
  {
    if es != [] {
      StepKeeps(s, es[0]);
      RunningStep(s, es[0], at);
      hide Inv, Next, Enabled;
      RunningSince(Next(s, es[0]), es[1..], if es[0].Change? && es[0].op.Step? then es[0].at else at);
    }
  }

  /** The value last set under a key, and the stack last linked. */
  function LastSet(es: seq<Event>, k: string, v: Option<string>): Option<string>
    decreases |es|
  {
    if es == [] then v
    else LastSet(es[1..], k, if es[0].Change? && es[0].op.Set? && es[0].op.key == k then Some(es[0].op.val) else v)
  }

  function LastLinked(es: seq<Event>, id: string): string
    decreases |es|
  {
    if es == [] then id else LastLinked(es[1..], if es[0].Change? && es[0].op.SetStack? then es[0].op.id else id)
  }

  function Lookup(m: map<string, string>, k: string): Option<string> { if k in m then Some(m[k]) else None }

  lemma CallSets(s: State, op: Op, now: int, k: string)
    requires Shaped(s)
    ensures var t := Effect(s, op, now);
            && Lookup(t.result, k) == (if op.Set? && op.key == k then Some(op.val) else Lookup(s.result, k))
            && t.stackId == (if op.SetStack? then op.id else s.stackId)
  {
    hide AppendLines, TextLines, Planned;
  }

  lemma ResultStep(s: Sys, e: Event, k: string)
    requires Inv(s) && Enabled(s, e)
    ensures var t := Next(s, e).job;
            && Lookup(t.result, k)
               == (if e.Change? && e.op.Set? && e.op.key == k then Some(e.op.val) else Lookup(s.job.result, k))
            && t.stackId == (if e.Change? && e.op.SetStack? then e.op.id else s.job.stackId)
  {
    if e.Change? {
      CallSets(s.job, e.op, e.at, k);
      hide Effect;
    } else if e.End? {
      EndTells(s.job, e.err, e.at);
      hide Ended;
    }
  }

  /** After any run, each key of the result has the value last set, and the job the stack last linked. */
  lemma {:induction false} ResultIsLastSet(s: Sys, es: seq<Event>, k: string)
    requires Inv(s) && Possible(s, es)
    ensures Lookup(After(s, es).job.result, k) == LastSet(es, k, Lookup(s.job.result, k))
    ensures After(s, es).job.stackId == LastLinked(es, s.job.stackId)
    decreases |es|
  {
    if es != [] {
      StepKeeps(s, es[0]);
      ResultStep(s, es[0], k);
      hide Inv, Next, Enabled;
      ResultIsLastSet(Next(s, es[0]), es[1..], k);
    }
  }

  /** The lines of a logged text: joined again they are the text without the line ends behind it. */
  lemma LoggedLinesAreTheText(level: string, text: string)
    ensures var ls, cut := TextLines(level, text), TrimLineEnds(text);
            && (forall i :: 0 <= i < |ls| ==> ls[i].level == level && '\n' !in ls[i].text)
            && Join(seq(|ls|, i requires 0 <= i < |ls| => ls[i].text), "\n") == cut
            && cut <= text && (forall i :: |cut| <= i < |text| ==> text[i] == '\n')
            && (cut != "" ==> cut[|cut| - 1] != '\n')
  {
    var parts, ls := Split(TrimLineEnds(text), '\n'), TextLines(level, text);
    SplitParts(TrimLineEnds(text), '\n');
    SplitBack(TrimLineEnds(text), '\n');
    assert seq(|ls|, i requires 0 <= i < |ls| => ls[i].text) == parts;
    LineEndsAre(text);
  }

  lemma {:induction false} LineEndsAre(text: string)
    ensures var cut := TrimLineEnds(text);
            && cut <= text && (forall i :: |cut| <= i < |text| ==> text[i] == '\n')
            && (cut != "" ==> cut[|cut| - 1] != '\n')
  {
    if text != "" && text[|text| - 1] == '\n' {
      LineEndsAre(text[..|text| - 1]);
    }
  }

  lemma {:induction false} SplitBack(s: string, sep: char)
    ensures Join(Split(s, sep), [sep]) == s
  {
    if s != "" {
      var rest := Split(s[1..], sep);
      SplitBack(s[1..], sep);
      if s[0] == sep {
        assert ([""] + rest)[1..] == rest;
      } else {
        JoinHead(rest, [s[0]], [sep]);
      }
    }
  }

  lemma JoinHead(parts: seq<string>, c: string, sep: string)
    requires parts != []
    ensures Join([c + parts[0]] + parts[1..], sep) == c + Join(parts, sep)
  {
    var longer := [c + parts[0]] + parts[1..];
    assert longer[1..] == parts[1..] && longer[0] == c + parts[0];
  }

  // ---------------------------------------------------------------- how often a job is written

  /** The time at which a write last took its snapshot, or `last` if none did. */
  function LastTaken(s: Sys, es: seq<Event>, last: Option<int>): Option<int>
    requires Possible(s, es)
    decreases |es|
  {
    if es == [] then last
    else LastTaken(Next(s, es[0]), es[1..], if |Next(s, es[0]).writers| > |s.writers| then Some(es[0].at) else last)
  }

  lemma {:induction false} LastTakenIsKept(s: Sys, es: seq<Event>)
    requires Possible(s, es)
    ensures After(s, es).job.lastFlush == LastTaken(s, es, s.job.lastFlush)
    decreases |es|
  {
    if es != [] {
      FlushKept(s, es[0]);
      LastTakenIsKept(Next(s, es[0]), es[1..]);
    }
  }

  lemma FlushKept(s: Sys, e: Event)
    requires Enabled(s, e) && Shaped(s.job)
    ensures Next(s, e).job.lastFlush == if |Next(s, e).writers| > |s.writers| then Some(e.at) else s.job.lastFlush
    ensures |Next(s, e).writers| > |s.writers| ==> e.EnterForced? || e.EnterLazy?
  {
    hide Effect, Ended;
    if e.Change? {
      CallKeepsFlush(s.job, e.op, e.at);
    } else if e.End? {
      EndKeepsFlush(s.job, e.err, e.at);
    }
  }

  lemma CallKeepsFlush(s: State, op: Op, now: int)
    requires Shaped(s)
    ensures Effect(s, op, now).lastFlush == s.lastFlush
  {
    hide AppendLines, TextLines, Planned;
  }

  lemma EndKeepsFlush(s: State, err: Option<string>, now: int)
    requires Shaped(s)
    ensures Ended(s, err, now).lastFlush == s.lastFlush
  {
    hide AppendLine, SkipPending, Truncate;
  }

  /** After any run, a flush takes a snapshot exactly when there is something to write, no write is under way, and,
      unless it is forced, the last snapshot is at least 300 milliseconds old. One that does not, and leaves
      something to write, sees to it that a timer is armed. */
  lemma WritesAreApart(plan: seq<string>, hostId: string, stack: string, es: seq<Event>, e: Event)
    requires Possible(Fresh(plan, hostId, stack), es) && (e.EnterForced? || e.EnterLazy?)
    requires Enabled(After(Fresh(plan, hostId, stack), es), e) && Shaped(After(Fresh(plan, hostId, stack), es).job)
    ensures var s := After(Fresh(plan, hostId, stack), es);
            var last := LastTaken(Fresh(plan, hostId, stack), es, None);
            var t := Next(s, e);
            && (|t.writers| > |s.writers| <==>
                  s.job.dirty && s.writers == [] && (e.EnterForced? || last.None? || e.at - last.value >= 300))
            && (|t.writers| > |s.writers| ==> t.writers[0].snap == SnapOf(s.job) && !t.job.dirty)
            && (|t.writers| == |s.writers| ==> t.job.dirty == s.job.dirty && (s.job.dirty ==> t.timers == 1))
  {
    FreshInv(plan, hostId, stack);
    RunsKeep(Fresh(plan, hostId, stack), es);
    LastTakenIsKept(Fresh(plan, hostId, stack), es);
    var s := After(Fresh(plan, hostId, stack), es);
    assert s.job.lastFlush == LastTaken(Fresh(plan, hostId, stack), es, None);
    hide Sound, UpToDate, StillActive, Tail;
  }

  /** Every call is followed by a flush, except that Set waits for the next; texts and log lines may be held back. So are
      the end of the job, a timer, and a write that left a finished job dirty. A write keeps the row's stack when the
      job has none. */
  lemma CallsAreFollowed(s: Sys, e: Event)
    requires Shaped(s.job) && Enabled(s, e)
    ensures e.Change? ==>
      && Next(s, e).forced == s.forced + (if e.op.Sub? || e.op.Log? || e.op.Set? then 0 else 1)
      && Next(s, e).lazy == s.lazy + (if e.op.Sub? || e.op.Log? then 1 else 0)
    ensures e.End? ==> Next(s, e).forced == s.forced + 1
    ensures e.Leave? ==> Next(s, e).forced == s.forced + if s.job.dirty && s.job.finished.Some? then 1 else 0
    ensures e.Fire? ==> Next(s, e).lazy == s.lazy + 1 && Next(s, e).timers == s.timers - 1
    ensures Next(s, e).row.stack
         == if e.Run? && e.ok && s.writers[e.i].snap.stackId != "" then s.writers[e.i].snap.stackId else s.row.stack
  {
    if e.Change? {
      hide Effect;
    } else if e.End? {
      hide Ended;
    }
  }
}
