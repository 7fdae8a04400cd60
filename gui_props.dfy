/** What a run of the desktop worker does to the folder and its log: the log's renames replay to
    the folder the run leaves; left alone, the run renames exactly the pairs its replies name, in
    reply order, with the old extension forced on; the batch headers count the batches; and the
    wait is taken only when another batch follows. */
module GuiProps {
  import opened Text
  import opened Batching
  import opened Extension
  import opened Folder
  import opened Collect
  import opened Listing
  import opened ReplyParser
  import opened Gui

  // ---------------------------------------------------------------- the log replays the folder

  /** The log of `w` tells how its folder came from `d0`. */
  ghost predicate Replays(d0: Dir, w: World) {
    Replay(d0, Attempts(w.log)) == w.dir
  }

  /** Logging a line that is not a rename keeps the log in step with the folder. */
  lemma NoteReplays(d0: Dir, w: World, e: Event)
    requires Replays(d0, w) && !e.Tried?
    ensures Replays(d0, w.(log := w.log + [e]))
  {
    AttemptsQuiet(w.log, e);
  }

  lemma PollReplays(d0: Dir, w: World, stop: StopRequest)
    requires Replays(d0, w)
    ensures Replays(d0, Poll(w, stop))
  {
    if w.on && !FlagAt(stop, w.polls) {
      NoteReplays(d0, w.(on := false, polls := w.polls + 1), UserStopped);
    }
  }

  /** A rename and its log line, together, keep the log in step with the folder. */
  lemma RenameReplays(d0: Dir, w: World, from: string, to: string, refused: Refusal)
    requires Replays(d0, w)
    ensures var (d, ok) := RenameOutcome(w.dir, from, to, refused);
            Replays(d0, w.(dir := d, log := w.log + [Tried(Attempt(from, to, ok))]))
  {
    var (d, ok) := RenameOutcome(w.dir, from, to, refused);
    var a := Attempt(from, to, ok);
    AttemptsTried(w.log, a);
    ReplaySnoc(d0, Attempts(w.log), a);
    OutcomeIsApply(w.dir, from, to, refused);
  }

  lemma {:induction false} RenameFromReplays(d0: Dir, w: World, batch: seq<string>, picks: seq<Pick>, j: nat, stop: StopRequest, refused: Refusal)
    requires j <= |picks| && Fits(batch, picks) && Replays(d0, w)
    ensures Replays(d0, RenameFrom(w, batch, picks, j, stop, refused))
    decreases |picks| - j
  {
    var w2, j2, done := RenameStepReplays(d0, w, batch, picks, j, stop, refused);
    if !done {
      RenameFromReplays(d0, w2, batch, picks, j2, stop, refused);
    }
  }

  /** One pass of the rename loop from pair `j`: either the loop ends here, or it tries pair
      `j` and goes on from `w2` at the next pair `j2`; either way the log replays. */
  lemma RenameStepReplays(d0: Dir, w: World, batch: seq<string>, picks: seq<Pick>, j: nat, stop: StopRequest, refused: Refusal)
    returns (w2: World, j2: nat, done: bool)
    requires j <= |picks| && Fits(batch, picks) && Replays(d0, w)
    ensures done ==> Replays(d0, RenameFrom(w, batch, picks, j, stop, refused))
    ensures !done ==> j2 == j + 1 && j2 <= |picks| && Replays(d0, w2)
                      && RenameFrom(w, batch, picks, j, stop, refused) == RenameFrom(w2, batch, picks, j2, stop, refused)
  {
    w2, j2, done := w, j, true;
    if j < |picks| {
      var w1 := Poll(w, stop);
      PollReplays(d0, w, stop);
      if w1.on {
        var from := batch[picks[j].index];
        var to := Target(batch, picks[j]);
        var (d, ok) := RenameOutcome(w1.dir, from, to, refused);
        RenameReplays(d0, w1, from, to, refused);
        w2, j2, done := w1.(dir := d, log := w1.log + [Tried(Attempt(from, to, ok))]), j + 1, false;
      } else {
        assert RenameFrom(w, batch, picks, j, stop, refused) == w1;
      }
    } else {
      assert RenameFrom(w, batch, picks, j, stop, refused) == w;
    }
  }

  lemma UsePicksReplays(d0: Dir, w: World, batch: seq<string>, picks: seq<Pick>, stop: StopRequest, refused: Refusal)
    requires w.on && Fits(batch, picks) && Replays(d0, w)
    ensures Replays(d0, UsePicks(w, batch, picks, stop, refused))
  {
    if picks == [] {
      NoteReplays(d0, w, NoNames);
    } else {
      var w1 := Poll(w, stop);
      PollReplays(d0, w, stop);
      if !w1.on {
        NoteReplays(d0, w1, NoNames);
      } else {
        RenameFromReplays(d0, w1, batch, picks, 0, stop, refused);
      }
    }
  }

  lemma BatchBodyReplays(d0: Dir, w: World, batch: seq<string>, content: Option<string>, stop: StopRequest, refused: Refusal)
    requires w.on && Replays(d0, w)
    ensures Replays(d0, BatchBody(w, batch, content, stop, refused))
  {
    match content
    case None =>
      NoteReplays(d0, w, RequestFailed);
    case Some(c) =>
      NoteReplays(d0, w, Replied(c));
      UsePicksReplays(d0, w.(log := w.log + [Replied(c)]), batch, ParseReply(c, |batch|), stop, refused);
  }

  lemma OneBatchReplays(d0: Dir, w: World, files: seq<string>, b: nat, i: nat, k: nat, total: int, service: Service, stop: StopRequest, refused: Refusal)
    requires b >= 1 && w.on && Replays(d0, w)
    ensures Replays(d0, OneBatch(w, files, b, i, k, total, service, stop, refused))
  {
    var batch := Slice(files, i, b);
    var e := BatchStarted(k + 1, total, |batch|);
    NoteReplays(d0, w, e);
    var w2 := w.(log := w.log + [e]);
    BatchBodyReplays(d0, w2, batch, service(k, batch), stop, refused);
    var w3 := BatchBody(w2, batch, service(k, batch), stop, refused);
    if i + b < |files| {
      PollReplays(d0, w3, stop);
      if Poll(w3, stop).on {
        NoteReplays(d0, Poll(w3, stop), Waited);
      }
    }
  }

  /** A pass that keeps the log in step with the folder. */
  ghost predicate StepReplays(d0: Dir, step: Step) {
    forall v: World, i: nat, k: nat {:trigger step(v, i, k)} :: Replays(d0, v) ==> Replays(d0, step(v, i, k))
  }

  lemma {:induction false} LoopReplays(d0: Dir, w: World, n: nat, b: nat, i: nat, k: nat, step: Step, stop: StopRequest)
    requires b >= 1 && Replays(d0, w) && StepReplays(d0, step)
    ensures Replays(d0, Loop(w, n, b, i, k, step, stop))
    decreases n - i
  {
    if i < n {
      var w1 := Poll(w, stop);
      PollReplays(d0, w, stop);
      if w1.on {
        LoopReplays(d0, step(w1, i, k), n, b, i + b, k + 1, step, stop);
      }
    }
  }

  lemma BatchStepReplays(d0: Dir, files: seq<string>, b: nat, total: int, service: Service, stop: StopRequest, refused: Refusal)
    ensures StepReplays(d0, BatchStep(files, b, total, service, stop, refused))
  {
    forall v: World, i: nat, k: nat | Replays(d0, v)
      ensures Replays(d0, BatchStep(files, b, total, service, stop, refused)(v, i, k))
    {
      if b >= 1 && v.on {
        OneBatchReplays(d0, v, files, b, i, k, total, service, stop, refused);
      }
    }
  }

  /** The log is an exact account of the folder (gui.py:298-309): replaying, in order, the
      renames the run logged, with the outcome each one logged, turns the folder the run started
      from into the folder it leaves, whatever the replies, the platform and the Stop button do. */
  lemma LogReplaysRun(w: World, files: seq<string>, b: int, service: Service, stop: StopRequest, refused: Refusal)
    requires w.log == []
    ensures var r := Run(w, files, b, service, stop, refused);
            Replay(w.dir, Attempts(r.log)) == r.dir
  {
    var d0 := w.dir;
    assert Replays(d0, w);
    if b == 0 {
      NoteReplays(d0, w, Crashed);
    } else {
      var r := w;
      if b > 0 {
        BatchStepReplays(d0, files, b, BatchCount(|files|, b), service, stop, refused);
        LoopReplays(d0, w, |files|, b, 0, 0, BatchStep(files, b, BatchCount(|files|, b), service, stop, refused), stop);
        r := RunFrom(w, files, b, 0, 0, BatchCount(|files|, b), service, stop, refused);
      }
      assert Replays(d0, r);
      PollReplays(d0, r, stop);
      var r1 := Poll(r, stop);
      if r1.on {
        NoteReplays(d0, r1, AllDone);
      }
    }
  }

  // ---------------------------------------------------------------- the run left alone

  /** What a log line says was to be renamed to what. */
  function MoveOf(e: Event): Option<(string, string)> {
    if e.Tried? then Some((e.attempt.from, e.attempt.to)) else None
  }

  /** The renames a log records, without their outcomes. */
  function Moves(log: seq<Event>): seq<(string, string)> {
    Keep(log, MoveOf)
  }

  /** The rename a pair asks for: the file it names, to the pair's name with the file's
      extension. */
  function MoveFor(batch: seq<string>, p: Pick): (string, string)
    requires p.index < |batch|
  {
    (batch[p.index], Target(batch, p))
  }

  /** The renames of pairs `j..` of a batch, in order. */
  function TargetsFrom(batch: seq<string>, picks: seq<Pick>, j: nat): (r: seq<(string, string)>)
    requires j <= |picks| && Fits(batch, picks)
    ensures |r| == |picks| - j
    decreases |picks| - j
  {
    if j == |picks| then [] else [MoveFor(batch, picks[j])] + TargetsFrom(batch, picks, j + 1)
  }

  /** Among the renames of pairs `j..`, the one at position `k - j` is that of pair `k`. */
  lemma {:induction false} TargetsFromAt(batch: seq<string>, picks: seq<Pick>, j: nat, k: nat)
    requires j <= k < |picks| && Fits(batch, picks)
    ensures TargetsFrom(batch, picks, j)[k - j] == MoveFor(batch, picks[k])
    decreases k - j
  {
    var rest := TargetsFrom(batch, picks, j + 1);
    TargetsFromFirst(batch, picks, j);
    if j < k {
      TargetsFromAt(batch, picks, j + 1, k);
      ConsAt(MoveFor(batch, picks[j]), rest, k - j);
    }
  }

  lemma TargetsFromFirst(batch: seq<string>, picks: seq<Pick>, j: nat)
    requires j < |picks| && Fits(batch, picks)
    ensures TargetsFrom(batch, picks, j) == [MoveFor(batch, picks[j])] + TargetsFrom(batch, picks, j + 1)
  {
  }

  /** The renames a batch's reply asks for: none when the request failed. */
  function BatchPlan(batch: seq<string>, content: Option<string>): seq<(string, string)> {
    match content
    case None => []
    case Some(c) => TargetsFrom(batch, ParseReply(c, |batch|), 0)
  }

  /** The renames the reply for batch `k`, at index `i`, asks for. */
  function PlanPart(files: seq<string>, b: nat, service: Service): (nat, nat) -> seq<(string, string)> {
    (i: nat, k: nat) => BatchPlan(Slice(files, i, b), service(k, Slice(files, i, b)))
  }

  /** The renames of every batch of a folder listing, in batch order. */
  function Plan(files: seq<string>, b: nat, service: Service): seq<(string, string)>
    requires b >= 1
  {
    Gather(|files|, b, 0, 0, PlanPart(files, b, service))
  }

  /** Logging a line adds to what a view of the log keeps exactly what the view keeps of it. */
  lemma NoteKept<X>(w: World, e: Event, f: Event -> Option<X>)
    ensures Keep(w.log + [e], f) == Keep(w.log, f) + Listed(f(e))
  {
    KeepSnoc(w.log, e, f);
  }

  /** A log line a view does not keep leaves the view as it was. */
  lemma NoteSkipped<X>(w: World, e: Event, f: Event -> Option<X>)
    requires f(e).None?
    ensures Keep(w.log + [e], f) == Keep(w.log, f)
  {
    KeepSnoc(w.log, e, f);
  }

  /** Left alone, the rename loop's pass for pair `j` renames and logs it, and goes on. */
  lemma RenameFromNeverStep(w: World, batch: seq<string>, picks: seq<Pick>, j: nat, refused: Refusal)
    requires j < |picks| && Fits(batch, picks) && w.on
    ensures var w1 := Poll(w, Never);
            var from := batch[picks[j].index];
            var to := Target(batch, picks[j]);
            var (d, ok) := RenameOutcome(w1.dir, from, to, refused);
            RenameFrom(w, batch, picks, j, Never, refused)
            == RenameFrom(w1.(dir := d, log := w1.log + [Tried(Attempt(from, to, ok))]), batch, picks, j + 1, Never, refused)
  {
  }

  lemma {:induction false} RenameFromPlan(w: World, batch: seq<string>, picks: seq<Pick>, j: nat, refused: Refusal)
    requires j <= |picks| && Fits(batch, picks) && w.on
    ensures var r := RenameFrom(w, batch, picks, j, Never, refused);
            r.on && Moves(r.log) == Moves(w.log) + TargetsFrom(batch, picks, j)
    decreases |picks| - j
  {
    if j < |picks| {
      var w1 := Poll(w, Never);
      var from := batch[picks[j].index];
      var to := Target(batch, picks[j]);
      var (d, ok) := RenameOutcome(w1.dir, from, to, refused);
      var w2 := w1.(dir := d, log := w1.log + [Tried(Attempt(from, to, ok))]);
      RenameFromNeverStep(w, batch, picks, j, refused);
      NoteKept(w1, Tried(Attempt(from, to, ok)), MoveOf);
      RenameFromPlan(w2, batch, picks, j + 1, refused);
      ConcatAssoc(Moves(w.log), [(from, to)], TargetsFrom(batch, picks, j + 1));
    }
  }

  lemma UsePicksPlan(w: World, batch: seq<string>, picks: seq<Pick>, refused: Refusal)
    requires w.on && Fits(batch, picks)
    ensures var r := UsePicks(w, batch, picks, Never, refused);
            r.on && Moves(r.log) == Moves(w.log) + TargetsFrom(batch, picks, 0)
  {
    if picks == [] {
      NoteSkipped(w, NoNames, MoveOf);
    } else {
      RenameFromPlan(Poll(w, Never), batch, picks, 0, refused);
    }
  }

  lemma BatchBodyPlan(w: World, batch: seq<string>, content: Option<string>, refused: Refusal)
    requires w.on
    ensures var r := BatchBody(w, batch, content, Never, refused);
            r.on && Moves(r.log) == Moves(w.log) + BatchPlan(batch, content)
  {
    match content
    case None =>
      NoteSkipped(w, RequestFailed, MoveOf);
    case Some(c) =>
      NoteSkipped(w, Replied(c), MoveOf);
      UsePicksPlan(w.(log := w.log + [Replied(c)]), batch, ParseReply(c, |batch|), refused);
  }

  /** Left alone, the wait after a batch logs only the wait, which a view that skips it does
      not see. */
  lemma AfterBatchSkipped<X>(w: World, i: nat, b: nat, n: nat, f: Event -> Option<X>)
    requires w.on && f(Waited).None?
    ensures var r := AfterBatch(w, i, b, n, Never);
            r.on && Keep(r.log, f) == Keep(w.log, f)
  {
    if i + b < n {
      NoteSkipped(Poll(w, Never), Waited, f);
    }
  }

  lemma OneBatchPlan(w: World, files: seq<string>, b: nat, i: nat, k: nat, total: int, service: Service, refused: Refusal)
    requires b >= 1 && w.on
    ensures var r := OneBatch(w, files, b, i, k, total, service, Never, refused);
            r.on && Moves(r.log) == Moves(w.log) + PlanPart(files, b, service)(i, k)
  {
    var batch := Slice(files, i, b);
    var e := BatchStarted(k + 1, total, |batch|);
    NoteSkipped(w, e, MoveOf);
    var w2 := w.(log := w.log + [e]);
    BatchBodyPlan(w2, batch, service(k, batch), refused);
    AfterBatchSkipped(BatchBody(w2, batch, service(k, batch), Never, refused), i, b, |files|, MoveOf);
  }

  /** A pass that, with the flag set, keeps it set and adds `part(i, k)` to the view `f`. */
  ghost predicate StepAdds<X>(step: Step, f: Event -> Option<X>, part: (nat, nat) -> seq<X>) {
    forall v: World, i: nat, k: nat {:trigger step(v, i, k)} :: v.on ==> step(v, i, k).on && Keep(step(v, i, k).log, f) == Keep(v.log, f) + part(i, k)
  }

  /** Left alone, the loop runs every batch, and each adds its part to the view of the log. */
  lemma {:induction false} LoopAdds<X>(w: World, n: nat, b: nat, i: nat, k: nat, step: Step, f: Event -> Option<X>, part: (nat, nat) -> seq<X>)
    requires b >= 1 && w.on && StepAdds(step, f, part)
    ensures var r := Loop(w, n, b, i, k, step, Never);
            r.on && Keep(r.log, f) == Keep(w.log, f) + Gather(n, b, i, k, part)
    decreases n - i
  {
    if i < n {
      var w1 := Poll(w, Never);
      var w2 := step(w1, i, k);
      LoopAdds(w2, n, b, i + b, k + 1, step, f, part);
      ConcatAssoc(Keep(w.log, f), part(i, k), Gather(n, b, i + b, k + 1, part));
    }
  }

  lemma BatchStepPlan(files: seq<string>, b: nat, total: int, service: Service, refused: Refusal)
    requires b >= 1
    ensures StepAdds(BatchStep(files, b, total, service, Never, refused), MoveOf, PlanPart(files, b, service))
  {
    forall v: World, i: nat, k: nat | v.on
      ensures var r := BatchStep(files, b, total, service, Never, refused)(v, i, k);
              r.on && Moves(r.log) == Moves(v.log) + PlanPart(files, b, service)(i, k)
    {
      OneBatchPlan(v, files, b, i, k, total, service, refused);
    }
  }

  /** Left alone, a run whose every pass adds its part to a view of the log adds the parts of
      all its batches, in order, and ends by logging completion, which the view skips. */
  lemma RunAdds<X>(w: World, files: seq<string>, b: int, service: Service, refused: Refusal, f: Event -> Option<X>, part: (nat, nat) -> seq<X>)
    requires w.on && b >= 1 && f(AllDone).None?
    requires StepAdds(BatchStep(files, b, BatchCount(|files|, b), service, Never, refused), f, part)
    ensures var r := Run(w, files, b, service, Never, refused);
            && Keep(r.log, f) == Keep(w.log, f) + Gather(|files|, b, 0, 0, part)
            && |r.log| > 0 && r.log[|r.log| - 1] == AllDone
  {
    var total := BatchCount(|files|, b);
    LoopAdds(w, |files|, b, 0, 0, BatchStep(files, b, total, service, Never, refused), f, part);
    var r := RunFrom(w, files, b, 0, 0, total, service, Never, refused);
    NoteSkipped(Poll(r, Never), AllDone, f);
  }

  /** Left alone (gui.py:232-322), a run with a positive batch size asks to rename exactly the
      pairs its replies name, batch after batch and in reply order within a batch, each file to
      its new name with its own extension, and ends by logging completion. */
  lemma RunLeftAlone(w: World, files: seq<string>, b: int, service: Service, refused: Refusal)
    requires w.on && b >= 1
    ensures var r := Run(w, files, b, service, Never, refused);
            && Moves(r.log) == Moves(w.log) + Plan(files, b, service)
            && |r.log| > 0 && r.log[|r.log| - 1] == AllDone
  {
    BatchStepPlan(files, b, BatchCount(|files|, b), service, refused);
    RunAdds(w, files, b, service, refused, MoveOf, PlanPart(files, b, service));
  }

  lemma {:induction false} TargetsKeepExtension(batch: seq<string>, picks: seq<Pick>, j: nat)
    requires j <= |picks| && Fits(batch, picks)
    ensures forall m :: m in TargetsFrom(batch, picks, j) ==> m.0 in batch && EndsWith(m.1, Ext(m.0))
    decreases |picks| - j
  {
    if j < |picks| {
      var p := picks[j];
      assert p in picks;
      var head := MoveFor(batch, p);
      var rest := TargetsFrom(batch, picks, j + 1);
      assert TargetsFrom(batch, picks, j) == [head] + rest;
      assert head.0 in batch && EndsWith(head.1, Ext(head.0));
      TargetsKeepExtension(batch, picks, j + 1);
      forall m | m in [head] + rest
        ensures m.0 in batch && EndsWith(m.1, Ext(m.0))
      {
        if m != head {
          assert m in rest;
        }
      }
    }
  }

  /** Every planned rename moves a file of its batch to a name with that file's extension. */
  lemma BatchPlanKeepsExtension(batch: seq<string>, content: Option<string>)
    ensures forall m :: m in BatchPlan(batch, content) ==> m.0 in batch && EndsWith(m.1, Ext(m.0))
  {
    if content.Some? {
      TargetsKeepExtension(batch, ParseReply(content.value, |batch|), 0);
    }
  }

  // ---------------------------------------------------------------- batch headers and waits

  /** The batch number a log line announces. */
  function HeaderOf(e: Event): Option<int> {
    if e.BatchStarted? then Some(e.num) else None
  }

  lemma {:induction false} RenameFromNoHeaders(w: World, batch: seq<string>, picks: seq<Pick>, j: nat, refused: Refusal)
    requires j <= |picks| && Fits(batch, picks) && w.on
    ensures var r := RenameFrom(w, batch, picks, j, Never, refused);
            r.on && Keep(r.log, HeaderOf) == Keep(w.log, HeaderOf)
    decreases |picks| - j
  {
    if j < |picks| {
      var w1 := Poll(w, Never);
      var from := batch[picks[j].index];
      var to := Target(batch, picks[j]);
      var (d, ok) := RenameOutcome(w1.dir, from, to, refused);
      RenameFromNeverStep(w, batch, picks, j, refused);
      NoteSkipped(w1, Tried(Attempt(from, to, ok)), HeaderOf);
      RenameFromNoHeaders(w1.(dir := d, log := w1.log + [Tried(Attempt(from, to, ok))]), batch, picks, j + 1, refused);
    }
  }

  lemma UsePicksNoHeaders(w: World, batch: seq<string>, picks: seq<Pick>, refused: Refusal)
    requires w.on && Fits(batch, picks)
    ensures var r := UsePicks(w, batch, picks, Never, refused);
            r.on && Keep(r.log, HeaderOf) == Keep(w.log, HeaderOf)
  {
    if picks == [] {
      NoteSkipped(w, NoNames, HeaderOf);
    } else {
      RenameFromNoHeaders(Poll(w, Never), batch, picks, 0, refused);
    }
  }

  /** A batch's body announces no batch. */
  lemma BatchBodyNoHeaders(w: World, batch: seq<string>, content: Option<string>, refused: Refusal)
    requires w.on
    ensures var r := BatchBody(w, batch, content, Never, refused);
            r.on && Keep(r.log, HeaderOf) == Keep(w.log, HeaderOf)
  {
    match content
    case None =>
      NoteSkipped(w, RequestFailed, HeaderOf);
    case Some(c) =>
      NoteSkipped(w, Replied(c), HeaderOf);
      UsePicksNoHeaders(w.(log := w.log + [Replied(c)]), batch, ParseReply(c, |batch|), refused);
  }

  lemma OneBatchHeader(w: World, files: seq<string>, b: nat, i: nat, k: nat, total: int, service: Service, refused: Refusal)
    requires b >= 1 && w.on
    ensures var r := OneBatch(w, files, b, i, k, total, service, Never, refused);
            r.on && Keep(r.log, HeaderOf) == Keep(w.log, HeaderOf) + [k + 1]
  {
    var batch := Slice(files, i, b);
    var e := BatchStarted(k + 1, total, |batch|);
    NoteKept(w, e, HeaderOf);
    var w2 := w.(log := w.log + [e]);
    BatchBodyNoHeaders(w2, batch, service(k, batch), refused);
    AfterBatchSkipped(BatchBody(w2, batch, service(k, batch), Never, refused), i, b, |files|, HeaderOf);
  }

  lemma BatchStepHeaders(files: seq<string>, b: nat, total: int, service: Service, refused: Refusal)
    requires b >= 1
    ensures StepAdds(BatchStep(files, b, total, service, Never, refused), HeaderOf, NumberPart())
  {
    forall v: World, i: nat, k: nat | v.on
      ensures var r := BatchStep(files, b, total, service, Never, refused)(v, i, k);
              r.on && Keep(r.log, HeaderOf) == Keep(v.log, HeaderOf) + NumberPart()(i, k)
    {
      OneBatchHeader(v, files, b, i, k, total, service, refused);
    }
  }

  /** Left alone (gui.py:235), a run announces the batches `1/total`, `2/total`, ...,
      `total/total` in order, one per batch of the listing, where `total` is
      `(len(files) - 1) // b + 1`. */
  lemma HeadersCountBatches(w: World, files: seq<string>, b: int, service: Service, refused: Refusal)
    requires w.on && b >= 1 && |files| > 0 && w.log == []
    ensures var nums := Keep(Run(w, files, b, service, Never, refused).log, HeaderOf);
            && |nums| == BatchCount(|files|, b)
            && forall m :: 0 <= m < |nums| ==> nums[m] == m + 1
  {
    BatchStepHeaders(files, b, BatchCount(|files|, b), service, refused);
    RunAdds(w, files, b, service, refused, HeaderOf, NumberPart());
    GatherNumbers(|files|, b, 0, 0);
    assert Keep(w.log, HeaderOf) == [];
  }

  /** The wait after the batch at `k * b` (gui.py:316-319) is taken exactly when the flag is
      still set at that read and the batch is not the last one. */
  lemma WaitOnlyBeforeAnotherBatch(w: World, k: nat, b: nat, n: nat, stop: StopRequest)
    requires b >= 1 && k * b < n && w.on
    ensures var r := AfterBatch(w, k * b, b, n, stop);
            (r.log == w.log + [Waited]) <==> FlagAt(stop, w.polls) && (k * b) / b + 1 < BatchCount(n, b)
  {
    DelayOnlyBetweenBatches(n, b, k);
    var r := AfterBatch(w, k * b, b, n, stop);
    if k * b + b < n && !FlagAt(stop, w.polls) {
      assert r.log[|w.log|] == UserStopped;
    } else if k * b + b >= n {
      assert |r.log| == |w.log|;
    }
  }
}
