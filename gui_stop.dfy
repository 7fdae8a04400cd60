/** What the Stop button can and cannot do to a run of the desktop worker: it only cuts the
    work short. The renames of a stopped run are a prefix of those of the same run left alone,
    and once the flag is found clear nothing else is renamed. */
module GuiStop {
  import opened Text
  import opened Batching
  import opened Listing
  import opened Folder
  import opened Collect
  import opened ReplyParser
  import opened Gui

  /** A stopped run `s` relative to the same run `n` left alone: while both go on they have
      the same folder and have logged the same renames; once `s` has stopped, its renames
      are a prefix of those of `n`. */
  predicate Behind(s: World, n: World) {
    || (s.on && n.on && s.dir == n.dir && Attempts(s.log) == Attempts(n.log))
    || (!s.on && Attempts(s.log) <= Attempts(n.log))
  }

  /** A read of the flag logs no rename. */
  lemma PollQuiet(w: World, stop: StopRequest)
    ensures Attempts(Poll(w, stop).log) == Attempts(w.log)
  {
    if Poll(w, stop).log != w.log {
      AttemptsQuiet(w.log, UserStopped);
    }
  }

  /** Once a run has stopped, whatever the other run does next keeps it behind. */
  lemma StoppedStaysBehind(s: World, n: World, s': World, n': World)
    requires !s.on && Attempts(s.log) <= Attempts(n.log)
    requires !s'.on && s'.log == s.log && n.log <= n'.log
    ensures Behind(s', n')
  {
    AttemptsGrow(n.log, n'.log);
  }

  /** A run that has just found the flag clear is behind the run that went on. */
  lemma JustStopped(s: World, n: World, s1: World, n': World)
    requires Attempts(s.log) == Attempts(n.log) && !s1.on
    requires Attempts(s1.log) == Attempts(s.log) && n.log <= n'.log
    ensures Behind(s1, n')
  {
    AttemptsGrow(n.log, n'.log);
  }

  /** Both runs can take the rename loop from pair `j` on, with `s` behind `n`. */
  predicate RenameReady(s: World, n: World, batch: seq<string>, picks: seq<Pick>, j: nat) {
    j <= |picks| && Fits(batch, picks) && Behind(s, n)
  }

  lemma {:induction false} RenameBehind(s: World, n: World, batch: seq<string>, picks: seq<Pick>, j: nat, stop: StopRequest, refused: Refusal)
    requires RenameReady(s, n, batch, picks, j)
    ensures Behind(RenameFrom(s, batch, picks, j, stop, refused), RenameFrom(n, batch, picks, j, Never, refused))
    decreases |picks| - j
  {
    var s2, n2, j2, done := RenameStepBehind(s, n, batch, picks, j, stop, refused);
    if !done {
      RenameBehind(s2, n2, batch, picks, j2, stop, refused);
    }
  }

  /** One pass of the rename loop from pair `j`: either both runs are at their ends with the
      stopped one behind (`done`), or both try pair `j` and go on from `s2` and `n2` at the
      next pair `j2`. */
  lemma RenameStepBehind(s: World, n: World, batch: seq<string>, picks: seq<Pick>, j: nat, stop: StopRequest, refused: Refusal)
    returns (s2: World, n2: World, j2: nat, done: bool)
    requires RenameReady(s, n, batch, picks, j)
    ensures done ==> Behind(RenameFrom(s, batch, picks, j, stop, refused), RenameFrom(n, batch, picks, j, Never, refused))
    ensures !done ==> j2 == j + 1 && RenameReady(s2, n2, batch, picks, j2)
                      && RenameFrom(s, batch, picks, j, stop, refused) == RenameFrom(s2, batch, picks, j2, stop, refused)
                      && RenameFrom(n, batch, picks, j, Never, refused) == RenameFrom(n2, batch, picks, j2, Never, refused)
  {
    s2, n2, j2, done := s, n, j, true;
    if j == |picks| {
      assert RenameFrom(s, batch, picks, j, stop, refused) == s;
      assert RenameFrom(n, batch, picks, j, Never, refused) == n;
    } else if !s.on {
      RenameOffBehind(s, n, batch, picks, j, stop, refused);
    } else if !Poll(s, stop).on {
      RenameHaltsBehind(s, n, batch, picks, j, stop, refused);
    } else {
      s2, n2 := AttemptBehind(s, n, batch, picks, j, stop, refused);
      j2, done := j + 1, false;
    }
  }

  /** A run that stopped before the rename loop does nothing in it. */
  lemma RenameOffBehind(s: World, n: World, batch: seq<string>, picks: seq<Pick>, j: nat, stop: StopRequest, refused: Refusal)
    requires j <= |picks| && Fits(batch, picks) && !s.on && Behind(s, n)
    ensures Behind(RenameFrom(s, batch, picks, j, stop, refused), RenameFrom(n, batch, picks, j, Never, refused))
  {
    StoppedStaysBehind(s, n, RenameFrom(s, batch, picks, j, stop, refused), RenameFrom(n, batch, picks, j, Never, refused));
  }

  /** A run that finds the flag clear at the top of a rename pass stops there. */
  lemma RenameHaltsBehind(s: World, n: World, batch: seq<string>, picks: seq<Pick>, j: nat, stop: StopRequest, refused: Refusal)
    requires j < |picks| && Fits(batch, picks) && s.on && Behind(s, n) && !Poll(s, stop).on
    ensures Behind(RenameFrom(s, batch, picks, j, stop, refused), RenameFrom(n, batch, picks, j, Never, refused))
  {
    var s1 := Poll(s, stop);
    PollQuiet(s, stop);
    assert RenameFrom(s, batch, picks, j, stop, refused) == s1;
    JustStopped(s, n, s1, RenameFrom(n, batch, picks, j, Never, refused));
  }

  /** One rename attempt of `rename_files_in_batch` with the flag still set: both runs try
      the same move on the same folder, and each goes on from the world it leaves. */
  lemma AttemptBehind(s: World, n: World, batch: seq<string>, picks: seq<Pick>, j: nat, stop: StopRequest, refused: Refusal)
    returns (s2: World, n2: World)
    requires j < |picks| && Fits(batch, picks) && s.on && Behind(s, n) && Poll(s, stop).on
    ensures Behind(s2, n2)
    ensures RenameFrom(s, batch, picks, j, stop, refused) == RenameFrom(s2, batch, picks, j + 1, stop, refused)
    ensures RenameFrom(n, batch, picks, j, Never, refused) == RenameFrom(n2, batch, picks, j + 1, Never, refused)
  {
    var s1 := Poll(s, stop);
    var n1 := Poll(n, Never);
    PollQuiet(s, stop);
    PollQuiet(n, Never);
    var from := batch[picks[j].index];
    var to := Target(batch, picks[j]);
    var (d, ok) := RenameOutcome(s1.dir, from, to, refused);
    var a := Attempt(from, to, ok);
    s2 := s1.(dir := d, log := s1.log + [Tried(a)]);
    n2 := n1.(dir := d, log := n1.log + [Tried(a)]);
    AttemptsTried(s1.log, a);
    AttemptsTried(n1.log, a);
  }

  lemma UsePicksBehind(s: World, n: World, batch: seq<string>, picks: seq<Pick>, stop: StopRequest, refused: Refusal)
    requires s.on && Behind(s, n) && Fits(batch, picks)
    ensures Behind(UsePicks(s, batch, picks, stop, refused), UsePicks(n, batch, picks, Never, refused))
  {
    var rn := UsePicks(n, batch, picks, Never, refused);
    if picks == [] {
      NoteBehind(s, n, NoNames);
    } else {
      var s1 := Poll(s, stop);
      var n1 := Poll(n, Never);
      PollQuiet(s, stop);
      PollQuiet(n, Never);
      if !s1.on {
        AttemptsQuiet(s1.log, NoNames);
        JustStopped(s, n, s1.(log := s1.log + [NoNames]), rn);
      } else {
        RenameBehind(s1, n1, batch, picks, 0, stop, refused);
      }
    }
  }

  lemma BatchBehind(s: World, n: World, batch: seq<string>, content: Option<string>, stop: StopRequest, refused: Refusal)
    requires s.on && Behind(s, n)
    ensures Behind(BatchBody(s, batch, content, stop, refused), BatchBody(n, batch, content, Never, refused))
  {
    match content
    case None =>
      NoteBehind(s, n, RequestFailed);
    case Some(c) =>
      NoteBehind(s, n, Replied(c));
      UsePicksBehind(s.(log := s.log + [Replied(c)]), n.(log := n.log + [Replied(c)]), batch, ParseReply(c, |batch|), stop, refused);
  }

  lemma AfterBehind(s: World, n: World, i: nat, b: nat, m: nat, stop: StopRequest)
    requires Behind(s, n)
    ensures Behind(AfterBatch(s, i, b, m, stop), AfterBatch(n, i, b, m, Never))
  {
    var rs := AfterBatch(s, i, b, m, stop);
    var rn := AfterBatch(n, i, b, m, Never);
    if !s.on {
      StoppedStaysBehind(s, n, rs, rn);
    } else if i + b < m {
      var s1 := Poll(s, stop);
      var n1 := Poll(n, Never);
      PollQuiet(s, stop);
      PollQuiet(n, Never);
      AttemptsQuiet(n1.log, Waited);
      if s1.on {
        AttemptsQuiet(s1.log, Waited);
      } else {
        JustStopped(s, n, s1, rn);
      }
    }
  }

  /** A log line that is not a rename, logged by both runs, keeps one behind the other. */
  lemma NoteBehind(s: World, n: World, e: Event)
    requires s.on && Behind(s, n) && !e.Tried?
    ensures Behind(s.(log := s.log + [e]), n.(log := n.log + [e]))
  {
    AttemptsQuiet(s.log, e);
    AttemptsQuiet(n.log, e);
  }

  lemma OneBatchBehind(s: World, n: World, files: seq<string>, b: nat, i: nat, k: nat, total: int, service: Service, stop: StopRequest, refused: Refusal)
    requires b >= 1 && s.on && Behind(s, n)
    ensures Behind(OneBatch(s, files, b, i, k, total, service, stop, refused), OneBatch(n, files, b, i, k, total, service, Never, refused))
  {
    var batch := Slice(files, i, b);
    var e := BatchStarted(k + 1, total, |batch|);
    NoteBehind(s, n, e);
    var s2 := s.(log := s.log + [e]);
    var n2 := n.(log := n.log + [e]);
    var content := service(k, batch);
    BatchBehind(s2, n2, batch, content, stop, refused);
    AfterBehind(BatchBody(s2, batch, content, stop, refused), BatchBody(n2, batch, content, Never, refused), i, b, |files|, stop);
  }

  /** A pass of the stopped run keeps it behind the same pass of the run left alone. */
  ghost predicate StepsBehind(stepS: Step, stepN: Step) {
    forall v: World, u: World, i: nat, k: nat :: v.on && Behind(v, u) ==> Behind(stepS(v, i, k), stepN(u, i, k))
  }

  /** Both runs can take the batch loop on, with `s` behind `n`. */
  ghost predicate LoopReady(s: World, n: World, b: nat, stepS: Step, stepN: Step) {
    b >= 1 && Behind(s, n) && StepsBehind(stepS, stepN) && Grows(stepN)
  }

  lemma {:induction false} LoopBehind(s: World, n: World, m: nat, b: nat, i: nat, k: nat, stepS: Step, stepN: Step, stop: StopRequest)
    requires LoopReady(s, n, b, stepS, stepN)
    ensures Behind(Loop(s, m, b, i, k, stepS, stop), Loop(n, m, b, i, k, stepN, Never))
    decreases m - i
  {
    var s2, n2, done := LoopStepBehind(s, n, m, b, i, k, stepS, stepN, stop);
    if !done {
      LoopBehind(s2, n2, m, b, i + b, k + 1, stepS, stepN, stop);
    }
  }

  /** One pass of the batch loop at index `i`: either both runs are at their ends with the
      stopped one behind (`done`), or both ran the pass and go on from `s2` and `n2`. */
  lemma LoopStepBehind(s: World, n: World, m: nat, b: nat, i: nat, k: nat, stepS: Step, stepN: Step, stop: StopRequest)
    returns (s2: World, n2: World, done: bool)
    requires LoopReady(s, n, b, stepS, stepN)
    ensures done ==> Behind(Loop(s, m, b, i, k, stepS, stop), Loop(n, m, b, i, k, stepN, Never))
    ensures !done ==> i < m && LoopReady(s2, n2, b, stepS, stepN)
    ensures !done && Behind(Loop(s2, m, b, i + b, k + 1, stepS, stop), Loop(n2, m, b, i + b, k + 1, stepN, Never))
            ==> Behind(Loop(s, m, b, i, k, stepS, stop), Loop(n, m, b, i, k, stepN, Never))
  {
    s2, n2, done := s, n, true;
    if i < m {
      var rs := Loop(s, m, b, i, k, stepS, stop);
      var rn := Loop(n, m, b, i, k, stepN, Never);
      LoopGrows(n, m, b, i, k, stepN, Never);
      if !s.on {
        StoppedStaysBehind(s, n, rs, rn);
      } else {
        var s1 := Poll(s, stop);
        var n1 := Poll(n, Never);
        PollQuiet(s, stop);
        PollQuiet(n, Never);
        if !s1.on {
          JustStopped(s, n, s1, rn);
        } else {
          s2, n2, done := stepS(s1, i, k), stepN(n1, i, k), false;
        }
      }
    }
  }

  lemma BatchStepsBehind(files: seq<string>, b: nat, total: int, service: Service, stop: StopRequest, refused: Refusal)
    requires b >= 1
    ensures StepsBehind(BatchStep(files, b, total, service, stop, refused), BatchStep(files, b, total, service, Never, refused))
  {
    forall v: World, u: World, i: nat, k: nat | v.on && Behind(v, u)
      ensures Behind(BatchStep(files, b, total, service, stop, refused)(v, i, k), BatchStep(files, b, total, service, Never, refused)(u, i, k))
    {
      OneBatchBehind(v, u, files, b, i, k, total, service, stop, refused);
    }
  }

  lemma RunFromBehind(s: World, n: World, files: seq<string>, b: nat, i: nat, k: nat, total: int, service: Service, stop: StopRequest, refused: Refusal)
    requires b >= 1 && Behind(s, n)
    ensures Behind(RunFrom(s, files, b, i, k, total, service, stop, refused), RunFrom(n, files, b, i, k, total, service, Never, refused))
  {
    BatchStepsBehind(files, b, total, service, stop, refused);
    BatchStepGrows(files, b, total, service, Never, refused);
    LoopBehind(s, n, |files|, b, i, k, BatchStep(files, b, total, service, stop, refused), BatchStep(files, b, total, service, Never, refused), stop);
  }

  /** The end of a run logs no rename. */
  lemma FinishQuiet(w: World, stop: StopRequest)
    ensures Attempts(Finish(w, stop).log) == Attempts(w.log)
  {
    var w1 := Poll(w, stop);
    PollQuiet(w, stop);
    if w1.on {
      AttemptsQuiet(w1.log, AllDone);
    }
  }

  /** Stopping only cuts the work short (gui.py:233-234, 291-292): whenever the Stop button
      is pressed, the renames the run attempts, with their outcomes, are the first renames of
      the same run left alone. */
  lemma StopOnlyCutsShort(w: World, files: seq<string>, b: int, service: Service, stop: StopRequest, refused: Refusal)
    ensures Attempts(Run(w, files, b, service, stop, refused).log) <= Attempts(Run(w, files, b, service, Never, refused).log)
  {
    if b > 0 {
      var total := BatchCount(|files|, b);
      var s := RunFrom(w, files, b, 0, 0, total, service, stop, refused);
      var n := RunFrom(w, files, b, 0, 0, total, service, Never, refused);
      RunFromBehind(w, w, files, b, 0, 0, total, service, stop, refused);
      FinishQuiet(s, stop);
      FinishQuiet(n, Never);
    } else if b < 0 {
      FinishQuiet(w, stop);
      FinishQuiet(w, Never);
    }
  }

  /** Once the worker has found the flag clear, the rest of the run renames nothing and logs
      nothing but its last lines: the folder stays as it was. */
  lemma NothingAfterStop(w: World, files: seq<string>, b: nat, i: nat, k: nat, total: int, service: Service, stop: StopRequest, refused: Refusal)
    requires b >= 1 && !w.on
    ensures var r := Finish(RunFrom(w, files, b, i, k, total, service, stop, refused), stop);
            r.dir == w.dir && r.log == w.log
  {
  }
}
