/** The desktop driver's worker, `BatchRenameGUI.process_files`: it walks the folder's files in
    batches, asks the naming service for new names, renames file by file with the original
    extension forced on, and watches the `is_processing` flag the Stop button clears.

    The Stop button runs on another thread. The model reifies that race as a schedule: the
    press either never comes, or lands just before the worker's `n`-th read of the flag
    (counted from 0 over the object's lifetime). The worker reads the flag before each batch
    (gui.py:233), after parsing a non-empty reply (gui.py:288, skipped by `and` when nothing
    was parsed), before each rename (gui.py:291), before the inter-batch delay when there is a
    next batch (gui.py:316, again skipped by `and`), and once after the loop (gui.py:322). */
module Gui {
  import opened Text
  import opened Batching
  import opened Extension
  import opened Folder
  import opened Collect
  import opened Listing
  import opened ReplyParser

  // ---------------------------------------------------------------- environment

  /** When the user presses Stop, relative to the worker's reads of the flag. */
  datatype StopRequest = Never | BeforePoll(n: nat)

  /** Whether the press is still to come at the worker's read number `p`. */
  predicate FlagAt(stop: StopRequest, p: nat) {
    match stop
    case Never => true
    case BeforePoll(n) => p < n
  }

  /** The worker's log (the lines `self.log` writes that matter to the run). */
  datatype Event =
    | BatchStarted(num: int, total: int, size: nat)      // "处理批次 num/total，共size个文件"
    | Replied(content: string)                           // "API返回内容" and the reply
    | RequestFailed                                      // "处理批次时出错"
    | NoNames                                            // "无法从API响应中提取有效的文件名"
    | Tried(attempt: Attempt)                            // "已重命名" or "重命名失败"
    | Waited                                             // "等待2秒，避免API限流..."
    | AllDone                                            // "所有文件处理完成!"
    | Crashed                                            // "发生错误"
    | UserStopped                                        // "用户已停止处理", from stop_processing

  /** Everything the run changes: the folder, the flag, the count of flag reads, the log. */
  datatype World = World(dir: Dir, on: bool, polls: nat, log: seq<Event>)

  /** The renames a log records, in order. */
  function TriedOf(e: Event): Option<Attempt> {
    if e.Tried? then Some(e.attempt) else None
  }

  function Attempts(log: seq<Event>): seq<Attempt> {
    Keep(log, TriedOf)
  }

  /** A log entry that is not a rename leaves the renames alone. */
  lemma AttemptsQuiet(log: seq<Event>, e: Event)
    requires !e.Tried?
    ensures Attempts(log + [e]) == Attempts(log)
  {
    KeepSnoc(log, e, TriedOf);
  }

  lemma AttemptsTried(log: seq<Event>, a: Attempt)
    ensures Attempts(log + [Tried(a)]) == Attempts(log) + [a]
  {
    KeepSnoc(log, Tried(a), TriedOf);
  }

  /** A longer log holds at least the renames of a shorter one. */
  lemma AttemptsGrow(log: seq<Event>, log': seq<Event>)
    requires log <= log'
    ensures Attempts(log) <= Attempts(log')
  {
    KeepPrefix(log, log', TriedOf);
  }

  // ---------------------------------------------------------------- the worker, as functions

  /** One read of `self.is_processing`; a Stop press due before it clears the flag first. */
  function Poll(w: World, stop: StopRequest): (r: World)
    ensures r.dir == w.dir && r.polls == w.polls + 1
    ensures r.on == (w.on && FlagAt(stop, w.polls))
    ensures r.log == w.log || r.log == w.log + [UserStopped]
    ensures !w.on ==> r.log == w.log
  {
    if w.on && !FlagAt(stop, w.polls) then w.(on := false, polls := w.polls + 1, log := w.log + [UserStopped])
    else w.(polls := w.polls + 1)
  }

  /** The name a pair is renamed to: the parsed name with the old name's extension forced on. */
  function Target(batch: seq<string>, p: Pick): string
    requires p.index < |batch|
  {
    FixExtension(p.name, Ext(batch[p.index]))
  }

  /** Whether every pair names a file of the batch. */
  predicate Fits(batch: seq<string>, picks: seq<Pick>) {
    forall p :: p in picks ==> p.index < |batch|
  }

  /** The rename loop from pair `j` on (gui.py:290-309): read the flag and stop if it is clear;
      otherwise rename, log the outcome whatever it is, and go on with the next pair. */
  function RenameFrom(w: World, batch: seq<string>, picks: seq<Pick>, j: nat, stop: StopRequest, refused: Refusal): (r: World)
    requires j <= |picks| && Fits(batch, picks)
    ensures w.log <= r.log
    ensures r.on ==> w.on
    ensures !w.on ==> !r.on && r.dir == w.dir && r.log == w.log
    decreases |picks| - j
  {
    if j == |picks| then w
    else
      var w1 := Poll(w, stop);
      if !w1.on then w1
      else
        var from := batch[picks[j].index];
        var to := Target(batch, picks[j]);
        var (d, ok) := RenameOutcome(w1.dir, from, to, refused);
        RenameFrom(w1.(dir := d, log := w1.log + [Tried(Attempt(from, to, ok))]), batch, picks, j + 1, stop, refused)
  }

  /** The body of one batch after its header (gui.py:258-313): a failed request is logged;
      otherwise the reply is logged and its pairs are used. */
  function BatchBody(w: World, batch: seq<string>, content: Option<string>, stop: StopRequest, refused: Refusal): (r: World)
    requires w.on
    ensures w.log <= r.log
    ensures r.on ==> w.on
  {
    match content
    case None => w.(log := w.log + [RequestFailed])
    case Some(c) => UsePicks(w.(log := w.log + [Replied(c)]), batch, ParseReply(c, |batch|), stop, refused)
  }

  /** The pairs parsed from a reply (gui.py:286-313): when there are some and the flag is
      still set, they are renamed; nothing parsed, or the flag cleared, logs that no names
      could be used. */
  function UsePicks(w: World, batch: seq<string>, picks: seq<Pick>, stop: StopRequest, refused: Refusal): (r: World)
    requires w.on && Fits(batch, picks)
    ensures w.log <= r.log
    ensures r.on ==> w.on
  {
    if picks == [] then w.(log := w.log + [NoNames])
    else
      var w1 := Poll(w, stop);
      if !w1.on then w1.(log := w1.log + [NoNames])
      else RenameFrom(w1, batch, picks, 0, stop, refused)
  }

  /** The delay decision after the batch at `i` (gui.py:316-319): only when another batch
      follows is the flag read, and only when it is still set is the wait logged. */
  function AfterBatch(w: World, i: nat, b: nat, n: nat, stop: StopRequest): (r: World)
    ensures w.log <= r.log
    ensures r.on ==> w.on
    ensures !w.on ==> !r.on && r.dir == w.dir && r.log == w.log
  {
    if i + b < n then
      var w1 := Poll(w, stop);
      if w1.on then w1.(log := w1.log + [Waited]) else w1
    else w
  }

  /** One pass of a batch loop: the state after the batch number `k` (from 0), which starts
      at index `i`. */
  type Step = (World, nat, nat) -> World

  /** The shape of the batch loop (gui.py:232-234): from index `i`, batch number `k`, on, in
      steps of `b`, read the flag before each batch, stop when it is clear, and otherwise run
      the pass. */
  function Loop(w: World, n: nat, b: nat, i: nat, k: nat, step: Step, stop: StopRequest): World
    requires b >= 1
    decreases n - i
  {
    if i >= n then w
    else
      var w1 := Poll(w, stop);
      if !w1.on then w1 else Loop(step(w1, i, k), n, b, i + b, k + 1, step, stop)
  }

  /** The worker's pass for the batch at `i`; it only ever runs with the flag set. */
  function BatchStep(files: seq<string>, b: nat, total: int, service: Service, stop: StopRequest, refused: Refusal): Step
  {
    (w: World, i: nat, k: nat) => if b >= 1 && w.on then OneBatch(w, files, b, i, k, total, service, stop, refused) else w
  }

  /** The batch loop from index `i`, batch number `k`, on (gui.py:232-319). */
  function RunFrom(w: World, files: seq<string>, b: nat, i: nat, k: nat, total: int, service: Service, stop: StopRequest, refused: Refusal): (r: World)
    requires b >= 1
    ensures w.log <= r.log
    ensures r.on ==> w.on
    ensures !w.on ==> !r.on && r.dir == w.dir && r.log == w.log
  {
    BatchStepGrows(files, b, total, service, stop, refused);
    LoopGrows(w, |files|, b, i, k, BatchStep(files, b, total, service, stop, refused), stop);
    Loop(w, |files|, b, i, k, BatchStep(files, b, total, service, stop, refused), stop)
  }

  /** A pass that only adds to the log and never sets the flag again. */
  ghost predicate Grows(step: Step) {
    forall v: World, i: nat, k: nat :: v.log <= step(v, i, k).log && (step(v, i, k).on ==> v.on)
  }

  lemma BatchStepGrows(files: seq<string>, b: nat, total: int, service: Service, stop: StopRequest, refused: Refusal)
    ensures Grows(BatchStep(files, b, total, service, stop, refused))
  {
  }

  /** The loop adds to the log, never sets the flag, and does nothing at all once it is
      clear, whatever its passes do as long as they only add to the log. */
  lemma {:induction false} LoopGrows(w: World, n: nat, b: nat, i: nat, k: nat, step: Step, stop: StopRequest)
    requires b >= 1 && Grows(step)
    ensures var r := Loop(w, n, b, i, k, step, stop);
            && w.log <= r.log && (r.on ==> w.on)
            && (!w.on ==> !r.on && r.dir == w.dir && r.log == w.log)
    decreases n - i
  {
    if i < n {
      var w1 := Poll(w, stop);
      if w1.on {
        LoopGrows(step(w1, i, k), n, b, i + b, k + 1, step, stop);
      }
    }
  }

  /** The batch loop's first pass: when there is a batch at `i` and the flag is found set,
      the loop runs that batch and goes on from `i + b`; when it is found clear, the loop ends
      with that read. */
  lemma RunFromUnfold(w: World, files: seq<string>, b: nat, i: nat, k: nat, total: int, service: Service, stop: StopRequest, refused: Refusal)
    requires b >= 1 && i < |files|
    ensures var w1 := Poll(w, stop);
            RunFrom(w, files, b, i, k, total, service, stop, refused)
            == if w1.on then RunFrom(OneBatch(w1, files, b, i, k, total, service, stop, refused), files, b, i + b, k + 1, total, service, stop, refused)
               else w1
  {
  }

  /** One pass of the batch loop once the flag has been found set: the header, the batch's
      body and the delay decision. The batch number `k` is `i // b`, as the loop keeps
      `i == k * b` (see `BatchNumber`). */
  function OneBatch(w: World, files: seq<string>, b: nat, i: nat, k: nat, total: int, service: Service, stop: StopRequest, refused: Refusal): (r: World)
    requires b >= 1 && w.on
    ensures w.log <= r.log
    ensures r.on ==> w.on
  {
    var batch := Slice(files, i, b);
    var w2 := w.(log := w.log + [BatchStarted(k + 1, total, |batch|)]);
    var w3 := BatchBody(w2, batch, service(k, batch), stop, refused);
    AfterBatch(w3, i, b, |files|, stop)
  }

  /** `OneBatch` as its three steps: the header, the body, the delay decision. */
  lemma OneBatchSteps(w: World, w2: World, w3: World, files: seq<string>, b: nat, i: nat, k: nat, total: int, service: Service, stop: StopRequest, refused: Refusal)
    requires b >= 1 && w.on
    requires w2 == w.(log := w.log + [BatchStarted(k + 1, total, |Slice(files, i, b)|)])
    requires w3 == BatchBody(w2, Slice(files, i, b), service(k, Slice(files, i, b)), stop, refused)
    ensures OneBatch(w, files, b, i, k, total, service, stop, refused) == AfterBatch(w3, i, b, |files|, stop)
  {
  }

  /** The end of the run (gui.py:322-330): completion is logged only when the flag is still
      set, and the flag is cleared in every case. */
  function Finish(w: World, stop: StopRequest): (r: World)
    ensures w.log <= r.log && !r.on && r.dir == w.dir
  {
    var w1 := Poll(w, stop);
    var w2 := if w1.on then w1.(log := w1.log + [AllDone]) else w1;
    w2.(on := false)
  }

  /** The whole of `process_files` for batch size `b`. The header's total divides by `b`
      before the loop, so `b == 0` raises `ZeroDivisionError`, which the outer handler logs.
      A negative `b` gives an empty `range`. */
  function Run(w: World, files: seq<string>, b: int, service: Service, stop: StopRequest, refused: Refusal): (r: World)
    ensures w.log <= r.log && !r.on
    ensures b == 0 ==> r.dir == w.dir && r.log == w.log + [Crashed]
  {
    if b == 0 then w.(log := w.log + [Crashed], on := false)
    else if b < 0 then Finish(w, stop)
    else Finish(RunFrom(w, files, b, 0, 0, BatchCount(|files|, b), service, stop, refused), stop)
  }

  // ---------------------------------------------------------------- start-up checks

  /** What `start_processing` decides: the folder path and the key are trimmed first. */
  datatype StartOutcome = Started(folder: string, apiKey: string) | BadFolder | MissingKey

  /** `start_processing`'s validation (gui.py:150-162): the trimmed folder must be a
      non-empty path of an existing directory, checked first, then the trimmed key must be
      non-empty. */
  function StartCheck(folder: string, isDir: string -> bool, apiKey: string): (r: StartOutcome)
    ensures r.Started? <==> Strip(folder) != "" && isDir(Strip(folder)) && Strip(apiKey) != ""
    ensures r.Started? ==> r.folder == Strip(folder) && r.apiKey == Strip(apiKey)
    ensures r == BadFolder <==> Strip(folder) == "" || !isDir(Strip(folder))
  {
    var f := Strip(folder);
    var k := Strip(apiKey);
    if f == "" || !isDir(f) then BadFolder
    else if k == "" then MissingKey
    else Started(f, k)
  }

  /** The key as the worker logs it, `'*' * (len(key) - 4) + key[-4:]`. */
  function KeyHint(key: string): (r: string)
    ensures |key| >= 4 ==> |r| == |key| && r[|key| - 4..] == key[|key| - 4..]
    ensures |key| >= 4 ==> forall j :: 0 <= j < |key| - 4 ==> r[j] == '*'
    ensures |key| < 4 ==> r == key
  {
    if |key| >= 4 then seq(|key| - 4, _ => '*') + key[|key| - 4..] else key
  }

  // ---------------------------------------------------------------- the worker, as a class

  /** The window's state that the worker shares with the Stop button. */
  class BatchRenameGui {
    var isProcessing: bool
    var polls: nat
    var log: seq<Event>
    const stop: StopRequest

    constructor (stop: StopRequest)
      ensures !isProcessing && polls == 0 && log == [] && this.stop == stop
    {
      isProcessing := false;
      polls := 0;
      log := [];
      this.stop := stop;
    }

    /** The run's state as the functional model sees it. */
    function State(fs: FileSystem): World
      reads this, fs
    {
      World(fs.entries, isProcessing, polls, log)
    }

    /** `start_processing`: validates the inputs and, when they pass, sets the flag. */
    method StartProcessing(folder: string, isDir: string -> bool, apiKey: string) returns (outcome: StartOutcome)
      modifies this
      ensures outcome == StartCheck(folder, isDir, apiKey)
      ensures isProcessing == (outcome.Started? || old(isProcessing))
      ensures polls == old(polls) && log == old(log)
    {
      outcome := StartCheck(folder, isDir, apiKey);
      if outcome.Started? {
        isProcessing := true;
      }
    }

    /** `stop_processing`: clears the flag and logs the stop. */
    method StopProcessing()
      modifies this
      ensures !isProcessing && polls == old(polls) && log == old(log) + [UserStopped]
    {
      isProcessing := false;
      log := log + [UserStopped];
    }

    /** `self.log(...)` for one of the worker's lines. */
    method Log(e: Event)
      modifies this
      ensures isProcessing == old(isProcessing) && polls == old(polls) && log == old(log) + [e]
    {
      log := log + [e];
    }

    /** One read of `self.is_processing` by the worker, with a Stop press due before it. */
    method ReadFlag(ghost fs: FileSystem) returns (on: bool)
      modifies this
      ensures State(fs) == Poll(old(State(fs)), stop) && on == isProcessing
    {
      if isProcessing && !FlagAt(stop, polls) {
        StopProcessing();
      }
      polls := polls + 1;
      on := isProcessing;
    }

    /** The rename loop of one batch. */
    method RenamePicks(fs: FileSystem, batch: seq<string>, picks: seq<Pick>)
      requires Fits(batch, picks)
      modifies this, fs
      ensures State(fs) == RenameFrom(old(State(fs)), batch, picks, 0, stop, fs.refused)
    {
      ghost var target := RenameFrom(State(fs), batch, picks, 0, stop, fs.refused);
      var j := 0;
      while j < |picks|
        invariant j <= |picks|
        invariant RenameFrom(State(fs), batch, picks, j, stop, fs.refused) == target
        decreases |picks| - j
      {
        var on := ReadFlag(fs);
        if !on {
          break;
        }
        var from := batch[picks[j].index];
        var to := Target(batch, picks[j]);
        var ok := fs.Rename(from, to);
        Log(Tried(Attempt(from, to, ok)));
        j := j + 1;
      }
    }

    /** One batch after its header: request, parse, and rename. */
    method ProcessBatch(fs: FileSystem, batch: seq<string>, k: nat, service: Service)
      requires isProcessing
      modifies this, fs
      ensures State(fs) == BatchBody(old(State(fs)), batch, service(k, batch), stop, fs.refused)
    {
      var content := service(k, batch);
      if content.None? {
        Log(RequestFailed);
        return;
      }
      Log(Replied(content.value));
      var picks := CollectNewNames(content.value, |batch|);
      UseReply(fs, batch, picks);
    }

    /** What the worker does with the pairs parsed from a reply. */
    method UseReply(fs: FileSystem, batch: seq<string>, picks: seq<Pick>)
      requires isProcessing && Fits(batch, picks)
      modifies this, fs
      ensures State(fs) == UsePicks(old(State(fs)), batch, picks, stop, fs.refused)
    {
      if picks == [] {
        Log(NoNames);
        return;
      }
      var on := ReadFlag(fs);
      if !on {
        Log(NoNames);
        return;
      }
      RenamePicks(fs, batch, picks);
    }

    /** One pass of the batch loop after the flag was found set, for the batch at `i = k * b`;
        its number is `i // b + 1`. */
    method RunBatch(fs: FileSystem, files: seq<string>, b: nat, i: nat, ghost k: nat, total: int, service: Service)
      requires b >= 1 && isProcessing && i == k * b
      modifies this, fs
      ensures State(fs) == OneBatch(old(State(fs)), files, b, i, k, total, service, stop, fs.refused)
    {
      ghost var w0 := State(fs);
      var batch := Slice(files, i, b);
      BatchNumber(k, b);
      var num := i / b;
      Log(BatchStarted(num + 1, total, |batch|));
      ghost var w2 := State(fs);
      assert w2 == w0.(log := w0.log + [BatchStarted(k + 1, total, |batch|)]);
      ProcessBatch(fs, batch, num, service);
      ghost var w3 := State(fs);
      WaitIfMore(fs, i, b, |files|);
      OneBatchSteps(w0, w2, w3, files, b, i, k, total, service, stop, fs.refused);
    }

    /** The delay decision after a batch (gui.py:316-319): another batch must follow and the
        flag must still be set. */
    method WaitIfMore(fs: FileSystem, i: nat, b: nat, n: nat)
      modifies this
      ensures State(fs) == AfterBatch(old(State(fs)), i, b, n, stop)
    {
      if i + b < n {
        var more := ReadFlag(fs);
        if more {
          Log(Waited);
        }
      }
    }

    /** `process_files` over the folder's listing `files` (`os.listdir`), batch size `b` and
        the naming service. */
    method ProcessFiles(fs: FileSystem, files: seq<string>, b: int, service: Service)
      requires IsListing(files, fs.entries)
      modifies this, fs
      ensures State(fs) == Run(old(State(fs)), files, b, service, stop, fs.refused)
    {
      if b == 0 {
        Log(Crashed);
        isProcessing := false;
        return;
      }
      if b > 0 {
        var total := (|files| - 1) / b + 1;
        ghost var target := RunFrom(State(fs), files, b, 0, 0, total, service, stop, fs.refused);
        var i := 0;
        ghost var k := 0;
        while i < |files|
          invariant i == k * b
          invariant RunFrom(State(fs), files, b, i, k, total, service, stop, fs.refused) == target
          decreases |files| - i
        {
          RunFromUnfold(State(fs), files, b, i, k, total, service, stop, fs.refused);
          var on := ReadFlag(fs);
          if !on {
            break;
          }
          RunBatch(fs, files, b, i, k, total, service);
          MulDistrib(k, b);
          i := i + b;
          k := k + 1;
        }
      }
      var on := ReadFlag(fs);
      if on {
        Log(AllDone);
      }
      isProcessing := false;
    }
  }
}
