/** The console driver, `batch_rename_files` in ai_rename.py, and the script block that
    launches it. It walks the folder's files in batches like the desktop worker, but it has
    no Stop button: it prints a preview of each batch's renames and asks on the console
    whether to apply them, and only the answer `y` (in any case) renames.

    The console is a pair of streams: the lines standard input still holds, which `input()`
    consumes one by one (raising `EOFError` once they run out), and what the program prints.
    The folder is the `FileSystem` the desktop worker also renames in. */
module AiRename {
  import opened Text
  import opened Batching
  import opened Extension
  import opened Folder
  import opened Collect
  import opened Listing
  import opened ReplyParser

  // ---------------------------------------------------------------- console and state

  /** The lines the driver prints that matter to a run. */
  datatype Event =
    | Found(count: nat)                                  // "找到N个文件"
    | BatchStarted(num: int, total: int, size: nat)      // "处理批次 num/total，共size个文件:"
    | Replied(content: string)                           // "API返回内容:" and the reply
    | NoNames                                            // "无法从API响应中提取有效的文件名"
    | Previewed(from: string, shown: string)             // "old -> new" in the preview
    | Asked                                              // "确认重命名这些文件? (y/n): "
    | Tried(attempt: Attempt)                            // "已重命名" or "重命名失败"
    | BatchFailed                                        // "处理批次时出错"
    | Waited                                             // "等待2秒，避免API限流..."
    | Crashed                                            // an exception that ends the script
    | InvalidFolder                                      // "错误: 无效的文件夹路径"
    | KeyRequired                                        // "错误: 必须提供API密钥"

  /** Everything a run changes: the folder, the unread console input, the printed lines. */
  datatype Session = Session(dir: Dir, input: seq<string>, log: seq<Event>)

  // ---------------------------------------------------------------- one batch, as functions

  /** The rename a pair asks for as the rename loop performs it: the stored name, as parsed,
      with no extension forced on (ai_rename.py:92-97). */
  function RawOf(batch: seq<string>): Pick -> Option<(string, string)> {
    (p: Pick) => if p.index < |batch| then Some((batch[p.index], p.name)) else None
  }

  /** The rename a pair asks for as the preview shows it: the name with the old name's
      extension forced on (ai_rename.py:80-88). */
  function ShowOf(batch: seq<string>): Pick -> Option<(string, string)> {
    (p: Pick) => if p.index < |batch| then Some((batch[p.index], FixExtension(p.name, Ext(batch[p.index])))) else None
  }

  /** The preview line for a pair. */
  function PreviewOf(batch: seq<string>): Pick -> Option<Event> {
    (p: Pick) => if p.index < |batch| then Some(Previewed(batch[p.index], FixExtension(p.name, Ext(batch[p.index])))) else None
  }

  /** The rename loop from pair `j` on: each pair the guard lets through is renamed as `move`
      says and the outcome printed, whatever it is; a failure does not stop the loop. */
  function RenameFrom(s: Session, picks: seq<Pick>, j: nat, move: Pick -> Option<(string, string)>, refused: Refusal): (r: Session)
    requires j <= |picks|
    ensures r.input == s.input && s.log <= r.log
    decreases |picks| - j
  {
    if j == |picks| then s
    else
      var m := move(picks[j]);
      if m.None? then RenameFrom(s, picks, j + 1, move, refused)
      else
        var (d, ok) := RenameOutcome(s.dir, m.value.0, m.value.1, refused);
        RenameFrom(s.(dir := d, log := s.log + [Tried(Attempt(m.value.0, m.value.1, ok))]), picks, j + 1, move, refused)
  }

  /** Whether the batch's pairs are put to the user and the answer is `y`. */
  predicate Confirmed(picks: seq<Pick>, input: seq<string>) {
    picks != [] && input != [] && Lower(input[0]) == "y"
  }

  /** The pairs parsed from a reply, renamed as `move` says (ai_rename.py:78-102): with none,
      the failure to extract names is printed; otherwise the preview is printed and the user
      asked. An exhausted input raises `EOFError`, which the batch's handler catches. Only the
      answer `y` renames. */
  function Confirm(s: Session, batch: seq<string>, picks: seq<Pick>, move: Pick -> Option<(string, string)>, refused: Refusal): (r: Session)
    ensures s.log <= r.log
  {
    if picks == [] then s.(log := s.log + [NoNames])
    else
      var s1 := s.(log := s.log + Keep(picks, PreviewOf(batch)) + [Asked]);
      if s1.input == [] then s1.(log := s1.log + [BatchFailed])
      else
        var s2 := s1.(input := s1.input[1..]);
        if Lower(s1.input[0]) == "y" then RenameFrom(s2, picks, 0, move, refused) else s2
  }

  /** What the driver does with a batch's pairs: it renames to the stored names. */
  function UsePicks(s: Session, batch: seq<string>, picks: seq<Pick>, refused: Refusal): (r: Session)
    ensures s.log <= r.log
  {
    Confirm(s, batch, picks, RawOf(batch), refused)
  }

  /** The body of one batch after its header (ai_rename.py:49-105): a failed request is
      printed and the batch given up; otherwise the reply is printed and its pairs are used. */
  function BatchBody(s: Session, batch: seq<string>, content: Option<string>, refused: Refusal): (r: Session)
    ensures s.log <= r.log
  {
    match content
    case None => s.(log := s.log + [BatchFailed])
    case Some(c) => UsePicks(s.(log := s.log + [Replied(c)]), batch, ParseReply(c, |batch|), refused)
  }

  /** The batch number `k` (from 0), at index `i = k * b`: header, body, and the wait when
      another batch follows (ai_rename.py:108-111). */
  function OneBatch(s: Session, files: seq<string>, b: nat, i: nat, k: nat, total: int, service: Service, refused: Refusal): (r: Session)
    requires b >= 1
    ensures s.log <= r.log
  {
    var batch := Slice(files, i, b);
    var s2 := s.(log := s.log + [BatchStarted(k + 1, total, |batch|)]);
    var s3 := BatchBody(s2, batch, service(k, batch), refused);
    if i + b < |files| then s3.(log := s3.log + [Waited]) else s3
  }

  /** The batch loop from index `i`, batch number `k`, on (ai_rename.py:30-111). */
  function RunFrom(s: Session, files: seq<string>, b: nat, i: nat, k: nat, total: int, service: Service, refused: Refusal): (r: Session)
    requires b >= 1
    ensures s.log <= r.log
    decreases |files| - i
  {
    if i >= |files| then s
    else RunFrom(OneBatch(s, files, b, i, k, total, service, refused), files, b, i + b, k + 1, total, service, refused)
  }

  /** The batch loop's first pass: with a batch at `i`, the loop runs it and goes on. */
  lemma RunFromUnfold(s: Session, files: seq<string>, b: nat, i: nat, k: nat, total: int, service: Service, refused: Refusal)
    requires b >= 1 && i < |files|
    ensures RunFrom(s, files, b, i, k, total, service, refused)
            == RunFrom(OneBatch(s, files, b, i, k, total, service, refused), files, b, i + b, k + 1, total, service, refused)
  {
  }

  /** A pass of the loop from `before` to `after` leaves the rest of the loop to do. */
  lemma LoopStep(before: Session, after: Session, files: seq<string>, b: nat, i: nat, k: nat, i': nat, k': nat, total: int, service: Service, refused: Refusal, target: Session)
    requires b >= 1 && i < |files| && i == k * b && i' == i + b && k' == k + 1
    requires after == OneBatch(before, files, b, i, k, total, service, refused)
    requires RunFrom(before, files, b, i, k, total, service, refused) == target
    ensures i' == k' * b
    ensures RunFrom(after, files, b, i', k', total, service, refused) == target
  {
    RunFromUnfold(before, files, b, i, k, total, service, refused);
    MulDistrib(k, b);
  }

  /** `batch_rename_files` for batch size `b` (ai_rename.py:11-111): the file count is
      printed first; `range` with a zero step raises `ValueError`, which nothing catches,
      and a negative step gives no batch. */
  function Run(s: Session, files: seq<string>, b: int, service: Service, refused: Refusal): (r: Session)
    ensures s.log <= r.log
    ensures b == 0 ==> r == s.(log := s.log + [Found(|files|), Crashed])
    ensures b < 0 ==> r == s.(log := s.log + [Found(|files|)])
  {
    var s0 := s.(log := s.log + [Found(|files|)]);
    if b == 0 then s0.(log := s0.log + [Crashed])
    else if b < 0 then s0
    else RunFrom(s0, files, b, 0, 0, BatchCount(|files|, b), service, refused)
  }

  // ---------------------------------------------------------------- the script block

  /** What the script block decides about its two input lines (ai_rename.py:119-124): the
      folder must name a directory, checked first, then the key must be non-empty; neither
      is trimmed. */
  datatype Launch = Launched(folder: string, apiKey: string) | NotAFolder | NoKey

  function LaunchCheck(folder: string, isDir: string -> bool, apiKey: string): (r: Launch)
    ensures r.Launched? <==> isDir(folder) && apiKey != ""
    ensures r.Launched? ==> r.folder == folder && r.apiKey == apiKey
    ensures r == NotAFolder <==> !isDir(folder)
  {
    if !isDir(folder) then NotAFolder
    else if apiKey == "" then NoKey
    else Launched(folder, apiKey)
  }

  /** The script (ai_rename.py:113-124): it reads the folder and the key from the console,
      an exhausted input raising `EOFError` that ends it, and runs with the default batch
      size 3 over the folder's listing `files` when both pass. */
  function Script(s: Session, isDir: string -> bool, files: seq<string>, service: Service, refused: Refusal): (r: Session)
    ensures s.log <= r.log
  {
    if |s.input| < 2 then s.(input := [], log := s.log + [Crashed])
    else
      var s1 := s.(input := s.input[2..]);
      match LaunchCheck(s.input[0], isDir, s.input[1])
      case NotAFolder => s1.(log := s1.log + [InvalidFolder])
      case NoKey => s1.(log := s1.log + [KeyRequired])
      case Launched(_, _) => Run(s1, files, 3, service, refused)
  }

  // ---------------------------------------------------------------- the driver, imperative

  /** The console: the lines standard input still holds and what has been printed. */
  class Terminal {
    var pending: seq<string>
    var out: seq<Event>

    constructor (pending: seq<string>)
      ensures this.pending == pending && out == []
    {
      this.pending := pending;
      out := [];
    }

    method Print(e: Event)
      modifies this
      ensures pending == old(pending) && out == old(out) + [e]
    {
      out := out + [e];
    }

    /** `input()`: the next line, or `None` where Python raises `EOFError`. */
    method ReadLine() returns (line: Option<string>)
      modifies this
      ensures out == old(out)
      ensures old(pending) == [] ==> line.None? && pending == []
      ensures old(pending) != [] ==> line == Some(old(pending)[0]) && pending == old(pending)[1..]
    {
      if pending == [] {
        line := None;
      } else {
        line := Some(pending[0]);
        pending := pending[1..];
      }
    }
  }

  /** The run's state as the functions above see it. */
  function SessionOf(fs: FileSystem, term: Terminal): Session
    reads fs, term
  {
    Session(fs.entries, term.pending, term.out)
  }

  /** The preview loop (ai_rename.py:80-88). */
  method ShowPreview(term: Terminal, batch: seq<string>, picks: seq<Pick>)
    modifies term
    ensures term.pending == old(term.pending) && term.out == old(term.out) + Keep(picks, PreviewOf(batch))
  {
    ghost var out0 := term.out;
    var j := 0;
    while j < |picks|
      invariant j <= |picks|
      invariant term.pending == old(term.pending) && term.out == out0 + Keep(picks[..j], PreviewOf(batch))
    {
      KeepStep(picks, j, PreviewOf(batch));
      PreviewPair(term, batch, picks[j]);
      j := j + 1;
    }
    assert picks[..j] == picks;
  }

  /** One pass of the preview loop: a pair whose index is in range prints its line. */
  method PreviewPair(term: Terminal, batch: seq<string>, p: Pick)
    modifies term
    ensures term.pending == old(term.pending) && term.out == old(term.out) + Listed(PreviewOf(batch)(p))
  {
    var idx := p.index;
    if idx < |batch| {
      var oldName := batch[idx];
      var ext := Ext(oldName);
      var newName := p.name;
      if !EndsWith(newName, ext) {
        newName := newName + ext;
      }
      term.Print(Previewed(oldName, newName));
    }
  }

  /** The rename loop (ai_rename.py:92-100), to the stored names. */
  method RenameAll(fs: FileSystem, term: Terminal, batch: seq<string>, picks: seq<Pick>)
    modifies fs, term
    ensures SessionOf(fs, term) == RenameFrom(old(SessionOf(fs, term)), picks, 0, RawOf(batch), fs.refused)
  {
    ghost var target := RenameFrom(SessionOf(fs, term), picks, 0, RawOf(batch), fs.refused);
    var j := 0;
    while j < |picks|
      invariant j <= |picks|
      invariant RenameFrom(SessionOf(fs, term), picks, j, RawOf(batch), fs.refused) == target
      decreases |picks| - j
    {
      var idx := picks[j].index;
      if idx < |batch| {
        var ok := fs.Rename(batch[idx], picks[j].name);
        term.Print(Tried(Attempt(batch[idx], picks[j].name, ok)));
      }
      j := j + 1;
    }
  }

  /** Preview, question and renames for a batch's pairs. */
  method ConfirmAndRename(fs: FileSystem, term: Terminal, batch: seq<string>, picks: seq<Pick>)
    modifies fs, term
    ensures SessionOf(fs, term) == UsePicks(old(SessionOf(fs, term)), batch, picks, fs.refused)
  {
    if picks == [] {
      term.Print(NoNames);
      return;
    }
    ShowPreview(term, batch, picks);
    term.Print(Asked);
    var answer := term.ReadLine();
    if answer.None? {
      term.Print(BatchFailed);
      return;
    }
    if Lower(answer.value) == "y" {
      RenameAll(fs, term, batch, picks);
    }
  }

  /** One pass of the batch loop, for the batch at `i = k * b`; its number is `i // b + 1`. */
  method RunBatch(fs: FileSystem, term: Terminal, files: seq<string>, b: nat, i: nat, ghost k: nat, total: int, service: Service)
    requires b >= 1 && i == k * b
    modifies fs, term
    ensures SessionOf(fs, term) == OneBatch(old(SessionOf(fs, term)), files, b, i, k, total, service, fs.refused)
  {
    var batch := Slice(files, i, b);
    BatchNumber(k, b);
    var num := i / b;
    term.Print(BatchStarted(num + 1, total, |batch|));
    var content := service(num, batch);
    if content.None? {
      term.Print(BatchFailed);
    } else {
      term.Print(Replied(content.value));
      var picks := CollectNewNames(content.value, |batch|);
      ConfirmAndRename(fs, term, batch, picks);
    }
    if i + b < |files| {
      term.Print(Waited);
    }
  }

  /** `batch_rename_files` over the folder's listing `files` (`os.listdir`, files only). */
  method BatchRenameFiles(fs: FileSystem, term: Terminal, files: seq<string>, b: int, service: Service)
    requires IsListing(files, fs.entries)
    modifies fs, term
    ensures SessionOf(fs, term) == Run(old(SessionOf(fs, term)), files, b, service, fs.refused)
  {
    term.Print(Found(|files|));
    if b == 0 {
      term.Print(Crashed);
      return;
    }
    if b > 0 {
      var total := (|files| - 1) / b + 1;
      ghost var target := RunFrom(SessionOf(fs, term), files, b, 0, 0, total, service, fs.refused);
      var i := 0;
      ghost var k := 0;
      while i < |files|
        invariant i == k * b
        invariant RunFrom(SessionOf(fs, term), files, b, i, k, total, service, fs.refused) == target
        decreases |files| - i
      {
        ghost var before := SessionOf(fs, term);
        ghost var i0, k0 := i, k;
        RunBatch(fs, term, files, b, i, k, total, service);
        i := i + b;
        k := k + 1;
        LoopStep(before, SessionOf(fs, term), files, b, i0, k0, i, k, total, service, fs.refused, target);
      }
    }
  }

  /** The script block: two console lines, the checks, and the run with batch size 3. */
  method RunScript(fs: FileSystem, term: Terminal, isDir: string -> bool, files: seq<string>, service: Service)
    requires IsListing(files, fs.entries)
    modifies fs, term
    ensures SessionOf(fs, term) == Script(old(SessionOf(fs, term)), isDir, files, service, fs.refused)
  {
    var folder := term.ReadLine();
    var apiKey := term.ReadLine();
    if folder.None? || apiKey.None? {
      term.Print(Crashed);
      return;
    }
    var launch := LaunchCheck(folder.value, isDir, apiKey.value);
    if launch == NotAFolder {
      term.Print(InvalidFolder);
    } else if launch == NoKey {
      term.Print(KeyRequired);
    } else {
      BatchRenameFiles(fs, term, files, 3, service);
    }
  }
}
