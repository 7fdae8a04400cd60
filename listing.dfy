/** The request text both drivers send for one batch: a numbered listing of the batch's
    file names, `"\n".join(f"{idx+1}. {file}" for idx, file in enumerate(batch_files))`,
    embedded in a fixed instruction template that states the batch's size. */
module Listing {
  import opened Text

  /** The naming service: `client.chat.completions.create` on the request for batch `k`
      (from 0) with the files `batch`, giving the reply's content, or `None` when the call
      raises. The request's prompt is `Prompt(batch)`, a function of the batch, so the service
      is written as a function of the batch itself. */
  type Service = (nat, seq<string>) -> Option<string>

  /** One listing line, `f"{k}. {name}"`. */
  function NumberedLine(k: nat, name: string): string
  {
    NatToString(k) + ". " + name
  }

  /** The listing's lines: line `j` (from 0) numbers `names[j]` as `j + 1`. */
  function NumberedLines(names: seq<string>): (lines: seq<string>)
    ensures |lines| == |names|
    ensures forall j :: 0 <= j < |names| ==> lines[j] == NumberedLine(j + 1, names[j])
  {
    seq(|names|, j requires 0 <= j < |names| => NumberedLine(j + 1, names[j]))
  }

  /** The listing, its lines joined by `"\n"`. */
  function FileListText(batch: seq<string>): string
  {
    Join(NumberedLines(batch), '\n')
  }

  /** Line `k` of the listing reads `"k. <k-th file>"`, for `k = 1..len(batch)`, as long as
      no file name contains a line break. */
  lemma FileListLines(batch: seq<string>)
    requires |batch| >= 1
    requires forall j :: 0 <= j < |batch| ==> '\n' !in batch[j]
    ensures Split(FileListText(batch), '\n') == NumberedLines(batch)
  {
    var lines := NumberedLines(batch);
    forall j | 0 <= j < |lines| ensures '\n' !in lines[j] {
      NumberedLineFree(j + 1, batch[j]);
    }
    SplitJoin(lines, '\n');
  }

  lemma NumberedLineFree(k: nat, name: string)
    requires '\n' !in name
    ensures '\n' !in NumberedLine(k, name)
  {
    var d := NatToString(k);
    var line := NumberedLine(k, name);
    forall i | 0 <= i < |line| ensures line[i] != '\n' {
      if i < |d| {
        assert line[i] == d[i];
      } else if i >= |d| + 2 {
        assert line[i] == name[i - |d| - 2];
      }
    }
  }

  /** The request's opening lines, up to the line that announces the listing. */
  function PromptHead(count: nat): string
  {
    "请帮我优化以下" + NatToString(count)
      + "个文件名，生成更加简洁、清晰的新文件名。\n保留原文件名的扩展名(.jpg/.mp4等)，保持原意但让文件名更有吸引力。\n请按照以下格式返回结果，只需返回编号和新文件名：\n\n原文件列表:"
  }

  /** The request's closing lines: the answer format it asks for. */
  const PromptTail: string := "\n新文件名:\n1. [新文件名1]\n2. [新文件名2]\n3. [新文件名3]\n"

  /** The user prompt of one batch (gui.py:245-256, ai_rename.py:36-47): the request stating
      the number of files, the listing, and the expected answer format. */
  function Prompt(batch: seq<string>): string
  {
    PromptHead(|batch|) + ['\n'] + FileListText(batch) + ['\n'] + PromptTail
  }

  /** The prompt carries the listing as whole lines: split into lines, it is the fixed
      introduction, then exactly the listing's lines, then the fixed answer template. */
  lemma PromptLines(batch: seq<string>)
    requires |batch| >= 1
    requires forall j :: 0 <= j < |batch| ==> '\n' !in batch[j]
    ensures Split(Prompt(batch), '\n')
            == Split(PromptHead(|batch|), '\n') + NumberedLines(batch) + Split(PromptTail, '\n')
  {
    SplitAround3(PromptHead(|batch|), FileListText(batch), PromptTail, '\n');
    FileListLines(batch);
  }
}
