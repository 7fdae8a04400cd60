/** The command-line title renamer, cli.py: it picks the credentials the chosen model needs,
    reads the titles to rewrite from a file or takes one from the command line, has each
    rewritten by the renamer, and writes the results to a text file in a fixed layout.

    The renamer (`AIRenamer.rename`) is not part of this model: it is an oracle from a title
    to its rewrite, or to nothing when it raises. The environment is a map from variable
    names to values, a file to read is its lines or nothing when it cannot be opened, and a
    file written is the list of its lines, each of which ends in a newline. */
module Cli {
  import opened Text
  import opened Collect

  // ---------------------------------------------------------------- inputs

  /** The parsed command line: unset options are `None`. */
  datatype Args = Args(
    model: string,
    title: Option<string>,
    file: Option<string>,
    output: Option<string>,
    num: int,
    baiduApiKey: Option<string>,
    baiduSecretKey: Option<string>,
    aliyunApiKey: Option<string>,
    aliyunSecretKey: Option<string>,
    xunfeiApiKey: Option<string>,
    chatglmApiKey: Option<string>,
    listStyles: bool,
    listModels: bool)

  type Env = map<string, string>

  /** `os.environ.get(name)`. */
  function EnvGet(env: Env, name: string): Option<string> {
    if name in env then Some(env[name]) else None
  }

  /** Whether Python counts an optional string as true: set and non-empty. */
  predicate Truthy(v: Option<string>) {
    v.Some? && v.value != ""
  }

  /** The keys config.py ships: all empty (config.py:12-25). */
  const BaiduApiKey: string := ""
  const BaiduSecretKey: string := ""
  const AliyunApiKey: string := ""
  const AliyunSecretKey: string := ""
  const XunfeiApiKey: string := ""
  const ChatglmApiKey: string := ""

  /** The models and their descriptions (config.py:38-49). */
  const AvailableModels: map<string, string> := map[
    "ernie_bot" := "百度文心一言(标准版)",
    "ernie_bot_turbo" := "百度文心一言(快速版)",
    "qwen" := "阿里通义千问(标准版)",
    "qwen-turbo" := "阿里通义千问(极速版)",
    "qwen-plus" := "阿里通义千问(增强版)",
    "spark" := "讯飞星火认知大模型",
    "chatglm" := "智谱AI ChatGLM"]

  // ---------------------------------------------------------------- get_api_keys

  /** `arg or constant or os.environ.get(name)`: the first of the three Python counts as
      true; when none is, the environment's value, which may be empty or missing. */
  function FirstSet(arg: Option<string>, constant: string, env: Env, name: string): (r: Option<string>)
    ensures Truthy(r) <==> Truthy(arg) || constant != "" || Truthy(EnvGet(env, name))
    ensures Truthy(arg) ==> r == arg
    ensures !Truthy(arg) && constant != "" ==> r == Some(constant)
    ensures !Truthy(arg) && constant == "" ==> r == EnvGet(env, name)
  {
    if Truthy(arg) then arg else if constant != "" then Some(constant) else EnvGet(env, name)
  }

  /** What `get_api_keys` ends in: the key pair, or the error message and `sys.exit(1)`. */
  datatype KeyResult = Keys(apiKey: Option<string>, secretKey: Option<string>) | MissingKey

  predicate IsErnie(model: string) { model == "ernie_bot" || model == "ernie_bot_turbo" }
  predicate IsQwen(model: string) { model == "qwen" || model == "qwen-turbo" || model == "qwen-plus" }

  function BaiduApi(args: Args, env: Env): Option<string> { FirstSet(args.baiduApiKey, BaiduApiKey, env, "BAIDU_API_KEY") }
  function BaiduSecret(args: Args, env: Env): Option<string> { FirstSet(args.baiduSecretKey, BaiduSecretKey, env, "BAIDU_SECRET_KEY") }
  function AliyunApi(args: Args, env: Env): Option<string> { FirstSet(args.aliyunApiKey, AliyunApiKey, env, "ALIYUN_API_KEY") }
  function AliyunSecret(args: Args, env: Env): Option<string> { FirstSet(args.aliyunSecretKey, AliyunSecretKey, env, "ALIYUN_SECRET_KEY") }
  function XunfeiApi(args: Args, env: Env): Option<string> { FirstSet(args.xunfeiApiKey, XunfeiApiKey, env, "XUNFEI_API_KEY") }
  function ChatglmApi(args: Args, env: Env): Option<string> { FirstSet(args.chatglmApiKey, ChatglmApiKey, env, "CHATGLM_API_KEY") }

  /** `get_api_keys` (cli.py:175-223): the Baidu models need both keys, the Qwen family only
      the API key (its secret is passed on as found), Spark and ChatGLM only the API key and
      no secret; a model outside the families gets no keys at all. */
  function GetApiKeys(args: Args, env: Env): (r: KeyResult)
    ensures IsErnie(args.model) ==> (r.MissingKey? <==> !Truthy(BaiduApi(args, env)) || !Truthy(BaiduSecret(args, env)))
    ensures IsErnie(args.model) && r.Keys? ==> r == Keys(BaiduApi(args, env), BaiduSecret(args, env))
    ensures IsQwen(args.model) ==> (r.MissingKey? <==> !Truthy(AliyunApi(args, env)))
    ensures IsQwen(args.model) && r.Keys? ==> r == Keys(AliyunApi(args, env), AliyunSecret(args, env))
    ensures args.model == "spark" ==> r == if Truthy(XunfeiApi(args, env)) then Keys(XunfeiApi(args, env), None) else MissingKey
    ensures args.model == "chatglm" ==> r == if Truthy(ChatglmApi(args, env)) then Keys(ChatglmApi(args, env), None) else MissingKey
    ensures !IsErnie(args.model) && !IsQwen(args.model) && args.model != "spark" && args.model != "chatglm" ==> r == Keys(None, None)
  {
    if IsErnie(args.model) then
      var api := BaiduApi(args, env);
      var secret := BaiduSecret(args, env);
      if !Truthy(api) || !Truthy(secret) then MissingKey else Keys(api, secret)
    else if IsQwen(args.model) then
      var api := AliyunApi(args, env);
      var secret := AliyunSecret(args, env);
      if !Truthy(api) then MissingKey else Keys(api, secret)
    else if args.model == "spark" then
      var api := XunfeiApi(args, env);
      if !Truthy(api) then MissingKey else Keys(api, None)
    else if args.model == "chatglm" then
      var api := ChatglmApi(args, env);
      if !Truthy(api) then MissingKey else Keys(api, None)
    else Keys(None, None)
  }

  /** Keys given on the command line win over the environment: with every key the model's
      family reads set as an argument, the environment makes no difference and the keys
      returned are the arguments. */
  lemma ArgumentsWin(args: Args, env1: Env, env2: Env)
    requires IsErnie(args.model) ==> Truthy(args.baiduApiKey) && Truthy(args.baiduSecretKey)
    requires IsQwen(args.model) ==> Truthy(args.aliyunApiKey) && Truthy(args.aliyunSecretKey)
    requires args.model == "spark" ==> Truthy(args.xunfeiApiKey)
    requires args.model == "chatglm" ==> Truthy(args.chatglmApiKey)
    ensures GetApiKeys(args, env1) == GetApiKeys(args, env2)
    ensures IsErnie(args.model) ==> GetApiKeys(args, env1) == Keys(args.baiduApiKey, args.baiduSecretKey)
    ensures IsQwen(args.model) ==> GetApiKeys(args, env1) == Keys(args.aliyunApiKey, args.aliyunSecretKey)
  {
  }

  /** With the keys config.py ships, a key not given as an argument comes from the
      environment, and every key handed on is non-empty wherever the family needs one. */
  lemma ShippedConfigReadsEnvironment(args: Args, env: Env)
    ensures IsQwen(args.model) && !Truthy(args.aliyunApiKey) && GetApiKeys(args, env).Keys? ==>
              GetApiKeys(args, env).apiKey == EnvGet(env, "ALIYUN_API_KEY")
    ensures IsErnie(args.model) && !Truthy(args.baiduSecretKey) && GetApiKeys(args, env).Keys? ==>
              GetApiKeys(args, env).secretKey == EnvGet(env, "BAIDU_SECRET_KEY")
    ensures GetApiKeys(args, env).Keys? && (IsErnie(args.model) || IsQwen(args.model) || args.model == "spark" || args.model == "chatglm") ==>
              Truthy(GetApiKeys(args, env).apiKey)
  {
  }

  // ---------------------------------------------------------------- process_file

  /** What the renamer gives back: one title, or a list of variants. */
  datatype Renamed = Title(text: string) | Variants(items: seq<string>)

  /** The title a line of the file holds: the stripped line, unless it is blank. */
  function TitleOf(line: string): Option<string> {
    var t := Strip(line);
    if t != "" then Some(t) else None
  }

  /** `[line.strip() for line in f if line.strip()]` (cli.py:128). */
  function Titles(lines: seq<string>): seq<string> {
    Keep(lines, TitleOf)
  }

  /** Stripping is idempotent. */
  lemma StripTwice(s: string)
    ensures Strip(Strip(s)) == Strip(s)
  {
    var t := Strip(s);
    if |t| > 0 {
      StripCharsKeeps(t, Whitespace);
    }
  }

  /** Every title read from a file is non-empty and has nothing left to strip. */
  lemma {:induction false} TitlesClean(lines: seq<string>)
    ensures forall j :: 0 <= j < |Titles(lines)| ==> Titles(lines)[j] != "" && Strip(Titles(lines)[j]) == Titles(lines)[j]
    decreases |lines|
  {
    if |lines| > 0 {
      var front := lines[..|lines| - 1];
      var last := lines[|lines| - 1];
      assert lines == front + [last];
      KeepSnoc(front, last, TitleOf);
      TitlesClean(front);
      StripTwice(last);
      var t := Titles(lines);
      assert t == Titles(front) + Listed(TitleOf(last));
      forall j | 0 <= j < |t|
        ensures t[j] != "" && Strip(t[j]) == t[j]
      {
        if j >= |Titles(front)| {
          assert t[j] == Strip(last);
        }
      }
    }
  }

  /** Reading a file goes line by line: the titles of two stretches of lines are the titles
      of the first, then those of the second, and a blank line adds none. */
  lemma TitlesAppend(a: seq<string>, b: seq<string>)
    ensures Titles(a + b) == Titles(a) + Titles(b)
    ensures forall line :: Strip(line) == "" ==> Titles(a + [line]) == Titles(a)
  {
    KeepAppend(a, b, TitleOf);
    forall line | Strip(line) == ""
      ensures Titles(a + [line]) == Titles(a)
    {
      KeepSkip(a, line, TitleOf);
    }
  }

  /** What `process_file` ends in: the pairs of title and rewrite, or the error message and
      `sys.exit(1)`. */
  datatype FileRun = Processed(results: seq<(string, Renamed)>) | FileFailed

  /** `results` pairs the first `|results|` titles, in order, each with its rewrite. */
  predicate Rewritten(titles: seq<string>, results: seq<(string, Renamed)>, rename: string -> Option<Renamed>) {
    |results| <= |titles|
    && forall j :: 0 <= j < |results| ==> results[j].0 == titles[j] && rename(titles[j]) == Some(results[j].1)
  }

  /** Pairing the next title with its rewrite extends the pairing. */
  lemma RewrittenStep(titles: seq<string>, results: seq<(string, Renamed)>, rename: string -> Option<Renamed>, renamed: Renamed)
    requires Rewritten(titles, results, rename) && |results| < |titles|
    requires rename(titles[|results|]) == Some(renamed)
    ensures Rewritten(titles, results + [(titles[|results|], renamed)], rename)
  {
  }

  /** `process_file` (cli.py:112-141): every title of the file is rewritten, in file order,
      and paired with its rewrite; a file that cannot be read or a rewrite that raises ends
      the program. */
  method ProcessFile(lines: Option<seq<string>>, rename: string -> Option<Renamed>) returns (r: FileRun)
    ensures r.FileFailed? <==> lines.None? || exists j :: 0 <= j < |Titles(lines.value)| && rename(Titles(lines.value)[j]).None?
    ensures r.Processed? ==> |r.results| == |Titles(lines.value)| && Rewritten(Titles(lines.value), r.results, rename)
  {
    if lines.None? {
      return FileFailed;
    }
    var titles := Titles(lines.value);
    var results: seq<(string, Renamed)> := [];
    var i := 0;
    while i < |titles|
      invariant i <= |titles| && |results| == i
      invariant Rewritten(titles, results, rename)
    {
      var renamed := rename(titles[i]);
      if renamed.None? {
        return FileFailed;
      }
      RewrittenStep(titles, results, rename, renamed.value);
      results := results + [(titles[i], renamed.value)];
      i := i + 1;
    }
    return Processed(results);
  }

  // ---------------------------------------------------------------- save_results

  const Header: string := "# AI视频标题改名器生成结果"
  const HeadingTag: string := "## 标题 "
  const OriginalTag: string := "原标题: "
  const NewTag: string := "新标题: "
  const VariantsTag: string := "生成的变体:"

  /** The model line: the model's description, or its name when it has none (cli.py:155). */
  function ModelLine(model: string): string {
    "使用模型: " + (if model in AvailableModels then AvailableModels[model] else model)
  }

  /** The lines before the first result. */
  function Top(model: string): seq<string> {
    [Header, "", ModelLine(model), ""]
  }

  /** `f"{new}"`: a title as it is, a list as Python prints it (quotes inside the variants
      are not escaped here). */
  function ShowTitle(r: Renamed): string {
    match r
    case Title(t) => t
    case Variants(xs) => "[" + Quoted(xs) + "]"
  }

  function Quoted(xs: seq<string>): string {
    if xs == [] then "" else if |xs| == 1 then "'" + xs[0] + "'" else "'" + xs[0] + "', " + Quoted(xs[1..])
  }

  /** `enumerate(new)`: the variants of a list, the characters of a title. */
  function VariantsOf(r: Renamed): seq<string> {
    match r
    case Variants(xs) => xs
    case Title(t) => seq(|t|, (k: int) requires 0 <= k < |t| => [t[k]])
  }

  /** `"{j}. {variant}"` for the variants, numbered from 1. */
  function VariantLines(xs: seq<string>): seq<string> {
    if xs == [] then [] else VariantLines(xs[..|xs| - 1]) + [NatToString(|xs|) + ". " + xs[|xs| - 1]]
  }

  /** The middle lines of a section, between the original title and the closing blank line: the
      single new title, or the variants numbered from 1. */
  function SectionMiddle(renamed: Renamed, num: int): seq<string> {
    if num == 1 then [NewTag + ShowTitle(renamed)] else [VariantsTag] + VariantLines(VariantsOf(renamed))
  }

  /** The section of result number `n` (cli.py:158-167). */
  function Section(n: nat, original: string, renamed: Renamed, num: int): seq<string> {
    [HeadingTag + NatToString(n), OriginalTag + original] + SectionMiddle(renamed, num) + [""]
  }

  /** The sections of the results, numbered from 1. */
  function Sections(results: seq<(string, Renamed)>, num: int): seq<string> {
    if results == [] then []
    else
      var last := results[|results| - 1];
      Sections(results[..|results| - 1], num) + Section(|results|, last.0, last.1, num)
  }

  /** One more result adds its section after the others. */
  lemma SectionsStep(results: seq<(string, Renamed)>, i: nat, num: int)
    requires i < |results|
    ensures Sections(results[..i + 1], num) == Sections(results[..i], num) + Section(i + 1, results[i].0, results[i].1, num)
  {
    assert results[..i + 1][..i] == results[..i];
  }

  /** The lines `save_results` writes. */
  function Layout(results: seq<(string, Renamed)>, model: string, num: int): seq<string> {
    Top(model) + Sections(results, num)
  }

  /** The lines of one section, written one after the other (cli.py:158-167). */
  method WriteSection(n: nat, original: string, renamed: Renamed, num: int) returns (lines: seq<string>)
    ensures lines == Section(n, original, renamed, num)
  {
    var head := [HeadingTag + NatToString(n), OriginalTag + original];
    lines := head;
    if num == 1 {
      lines := lines + [NewTag + ShowTitle(renamed)];
    } else {
      lines := lines + [VariantsTag];
      var vs := VariantsOf(renamed);
      var j := 0;
      while j < |vs|
        invariant 0 <= j <= |vs|
        invariant lines == head + ([VariantsTag] + VariantLines(vs[..j]))
      {
        assert vs[..j + 1][..j] == vs[..j];
        ConcatAssoc([VariantsTag], VariantLines(vs[..j]), [NatToString(j + 1) + ". " + vs[j]]);
        ConcatAssoc(head, [VariantsTag] + VariantLines(vs[..j]), [NatToString(j + 1) + ". " + vs[j]]);
        lines := lines + [NatToString(j + 1) + ". " + vs[j]];
        j := j + 1;
      }
      assert vs[..j] == vs;
    }
    assert lines == head + SectionMiddle(renamed, num);
    lines := lines + [""];
  }

  /** `save_results` (cli.py:143-173): the header, the model line, then one section per
      result; a file that cannot be written ends the program. */
  method SaveResults(results: seq<(string, Renamed)>, model: string, num: int, writable: bool) returns (r: Option<seq<string>>)
    ensures r == if writable then Some(Layout(results, model, num)) else None
  {
    if !writable {
      return None;
    }
    var lines := Top(model);
    var i := 0;
    while i < |results|
      invariant 0 <= i <= |results|
      invariant lines == Top(model) + Sections(results[..i], num)
    {
      var section := WriteSection(i + 1, results[i].0, results[i].1, num);
      SectionsStep(results, i, num);
      ConcatAssoc(Top(model), Sections(results[..i], num), section);
      lines := lines + section;
      i := i + 1;
    }
    assert results[..i] == results;
    return Some(lines);
  }

  // ---------------------------------------------------------------- properties of the layout

  /** The variant lines number the variants from 1, in order. */
  lemma {:induction false} VariantLinesNumbered(xs: seq<string>)
    ensures |VariantLines(xs)| == |xs|
    ensures forall j :: 0 <= j < |xs| ==> VariantLines(xs)[j] == NatToString(j + 1) + ". " + xs[j]
    decreases |xs|
  {
    if xs != [] {
      VariantLinesNumbered(xs[..|xs| - 1]);
    }
  }

  /** A line that starts with `tag`. */
  predicate Tagged(line: string, tag: string) {
    |line| >= |tag| && line[..|tag|] == tag
  }

  /** The text after a section heading. */
  function HeadingOf(line: string): Option<string> {
    if Tagged(line, HeadingTag) then Some(line[|HeadingTag|..]) else None
  }

  /** The original title in an original-title line. */
  function OriginalOf(line: string): Option<string> {
    if Tagged(line, OriginalTag) then Some(line[|OriginalTag|..]) else None
  }

  /** A line whose first character differs from the tag's does not start with it. */
  lemma NotTagged(line: string, tag: string)
    requires |line| > 0 && |tag| > 0 && line[0] != tag[0]
    ensures !Tagged(line, tag)
  {
    if |line| >= |tag| {
      assert line[..|tag|][0] == line[0];
    }
  }

  /** A tag followed by text starts with the tag, and the text is what follows it. */
  lemma TaggedText(tag: string, text: string)
    ensures Tagged(tag + text, tag) && (tag + text)[|tag|..] == text
  {
    assert (tag + text)[..|tag|] == tag;
  }

  /** A variant line starts with a digit. */
  lemma VariantLinesStartWithDigit(xs: seq<string>)
    ensures forall j :: 0 <= j < |VariantLines(xs)| ==> |VariantLines(xs)[j]| > 0 && IsDigit(VariantLines(xs)[j][0])
  {
    VariantLinesNumbered(xs);
    forall j | 0 <= j < |VariantLines(xs)|
      ensures |VariantLines(xs)[j]| > 0 && IsDigit(VariantLines(xs)[j][0])
    {
      var s := NatToString(j + 1);
      assert VariantLines(xs)[j] == s + ". " + xs[j];
      assert (s + ". " + xs[j])[0] == s[0];
    }
  }

  /** Only the heading of a section is a heading, and it carries the section's number. */
  lemma SectionHeadings(n: nat, original: string, renamed: Renamed, num: int)
    ensures Keep(Section(n, original, renamed, num), HeadingOf) == [NatToString(n)]
    ensures Keep(Section(n, original, renamed, num), OriginalOf) == [original]
  {
    SectionHeadingLine(n, original, renamed, num);
    SectionOriginalLine(n, original, renamed, num);
  }

  lemma SectionHeadingLine(n: nat, original: string, renamed: Renamed, num: int)
    ensures Keep(Section(n, original, renamed, num), HeadingOf) == [NatToString(n)]
  {
    var h := HeadingTag + NatToString(n);
    var o := OriginalTag + original;
    var mid := SectionMiddle(renamed, num);
    assert Section(n, original, renamed, num) == [h, o] + mid + [""];
    TaggedText(HeadingTag, NatToString(n));
    NotTagged(o, HeadingTag);
    assert HeadingOf(h) == Some(NatToString(n)) && HeadingOf(o) == None && HeadingOf("") == None;
    MiddleUntagged(renamed, num);
    KeepSectionShape(h, o, mid, "", HeadingOf);
  }

  lemma SectionOriginalLine(n: nat, original: string, renamed: Renamed, num: int)
    ensures Keep(Section(n, original, renamed, num), OriginalOf) == [original]
  {
    var h := HeadingTag + NatToString(n);
    var o := OriginalTag + original;
    var mid := SectionMiddle(renamed, num);
    assert Section(n, original, renamed, num) == [h, o] + mid + [""];
    TaggedText(OriginalTag, original);
    NotTagged(h, OriginalTag);
    assert OriginalOf(h) == None && OriginalOf(o) == Some(original) && OriginalOf("") == None;
    MiddleUntagged(renamed, num);
    KeepSectionShape(h, o, mid, "", OriginalOf);
  }

  /** What `f` keeps of two lines, a middle part and a last line. */
  lemma KeepSectionShape<B>(h: string, o: string, mid: seq<string>, e: string, f: string -> Option<B>)
    ensures Keep([h, o] + mid + [e], f) == Listed(f(h)) + Listed(f(o)) + Keep(mid, f) + Listed(f(e))
  {
    assert [h] == [] + [h];
    KeepSnoc([], h, f);
    assert [h, o] == [h] + [o];
    KeepSnoc([h], o, f);
    KeepAppend([h, o], mid, f);
    KeepSnoc([h, o] + mid, e, f);
  }

  /** The lines between a section's original title and its end are neither headings nor
      original titles. */
  lemma MiddleUntagged(renamed: Renamed, num: int)
    ensures Keep(SectionMiddle(renamed, num), HeadingOf) == [] && Keep(SectionMiddle(renamed, num), OriginalOf) == []
  {
    var mid := SectionMiddle(renamed, num);
    if num != 1 {
      VariantLinesStartWithDigit(VariantsOf(renamed));
    }
    forall j | 0 <= j < |mid|
      ensures HeadingOf(mid[j]).None? && OriginalOf(mid[j]).None?
    {
      if num == 1 {
        assert (NewTag + ShowTitle(renamed))[0] == NewTag[0];
      } else if j == 0 {
      } else {
        assert mid[j] == VariantLines(VariantsOf(renamed))[j - 1];
      }
      NotTagged(mid[j], HeadingTag);
      NotTagged(mid[j], OriginalTag);
    }
    KeepNone(mid, HeadingOf);
    KeepNone(mid, OriginalOf);
  }

  /** The numbers `1`, ..., `n` as the headings write them. */
  function Numbers(n: nat): seq<string> {
    if n == 0 then [] else Numbers(n - 1) + [NatToString(n)]
  }

  /** The originals of the results, in order. */
  function Originals(results: seq<(string, Renamed)>): seq<string> {
    if results == [] then [] else Originals(results[..|results| - 1]) + [results[|results| - 1].0]
  }

  /** The header lines hold no section. */
  lemma TopUntagged(model: string)
    ensures Keep(Top(model), HeadingOf) == [] && Keep(Top(model), OriginalOf) == []
  {
    var t := Top(model);
    forall j | 0 <= j < |t|
      ensures HeadingOf(t[j]).None? && OriginalOf(t[j]).None?
    {
      if j == 2 {
        assert t[j][0] == '使';
        NotTagged(t[j], HeadingTag);
        NotTagged(t[j], OriginalTag);
      } else if j == 0 {
        assert Header[1] == ' ' && !Tagged(Header, HeadingTag) by {
          if |Header| >= |HeadingTag| {
            assert Header[..|HeadingTag|][1] == Header[1];
          }
        }
        NotTagged(t[j], OriginalTag);
      }
    }
    KeepNone(t, HeadingOf);
    KeepNone(t, OriginalOf);
  }

  /** The sections are numbered `1`, ..., `n` in order, one per result, and they carry the
      original titles in the order of the results (cli.py:157-159). */
  lemma {:induction false} SectionsNumbered(results: seq<(string, Renamed)>, num: int)
    ensures Keep(Sections(results, num), HeadingOf) == Numbers(|results|)
    ensures Keep(Sections(results, num), OriginalOf) == Originals(results)
    decreases |results|
  {
    if results != [] {
      var front := results[..|results| - 1];
      var last := results[|results| - 1];
      SectionsNumbered(front, num);
      SectionHeadings(|results|, last.0, last.1, num);
      KeepAppend(Sections(front, num), Section(|results|, last.0, last.1, num), HeadingOf);
      KeepAppend(Sections(front, num), Section(|results|, last.0, last.1, num), OriginalOf);
    }
  }

  /** The file `save_results` writes starts with the header and the model line (the
      description of a known model, the name of any other) and then has one section per
      result, headed `## 标题 1`, `## 标题 2`, ... in order, holding the original titles in
      order (cli.py:154-159). */
  lemma LayoutShape(results: seq<(string, Renamed)>, model: string, num: int)
    ensures var lines := Layout(results, model, num);
            && lines[..4] == [Header, "", ModelLine(model), ""]
            && (model in AvailableModels ==> lines[2] == "使用模型: " + AvailableModels[model])
            && (model !in AvailableModels ==> lines[2] == "使用模型: " + model)
            && Keep(lines, HeadingOf) == Numbers(|results|)
            && Keep(lines, OriginalOf) == Originals(results)
  {
    LayoutTop(results, model, num);
    TopUntagged(model);
    SectionsNumbered(results, num);
    KeepAppend(Top(model), Sections(results, num), HeadingOf);
    KeepAppend(Top(model), Sections(results, num), OriginalOf);
  }

  lemma LayoutTop(results: seq<(string, Renamed)>, model: string, num: int)
    ensures Layout(results, model, num)[..4] == [Header, "", ModelLine(model), ""]
  {
    PrefixOfConcat(Top(model), Sections(results, num));
  }

  lemma PrefixOfConcat<T>(a: seq<T>, b: seq<T>)
    ensures (a + b)[..|a|] == a
  {}

  /** A section with one rewrite has the single new-title line; otherwise it lists the
      variants numbered from 1, each on its own line (cli.py:161-166). */
  lemma SectionBody(n: nat, original: string, renamed: Renamed, num: int)
    ensures var s := Section(n, original, renamed, num);
            && (num == 1 ==> s == [HeadingTag + NatToString(n), OriginalTag + original, NewTag + ShowTitle(renamed), ""])
            && (num != 1 ==>
                  && |s| == |VariantsOf(renamed)| + 4 && s[2] == VariantsTag && s[|s| - 1] == ""
                  && forall j :: 0 <= j < |VariantsOf(renamed)| ==> s[3 + j] == NatToString(j + 1) + ". " + VariantsOf(renamed)[j])
  {
    if num != 1 {
      SectionVariants(n, original, renamed, num);
    }
  }

  lemma SectionVariants(n: nat, original: string, renamed: Renamed, num: int)
    requires num != 1
    ensures var s := Section(n, original, renamed, num);
            && |s| == |VariantsOf(renamed)| + 4 && s[2] == VariantsTag && s[|s| - 1] == ""
            && forall j :: 0 <= j < |VariantsOf(renamed)| ==> s[3 + j] == NatToString(j + 1) + ". " + VariantsOf(renamed)[j]
  {
    var vs := VariantsOf(renamed);
    var vl := VariantLines(vs);
    VariantLinesNumbered(vs);
    var hd := [HeadingTag + NatToString(n), OriginalTag + original];
    var mid := [VariantsTag] + vl;
    var sec := Section(n, original, renamed, num);
    assert sec == hd + mid + [""];
    ConcatAt(hd + mid, [""], |sec| - 1);
    ConcatAt(hd + mid, [""], 2);
    ConcatAt(hd, mid, 2);
    forall j | 0 <= j < |vs|
      ensures sec[3 + j] == NatToString(j + 1) + ". " + vs[j]
    {
      ConcatAt(hd + mid, [""], 3 + j);
      ConcatAt(hd, mid, 3 + j);
      ConcatAt([VariantsTag], vl, 1 + j);
    }
  }


  // ---------------------------------------------------------------- main

  /** Where the titles come from (cli.py:255-264). */
  datatype InputSource = FromFile(path: string) | FromTitle(title: string) | NoInput

  /** `--file` first, then the positional title; with neither the program exits. */
  function ChooseInput(args: Args): (r: InputSource)
    ensures r.FromFile? <==> Truthy(args.file)
    ensures r.FromFile? ==> r.path == args.file.value
    ensures r.FromTitle? <==> !Truthy(args.file) && Truthy(args.title)
    ensures r.FromTitle? ==> r.title == args.title.value
  {
    if Truthy(args.file) then FromFile(args.file.value)
    else if Truthy(args.title) then FromTitle(args.title.value)
    else NoInput
  }

  /** A file given with `--file` wins whatever title is also given. */
  lemma FileWins(args: Args, title: Option<string>)
    requires Truthy(args.file)
    ensures ChooseInput(args.(title := title)) == ChooseInput(args) == FromFile(args.file.value)
  {
  }

  /** How a run of the program ends. */
  datatype CliOutcome =
    | ListedOnly                                                      // --list-styles or --list-models
    | Exited(status: int)                                             // `sys.exit(status)` or an uncaught exception
    | Finished(results: seq<(string, Renamed)>, saved: Option<seq<string>>)

  /** The chosen input can be read and every one of its titles is rewritten without raising. */
  predicate InputRewrites(args: Args, readFile: string -> Option<seq<string>>, rename: string -> Option<Renamed>) {
    match ChooseInput(args)
    case NoInput => false
    case FromTitle(t) => rename(t).Some?
    case FromFile(p) =>
      readFile(p).Some? && forall j :: 0 <= j < |Titles(readFile(p).value)| ==> rename(Titles(readFile(p).value)[j]).Some?
  }

  /** How many titles the chosen input holds: one for a title argument, the file's titles
      for a readable file. */
  function InputSize(args: Args, readFile: string -> Option<seq<string>>): nat {
    match ChooseInput(args)
    case NoInput => 0
    case FromTitle(_) => 1
    case FromFile(p) => if readFile(p).Some? then |Titles(readFile(p).value)| else 0
  }

  /** `main` (cli.py:225-268) with the renamer's construction taken to succeed: the lists
      are printed if asked for; otherwise the keys are picked, the titles read and rewritten,
      and the results saved when an output path is given and there are results. The run
      finishes exactly when no listing is asked for, the keys are there, the input is
      rewritten in full, and a needed save can be written; every other run exits with 1. */
  method Execute(args: Args, env: Env, readFile: string -> Option<seq<string>>, rename: string -> Option<Renamed>, writable: bool)
    returns (o: CliOutcome)
    ensures o.ListedOnly? <==> args.listStyles || args.listModels
    ensures o.Exited? ==> o.status == 1
    ensures !args.listStyles && !args.listModels && GetApiKeys(args, env).MissingKey? ==> o == Exited(1)
    ensures !args.listStyles && !args.listModels && ChooseInput(args).NoInput? ==> o == Exited(1)
    ensures o.Finished? <==>
              && !args.listStyles && !args.listModels
              && GetApiKeys(args, env).Keys?
              && InputRewrites(args, readFile, rename)
              && (!Truthy(args.output) || InputSize(args, readFile) == 0 || writable)
    ensures o.Finished? ==> |o.results| == InputSize(args, readFile)
    ensures o.Finished? && ChooseInput(args).FromTitle? ==>
              o.results == [(args.title.value, rename(args.title.value).value)]
    ensures o.Finished? && ChooseInput(args).FromFile? ==>
              Rewritten(Titles(readFile(args.file.value).value), o.results, rename)
    ensures o.Finished? ==> o.saved == if Truthy(args.output) && o.results != [] then Some(Layout(o.results, args.model, args.num)) else None
  {
    if args.listStyles || args.listModels {
      return ListedOnly;
    }
    var keys := GetApiKeys(args, env);
    if keys.MissingKey? {
      return Exited(1);
    }
    var source := ChooseInput(args);
    var results: seq<(string, Renamed)>;
    match source {
      case NoInput =>
        return Exited(1);
      case FromTitle(t) =>
        var renamed := rename(t);
        if renamed.None? {
          return Exited(1);
        }
        results := [(t, renamed.value)];
      case FromFile(p) =>
        var run := ProcessFile(readFile(p), rename);
        if run.FileFailed? {
          return Exited(1);
        }
        results := run.results;
    }
    if Truthy(args.output) && results != [] {
      var saved := SaveResults(results, args.model, args.num, writable);
      if saved.None? {
        return Exited(1);
      }
      return Finished(results, saved);
    }
    return Finished(results, None);
  }
}
