/** What a run of the console driver renames: exactly the pairs of the batches the user
    confirms with `y`, to the names as parsed; the preview shows other names whenever the
    extension has to be forced on; every batch is announced, whatever happened to the one
    before; and nothing is renamed unless the script's checks pass. */
module AiProps {
  import opened Text
  import opened Batching
  import opened Extension
  import opened Folder
  import opened Collect
  import opened Listing
  import opened ReplyParser
  import opened AiRename

  // ---------------------------------------------------------------- the renames of a batch

  /** The rename a printed line records, as a (source, target) pair. */
  function MoveOf(e: Event): Option<(string, string)> {
    if e.Tried? then Some((e.attempt.from, e.attempt.to)) else None
  }

  /** The renames a log records, in order, whatever their outcome. */
  function Moves(log: seq<Event>): seq<(string, string)> {
    Keep(log, MoveOf)
  }

  /** The rename loop from `j` on attempts each pair `move` lets through, in order, and
      consumes no input. */
  lemma {:induction false} RenameFromMoves(s: Session, picks: seq<Pick>, j: nat, move: Pick -> Option<(string, string)>, refused: Refusal)
    requires j <= |picks|
    ensures var r := RenameFrom(s, picks, j, move, refused);
            r.input == s.input && Moves(r.log) == Moves(s.log) + Keep(picks[j..], move)
    decreases |picks| - j
  {
    if j < |picks| {
      KeepFront(picks, j, move);
      var m := move(picks[j]);
      if m.None? {
        RenameFromMoves(s, picks, j + 1, move, refused);
      } else {
        var (d, ok) := RenameOutcome(s.dir, m.value.0, m.value.1, refused);
        var e := Tried(Attempt(m.value.0, m.value.1, ok));
        KeepSnoc(s.log, e, MoveOf);
        RenameFromMoves(s.(dir := d, log := s.log + [e]), picks, j + 1, move, refused);
        ConcatAssoc(Moves(s.log), [m.value], Keep(picks[j + 1..], move));
      }
    } else {
      assert picks[j..] == [];
    }
  }

  /** The preview prints no rename. */
  lemma {:induction false} PreviewQuiet(batch: seq<string>, picks: seq<Pick>)
    ensures Moves(Keep(picks, PreviewOf(batch))) == []
    decreases |picks|
  {
    if |picks| > 0 {
      var n := |picks| - 1;
      PreviewQuiet(batch, picks[..n]);
      KeepAppend(Keep(picks[..n], PreviewOf(batch)), Listed(PreviewOf(batch)(picks[n])), MoveOf);
      KeepNone(Listed(PreviewOf(batch)(picks[n])), MoveOf);
    }
  }

  /** The preview and the question show no rename. */
  lemma AskQuiet(log: seq<Event>, batch: seq<string>, picks: seq<Pick>)
    ensures Moves(log + Keep(picks, PreviewOf(batch)) + [Asked]) == Moves(log)
  {
    var preview := Keep(picks, PreviewOf(batch));
    PreviewQuiet(batch, picks);
    KeepAppend(log, preview, MoveOf);
    KeepSkip(log + preview, Asked, MoveOf);
  }

  /** After a `y`, every pair `move` lets through is renamed, in order. */
  lemma ConfirmedRenames(s: Session, picks: seq<Pick>, move: Pick -> Option<(string, string)>, refused: Refusal)
    ensures var r := RenameFrom(s, picks, 0, move, refused);
            Moves(r.log) == Moves(s.log) + Keep(picks, move) && r.input == s.input
  {
    RenameFromMoves(s, picks, 0, move, refused);
    assert picks[0..] == picks;
  }

  /** The confirmation gate (ai_rename.py:78-100): the pairs are renamed, all of them and in
      order, exactly when there are some and the answer read is `y` in any case; one input
      line is consumed exactly when the question is asked and a line is left; and without a
      `y` the folder is left as it was. */
  lemma ConfirmGate(s: Session, batch: seq<string>, picks: seq<Pick>, move: Pick -> Option<(string, string)>, refused: Refusal)
    ensures var r := Confirm(s, batch, picks, move, refused);
            && Moves(r.log) == Moves(s.log) + (if Confirmed(picks, s.input) then Keep(picks, move) else [])
            && r.input == (if picks != [] && s.input != [] then s.input[1..] else s.input)
            && (!Confirmed(picks, s.input) ==> r.dir == s.dir)
  {
    var r := Confirm(s, batch, picks, move, refused);
    if picks == [] {
      KeepSkip(s.log, NoNames, MoveOf);
    } else {
      var s1 := s.(log := s.log + Keep(picks, PreviewOf(batch)) + [Asked]);
      AskQuiet(s.log, batch, picks);
      if s1.input == [] {
        assert r == s1.(log := s1.log + [BatchFailed]);
        KeepSkip(s1.log, BatchFailed, MoveOf);
      } else {
        var s2 := s1.(input := s1.input[1..]);
        if Lower(s1.input[0]) == "y" {
          assert r == RenameFrom(s2, picks, 0, move, refused);
          ConfirmedRenames(s2, picks, move, refused);
        } else {
          assert r == s2;
        }
      }
    }
  }

  // ---------------------------------------------------------------- preview against rename

  /** The renames the preview announces, as (source, shown name) pairs. */
  lemma {:induction false} PreviewIsShown(batch: seq<string>, picks: seq<Pick>)
    ensures var preview := Keep(picks, PreviewOf(batch));
            var shown := Keep(picks, ShowOf(batch));
            && |preview| == |shown|
            && forall m :: 0 <= m < |preview| ==> preview[m] == Previewed(shown[m].0, shown[m].1)
    decreases |picks|
  {
    if |picks| > 0 {
      PreviewIsShown(batch, picks[..|picks| - 1]);
    }
  }

  /** For one pair, the rename performed is the rename shown exactly when the parsed name
      already ends with the old extension (ai_rename.py:85-86 against 94-97). */
  lemma AppliedIsShownIff(batch: seq<string>, p: Pick)
    requires p.index < |batch|
    ensures RawOf(batch)(p) == ShowOf(batch)(p) <==> EndsWith(p.name, Ext(batch[p.index]))
  {
  }

  /** `os.path.splitext("a.jpg")` reports `".jpg"`, and `"b"` has no extension. */
  lemma ExtExamples()
    ensures Ext("a.jpg") == ".jpg" && Ext("b") == ""
  {
    assert LastDot("a") == -1;
    assert "a."[..1] == "a";
    assert LastDot("a.") == 1;
    assert "a.j"[..2] == "a.";
    assert LastDot("a.j") == 1;
    assert "a.jp"[..3] == "a.j";
    assert LastDot("a.jp") == 1;
    assert "a.jpg"[..4] == "a.jp";
    assert LastDot("a.jpg") == 1;
    assert "a.jpg"[..1] == "a" && "a"[0] != '.';
    assert "a.jpg"[1..] == ".jpg";
    assert LastDot("b") == -1;
  }

  lemma OneIsDigits()
    ensures IsDigits("1") && DigitsValue("1") == 1
  {
    assert "1"[..0] == "";
  }

  lemma NameBIsClean()
    ensures CleanName("b") == "b"
  {
    assert 'b' !in Whitespace + Brackets;
    CleanNameKeeps("b");
  }

  /** The reply `"1. b"` for the batch `["a.jpg"]` names the single pair `(0, "b")`. */
  lemma ReplyExample()
    ensures ParseReply("1. b", 1) == [Pick(0, "b")]
  {
    assert "1. b" == "1" + ". " + "b";
    assert '\n' !in "1. b";
    ParseReplyOneLine("1. b", 1);
    OneIsDigits();
    ParseWellFormedLine("1", "b", 1);
    NameBIsClean();
  }

  lemma FixExample()
    ensures FixExtension("b", ".jpg") == "b.jpg"
  {
    assert !EndsWith("b", ".jpg");
    assert "b" + ".jpg" == "b.jpg";
  }

  lemma LowerExample()
    ensures Lower("y") == "y"
  {
    assert LowerChar('y') == 'y';
  }

  /** The preview of the pair `(0, "b")` for the batch `["a.jpg"]`. */
  lemma PreviewExample()
    ensures Keep([Pick(0, "b")], PreviewOf(["a.jpg"])) == [Previewed("a.jpg", "b.jpg")]
  {
    ExtExamples();
    FixExample();
    KeepLast([Pick(0, "b")], PreviewOf(["a.jpg"]));
    assert [Pick(0, "b")][..0] == [];
  }

  /** Renaming `a.jpg` to `b` in the folder that holds only `a.jpg`. */
  lemma RenameExample(refused: Refusal)
    requires !refused(map["a.jpg" := 0], "a.jpg", "b")
    ensures RenameOutcome(map["a.jpg" := 0], "a.jpg", "b", refused) == (map["b" := 0], true)
  {
    var d := map["a.jpg" := 0];
    assert "a.jpg" != "b";
    assert (d - {"a.jpg"})["b" := 0] == map["b" := 0];
  }

  /** In the example, after the preview the user is asked, answers `y`, and the rename loop
      starts. */
  lemma ExampleAsks(refused: Refusal)
    ensures UsePicks(Session(map["a.jpg" := 0], ["y"], []), ["a.jpg"], ParseReply("1. b", 1), refused)
            == RenameFrom(Session(map["a.jpg" := 0], [], [Previewed("a.jpg", "b.jpg"), Asked]), [Pick(0, "b")], 0, RawOf(["a.jpg"]), refused)
  {
    var batch := ["a.jpg"];
    var picks := ParseReply("1. b", 1);
    ReplyExample();
    PreviewExample();
    LowerExample();
    var s := Session(map["a.jpg" := 0], ["y"], []);
    var shown := Keep(picks, PreviewOf(batch));
    assert shown == [Previewed("a.jpg", "b.jpg")];
    var s1 := s.(log := s.log + shown + [Asked]);
    LogOfTwo(s.log, shown, Asked);
    assert s1.log == [Previewed("a.jpg", "b.jpg"), Asked];
    assert UsePicks(s, batch, picks, refused) == Confirm(s, batch, picks, RawOf(batch), refused);
    assert Confirm(s, batch, picks, RawOf(batch), refused) == RenameFrom(s1.(input := []), picks, 0, RawOf(batch), refused);
  }

  /** A log that was empty, after one line and then another. */
  lemma LogOfTwo<T>(empty: seq<T>, one: seq<T>, x: T)
    requires empty == [] && |one| == 1
    ensures empty + one + [x] == [one[0], x]
  {
  }

  /** In the example, the rename loop renames `a.jpg` to the stored name `b`. */
  lemma ExampleRenames(refused: Refusal)
    requires !refused(map["a.jpg" := 0], "a.jpg", "b")
    ensures RenameFrom(Session(map["a.jpg" := 0], [], [Previewed("a.jpg", "b.jpg"), Asked]), [Pick(0, "b")], 0, RawOf(["a.jpg"]), refused)
            == Session(map["b" := 0], [], [Previewed("a.jpg", "b.jpg"), Asked, Tried(Attempt("a.jpg", "b", true))])
  {
    RenameExample(refused);
    var s2 := Session(map["a.jpg" := 0], [], [Previewed("a.jpg", "b.jpg"), Asked]);
    assert RawOf(["a.jpg"])(Pick(0, "b")) == Some(("a.jpg", "b"));
    assert s2.log + [Tried(Attempt("a.jpg", "b", true))] == [Previewed("a.jpg", "b.jpg"), Asked, Tried(Attempt("a.jpg", "b", true))];
  }

  /** The discrepancy, on the folder holding `a.jpg` and the reply `"1. b"` confirmed with
      `y`: the preview announces `a.jpg -> b.jpg`, but the file is renamed to `b`, losing its
      extension. */
  lemma PreviewMismatchExample(refused: Refusal)
    requires !refused(map["a.jpg" := 0], "a.jpg", "b")
    ensures var r := UsePicks(Session(map["a.jpg" := 0], ["y"], []), ["a.jpg"], ParseReply("1. b", 1), refused);
            && r.log == [Previewed("a.jpg", "b.jpg"), Asked, Tried(Attempt("a.jpg", "b", true))]
            && r.dir == map["b" := 0]
  {
    ExampleAsks(refused);
    ExampleRenames(refused);
  }

  /** The batch as evidently intended: the confirmed pairs are renamed to the names the
      preview showed. */
  function UsePicksAsShown(s: Session, batch: seq<string>, picks: seq<Pick>, refused: Refusal): (r: Session)
    ensures s.log <= r.log
  {
    Confirm(s, batch, picks, ShowOf(batch), refused)
  }

  /** Renaming as shown, each confirmed pair is renamed to exactly the name its preview line
      announced, and each new name ends with the old name's extension. */
  lemma AsShownRenamesWhatIsShown(s: Session, batch: seq<string>, picks: seq<Pick>, refused: Refusal)
    ensures var r := UsePicksAsShown(s, batch, picks, refused);
            var preview := Keep(picks, PreviewOf(batch));
            && Moves(s.log) <= Moves(r.log)
            && var done := Moves(r.log)[|Moves(s.log)|..];
            && (Confirmed(picks, s.input) ==> |done| == |preview| && forall m :: 0 <= m < |done| ==> preview[m] == Previewed(done[m].0, done[m].1))
            && (!Confirmed(picks, s.input) ==> done == [])
            && forall m :: m in done ==> EndsWith(m.1, Ext(m.0))
  {
    ConfirmGate(s, batch, picks, ShowOf(batch), refused);
    PreviewIsShown(batch, picks);
    ShownKeepExtension(batch, picks);
  }

  lemma {:induction false} ShownKeepExtension(batch: seq<string>, picks: seq<Pick>)
    ensures forall m :: m in Keep(picks, ShowOf(batch)) ==> EndsWith(m.1, Ext(m.0))
    decreases |picks|
  {
    if |picks| > 0 {
      ShownKeepExtension(batch, picks[..|picks| - 1]);
    }
  }

  // ---------------------------------------------------------------- a whole run

  /** What a run renames, read off the replies and the console input alone: pairs and the
      input left over. */
  datatype Plan = Plan(moves: seq<(string, string)>, rest: seq<string>)

  /** A batch's decision: a failed request or a reply without pairs asks nothing; otherwise
      one answer is read, if there is one left, and `y` confirms all the pairs. */
  function Decide(batch: seq<string>, content: Option<string>, input: seq<string>): Plan {
    match content
    case None => Plan([], input)
    case Some(c) =>
      var picks := ParseReply(c, |batch|);
      if picks == [] || input == [] then Plan([], input)
      else Plan(if Lower(input[0]) == "y" then Keep(picks, RawOf(batch)) else [], input[1..])
  }

  /** The decisions of the batches from index `i`, number `k`, on, in order. */
  function PlanFrom(files: seq<string>, b: nat, i: nat, k: nat, service: Service, input: seq<string>): Plan
    requires b >= 1
    decreases |files| - i
  {
    if i >= |files| then Plan([], input)
    else
      var batch := Slice(files, i, b);
      var d := Decide(batch, service(k, batch), input);
      var p := PlanFrom(files, b, i + b, k + 1, service, d.rest);
      Plan(d.moves + p.moves, p.rest)
  }

  /** From `s` to `r` the log gains exactly the renames of plan `p`, and the input left is
      the plan's. */
  predicate Follows(s: Session, r: Session, p: Plan) {
    Moves(r.log) == Moves(s.log) + p.moves && r.input == p.rest
  }

  /** A batch's body renames what its decision says and consumes what it says. */
  lemma BatchBodyPlan(s: Session, batch: seq<string>, content: Option<string>, refused: Refusal)
    ensures var r := BatchBody(s, batch, content, refused); Follows(s, r, Decide(batch, content, s.input))
  {
    match content
    case None =>
      KeepSkip(s.log, BatchFailed, MoveOf);
    case Some(c) =>
      KeepSkip(s.log, Replied(c), MoveOf);
      ConfirmGate(s.(log := s.log + [Replied(c)]), batch, ParseReply(c, |batch|), RawOf(batch), refused);
  }

  lemma OneBatchPlan(s: Session, files: seq<string>, b: nat, i: nat, k: nat, total: int, service: Service, refused: Refusal)
    requires b >= 1
    ensures var r := OneBatch(s, files, b, i, k, total, service, refused);
            var batch := Slice(files, i, b);
            Follows(s, r, Decide(batch, service(k, batch), s.input))
  {
    var batch := Slice(files, i, b);
    var e := BatchStarted(k + 1, total, |batch|);
    KeepSkip(s.log, e, MoveOf);
    var s2 := s.(log := s.log + [e]);
    BatchBodyPlan(s2, batch, service(k, batch), refused);
    var s3 := BatchBody(s2, batch, service(k, batch), refused);
    KeepSkip(s3.log, Waited, MoveOf);
  }

  lemma {:induction false} RunFromPlan(s: Session, files: seq<string>, b: nat, i: nat, k: nat, total: int, service: Service, refused: Refusal)
    requires b >= 1
    ensures var r := RunFrom(s, files, b, i, k, total, service, refused);
            Follows(s, r, PlanFrom(files, b, i, k, service, s.input))
    decreases |files| - i
  {
    if i < |files| {
      var batch := Slice(files, i, b);
      var d := Decide(batch, service(k, batch), s.input);
      var s1 := OneBatch(s, files, b, i, k, total, service, refused);
      var r1 := RunFrom(s1, files, b, i + b, k + 1, total, service, refused);
      OneBatchPlan(s, files, b, i, k, total, service, refused);
      RunFromPlan(s1, files, b, i + b, k + 1, total, service, refused);
      var p := PlanFrom(files, b, i + b, k + 1, service, s1.input);
      FollowsThen(s, s1, r1, d, p);
      RunFromUnfold(s, files, b, i, k, total, service, refused);
      PlanFromUnfold(files, b, i, k, service, s.input);
    } else {
      assert Moves(s.log) + [] == Moves(s.log);
    }
  }

  /** A plan followed by another is followed by their concatenation. */
  lemma FollowsThen(s: Session, s1: Session, r: Session, d: Plan, p: Plan)
    requires Follows(s, s1, d) && Follows(s1, r, p)
    ensures Follows(s, r, Plan(d.moves + p.moves, p.rest))
  {
    ConcatAssoc(Moves(s.log), d.moves, p.moves);
  }

  /** The plan from a batch on is that batch's decision, then the plan of the rest. */
  lemma PlanFromUnfold(files: seq<string>, b: nat, i: nat, k: nat, service: Service, input: seq<string>)
    requires b >= 1 && i < |files|
    ensures var batch := Slice(files, i, b);
            var d := Decide(batch, service(k, batch), input);
            var p := PlanFrom(files, b, i + b, k + 1, service, d.rest);
            PlanFrom(files, b, i, k, service, input) == Plan(d.moves + p.moves, p.rest)
  {
  }

  /** A run with a positive batch size (ai_rename.py:30-111) attempts exactly the renames
      the confirmed batches ask for, batch after batch, each to the name as parsed; a failed
      rename, a failed request or an exhausted input does not keep later batches from their
      turn. */
  lemma RunRenamesConfirmed(s: Session, files: seq<string>, b: int, service: Service, refused: Refusal)
    requires b >= 1
    ensures var r := Run(s, files, b, service, refused);
            var p := PlanFrom(files, b, 0, 0, service, s.input);
            Moves(r.log) == Moves(s.log) + p.moves && r.input == p.rest
  {
    var s0 := s.(log := s.log + [Found(|files|)]);
    KeepSkip(s.log, Found(|files|), MoveOf);
    RunFromPlan(s0, files, b, 0, 0, BatchCount(|files|, b), service, refused);
  }

  /** Without a `y` among the answers nothing is confirmed and nothing renamed. */
  lemma {:induction false} PlanWithoutYes(files: seq<string>, b: nat, i: nat, k: nat, service: Service, input: seq<string>)
    requires b >= 1
    requires forall a :: a in input ==> Lower(a) != "y"
    ensures PlanFrom(files, b, i, k, service, input).moves == []
    decreases |files| - i
  {
    if i < |files| {
      var batch := Slice(files, i, b);
      var d := Decide(batch, service(k, batch), input);
      if input != [] {
        assert input[0] in input;
        assert forall a :: a in input[1..] ==> a in input;
      }
      PlanWithoutYes(files, b, i + b, k + 1, service, d.rest);
    }
  }

  /** A user who never answers `y` keeps the folder's renames at none. */
  lemma NoYesNoRename(s: Session, files: seq<string>, b: int, service: Service, refused: Refusal)
    requires forall a :: a in s.input ==> Lower(a) != "y"
    ensures Moves(Run(s, files, b, service, refused).log) == Moves(s.log)
  {
    if b >= 1 {
      RunRenamesConfirmed(s, files, b, service, refused);
      PlanWithoutYes(files, b, 0, 0, service, s.input);
    } else if b == 0 {
      KeepSkip(s.log, Found(|files|), MoveOf);
      KeepSkip(s.log + [Found(|files|)], Crashed, MoveOf);
      assert s.log + [Found(|files|), Crashed] == s.log + [Found(|files|)] + [Crashed];
    } else {
      KeepSkip(s.log, Found(|files|), MoveOf);
    }
  }

  // ---------------------------------------------------------------- batch headers

  /** The batch number a printed line announces. */
  function HeaderOf(e: Event): Option<int> {
    if e.BatchStarted? then Some(e.num) else None
  }

  lemma {:induction false} RenameFromNoHeaders(s: Session, picks: seq<Pick>, j: nat, move: Pick -> Option<(string, string)>, refused: Refusal)
    requires j <= |picks|
    ensures Keep(RenameFrom(s, picks, j, move, refused).log, HeaderOf) == Keep(s.log, HeaderOf)
    decreases |picks| - j
  {
    if j < |picks| {
      var m := move(picks[j]);
      if m.None? {
        RenameFromNoHeaders(s, picks, j + 1, move, refused);
      } else {
        var (d, ok) := RenameOutcome(s.dir, m.value.0, m.value.1, refused);
        var e := Tried(Attempt(m.value.0, m.value.1, ok));
        KeepSkip(s.log, e, HeaderOf);
        RenameFromNoHeaders(s.(dir := d, log := s.log + [e]), picks, j + 1, move, refused);
      }
    }
  }

  lemma {:induction false} PreviewNoHeaders(batch: seq<string>, picks: seq<Pick>)
    ensures Keep(Keep(picks, PreviewOf(batch)), HeaderOf) == []
    decreases |picks|
  {
    if |picks| > 0 {
      var n := |picks| - 1;
      PreviewNoHeaders(batch, picks[..n]);
      KeepAppend(Keep(picks[..n], PreviewOf(batch)), Listed(PreviewOf(batch)(picks[n])), HeaderOf);
      KeepNone(Listed(PreviewOf(batch)(picks[n])), HeaderOf);
    }
  }

  /** The preview and the question announce no batch. */
  lemma AskNoHeaders(log: seq<Event>, batch: seq<string>, picks: seq<Pick>)
    ensures Keep(log + Keep(picks, PreviewOf(batch)) + [Asked], HeaderOf) == Keep(log, HeaderOf)
  {
    var preview := Keep(picks, PreviewOf(batch));
    PreviewNoHeaders(batch, picks);
    KeepAppend(log, preview, HeaderOf);
    KeepSkip(log + preview, Asked, HeaderOf);
  }

  lemma ConfirmNoHeaders(s: Session, batch: seq<string>, picks: seq<Pick>, refused: Refusal)
    ensures Keep(UsePicks(s, batch, picks, refused).log, HeaderOf) == Keep(s.log, HeaderOf)
  {
    var r := UsePicks(s, batch, picks, refused);
    if picks == [] {
      KeepSkip(s.log, NoNames, HeaderOf);
    } else {
      var s1 := s.(log := s.log + Keep(picks, PreviewOf(batch)) + [Asked]);
      AskNoHeaders(s.log, batch, picks);
      if s1.input == [] {
        assert r == s1.(log := s1.log + [BatchFailed]);
        KeepSkip(s1.log, BatchFailed, HeaderOf);
      } else {
        var s2 := s1.(input := s1.input[1..]);
        if Lower(s1.input[0]) == "y" {
          assert r == RenameFrom(s2, picks, 0, RawOf(batch), refused);
          RenameFromNoHeaders(s2, picks, 0, RawOf(batch), refused);
        } else {
          assert r == s2;
        }
      }
    }
  }

  /** A batch's body announces no batch. */
  lemma BatchBodyNoHeaders(s: Session, batch: seq<string>, content: Option<string>, refused: Refusal)
    ensures Keep(BatchBody(s, batch, content, refused).log, HeaderOf) == Keep(s.log, HeaderOf)
  {
    match content
    case None =>
      KeepSkip(s.log, BatchFailed, HeaderOf);
    case Some(c) =>
      KeepSkip(s.log, Replied(c), HeaderOf);
      ConfirmNoHeaders(s.(log := s.log + [Replied(c)]), batch, ParseReply(c, |batch|), refused);
  }

  lemma OneBatchHeader(s: Session, files: seq<string>, b: nat, i: nat, k: nat, total: int, service: Service, refused: Refusal)
    requires b >= 1
    ensures Keep(OneBatch(s, files, b, i, k, total, service, refused).log, HeaderOf) == Keep(s.log, HeaderOf) + [k + 1]
  {
    var batch := Slice(files, i, b);
    var e := BatchStarted(k + 1, total, |batch|);
    KeepSnoc(s.log, e, HeaderOf);
    var s2 := s.(log := s.log + [e]);
    BatchBodyNoHeaders(s2, batch, service(k, batch), refused);
    KeepSkip(BatchBody(s2, batch, service(k, batch), refused).log, Waited, HeaderOf);
  }

  /** The batch numbers a log announces, in order. */
  function Headers(log: seq<Event>): seq<int> {
    Keep(log, HeaderOf)
  }

  /** From `s` to `r` the log announces the batches from index `i` on, numbered from `k + 1`. */
  predicate AnnouncesFrom(s: Session, r: Session, n: nat, b: nat, i: nat, k: nat)
    requires b >= 1
  {
    Headers(r.log) == Headers(s.log) + Gather(n, b, i, k, NumberPart())
  }

  lemma {:induction false} RunFromHeaders(s: Session, files: seq<string>, b: nat, i: nat, k: nat, total: int, service: Service, refused: Refusal)
    requires b >= 1
    ensures var r := RunFrom(s, files, b, i, k, total, service, refused); AnnouncesFrom(s, r, |files|, b, i, k)
    decreases |files| - i
  {
    if i < |files| {
      var s1 := OneBatch(s, files, b, i, k, total, service, refused);
      RunFromHeaders(s1, files, b, i + b, k + 1, total, service, refused);
      HeadersStep(s, s1, files, b, i, k, total, service, refused);
    } else {
      HeadersDone(s, files, b, i, k, total, service, refused);
    }
  }

  /** Past the last batch the loop announces nothing more. */
  lemma HeadersDone(s: Session, files: seq<string>, b: nat, i: nat, k: nat, total: int, service: Service, refused: Refusal)
    requires b >= 1 && i >= |files|
    ensures AnnouncesFrom(s, RunFrom(s, files, b, i, k, total, service, refused), |files|, b, i, k)
  {
    assert Headers(s.log) + [] == Headers(s.log);
  }

  /** One pass of the loop adds its own number before those of the rest of the loop. */
  lemma HeadersStep(s: Session, s1: Session, files: seq<string>, b: nat, i: nat, k: nat, total: int, service: Service, refused: Refusal)
    requires b >= 1 && i < |files| && s1 == OneBatch(s, files, b, i, k, total, service, refused)
    requires AnnouncesFrom(s1, RunFrom(s1, files, b, i + b, k + 1, total, service, refused), |files|, b, i + b, k + 1)
    ensures AnnouncesFrom(s, RunFrom(s, files, b, i, k, total, service, refused), |files|, b, i, k)
  {
    RunFromUnfold(s, files, b, i, k, total, service, refused);
    OneBatchHeader(s, files, b, i, k, total, service, refused);
    GatherNumberStep(|files|, b, i, k);
    ConcatAssoc(Keep(s.log, HeaderOf), [k + 1], Gather(|files|, b, i + b, k + 1, NumberPart()));
  }

  /** A run (ai_rename.py:30-32) announces the batches `1/total`, ..., `total/total` in
      order, one per batch of the listing, with `total` the count `(len(files) - 1) // b + 1`,
      even when a batch before failed. */
  lemma HeadersCountBatches(s: Session, files: seq<string>, b: int, service: Service, refused: Refusal)
    requires b >= 1 && |files| > 0 && s.log == []
    ensures var nums := Headers(Run(s, files, b, service, refused).log);
            && |nums| == BatchCount(|files|, b)
            && forall m :: 0 <= m < |nums| ==> nums[m] == m + 1
  {
    var s0 := s.(log := s.log + [Found(|files|)]);
    KeepSkip(s.log, Found(|files|), HeaderOf);
    RunFromHeaders(s0, files, b, 0, 0, BatchCount(|files|, b), service, refused);
    GatherNumbers(|files|, b, 0, 0);
    assert Keep(s.log, HeaderOf) == [];
  }

  // ---------------------------------------------------------------- the script block

  /** The script renames nothing unless the folder is a directory and the key non-empty;
      once both pass it runs the driver with batch size 3 on the rest of the input. */
  lemma ScriptGate(s: Session, isDir: string -> bool, files: seq<string>, service: Service, refused: Refusal)
    ensures var r := Script(s, isDir, files, service, refused);
            && (|s.input| < 2 || !LaunchCheck(s.input[0], isDir, s.input[1]).Launched? ==> r.dir == s.dir && Moves(r.log) == Moves(s.log))
            && (|s.input| >= 2 && LaunchCheck(s.input[0], isDir, s.input[1]).Launched? ==> r == Run(s.(input := s.input[2..]), files, 3, service, refused))
  {
    if |s.input| < 2 {
      KeepSkip(s.log, Crashed, MoveOf);
    } else {
      var s1 := s.(input := s.input[2..]);
      match LaunchCheck(s.input[0], isDir, s.input[1])
      case NotAFolder => KeepSkip(s1.log, InvalidFolder, MoveOf);
      case NoKey => KeepSkip(s1.log, KeyRequired, MoveOf);
      case Launched(_, _) =>
    }
  }
}
