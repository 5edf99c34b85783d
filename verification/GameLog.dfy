/**
  The game log and what it says: lines, the facts folded from them, and the incremental reader that must agree with
  reading the whole log at once.
 */
module GameLog {
  import opened Common

  // ---------------------------------------------------------------- lines

  /** The complete lines of a text, and what follows the last line end. */
  datatype Cut = Cut(lines: seq<string>, rest: string)

  function Feed(c: Cut, ch: char): Cut {
    if ch == '\n' then Cut(c.lines + [c.rest], "") else Cut(c.lines, c.rest + [ch])
  }

  function FeedAll(c: Cut, text: string): Cut
    decreases |text|
  {
    if text == "" then c else FeedAll(Feed(c, text[0]), text[1..])
  }

  function Split(text: string): Cut { FeedAll(Cut([], ""), text) }

  function Unlines(lines: seq<string>): string {
    if lines == [] then "" else Unlines(lines[..|lines| - 1]) + lines[|lines| - 1] + "\n"
  }

  /** The cut a text was made of: its lines, each followed by a line end, then the rest. */
  ghost predicate IsCutOf(c: Cut, text: string) {
    && Unlines(c.lines) + c.rest == text
    && (forall i | 0 <= i < |c.lines| :: '\n' !in c.lines[i])
    && '\n' !in c.rest
  }

  lemma {:induction false} FeedAllCuts(c: Cut, before: string, text: string)
    requires IsCutOf(c, before)
    ensures IsCutOf(FeedAll(c, text), before + text)
    decreases |text|
  {
    if text == "" {
      assert before + text == before;
    } else {
      var d := Feed(c, text[0]);
      if text[0] == '\n' {
        assert d.lines[..|d.lines| - 1] == c.lines;
        assert Unlines(d.lines) == Unlines(c.lines) + c.rest + "\n";
      }
      assert Unlines(d.lines) + d.rest == before + [text[0]];
      FeedAllCuts(d, before + [text[0]], text[1..]);
      assert before + [text[0]] + text[1..] == before + text;
    }
  }

  lemma SplitCuts(text: string)
    ensures IsCutOf(Split(text), text)
  {
    FeedAllCuts(Cut([], ""), "", text);
    assert "" + text == text;
  }

  lemma {:induction false} FeedAllJoins(c: Cut, a: string, b: string)
    ensures FeedAll(c, a + b) == FeedAll(FeedAll(c, a), b)
    decreases |a|
  {
    if a == "" {
      assert a + b == b;
    } else {
      assert (a + b)[0] == a[0] && (a + b)[1..] == a[1..] + b;
      FeedAllJoins(Feed(c, a[0]), a[1..], b);
    }
  }

  /** Feeding goes on from the rest alone; the lines found before only stand in front. */
  lemma {:induction false} FeedAllPrefix(lines: seq<string>, c: Cut, text: string)
    ensures
      var d := FeedAll(c, text);
      FeedAll(Cut(lines + c.lines, c.rest), text) == Cut(lines + d.lines, d.rest)
    decreases |text|
  {
    if text != "" {
      var d := Feed(c, text[0]);
      assert Feed(Cut(lines + c.lines, c.rest), text[0]) == Cut(lines + d.lines, d.rest) by {
        assert lines + (c.lines + [c.rest]) == lines + c.lines + [c.rest];
      }
      FeedAllPrefix(lines, d, text[1..]);
    }
  }

  lemma {:induction false} FeedAllPlain(c: Cut, text: string)
    requires '\n' !in text
    ensures FeedAll(c, text) == Cut(c.lines, c.rest + text)
    decreases |text|
  {
    if text == "" {
      assert c.rest + text == c.rest;
    } else {
      FeedAllPlain(Feed(c, text[0]), text[1..]);
      assert c.rest + [text[0]] + text[1..] == c.rest + text;
    }
  }

  /** Cutting a text in two pieces: the second piece is read behind the rest of the first. */
  lemma SplitJoins(a: string, b: string)
    ensures
      var c, d := Split(a), Split(Split(a).rest + b);
      Split(a + b) == Cut(c.lines + d.lines, d.rest)
  {
    var c := Split(a);
    SplitCuts(a);
    FeedAllJoins(Cut([], ""), a, b);
    FeedAllJoins(Cut([], ""), c.rest, b);
    FeedAllPlain(Cut([], ""), c.rest);
    FeedAllPrefix(c.lines, Cut([], c.rest), b);
    assert c.lines + [] == c.lines;
    assert [] + c.rest == c.rest;
  }

  // ---------------------------------------------------------------- facts

  datatype Phase = Practice | Qualifying | Warmup | Race

  datatype Players = Players(count: nat, at: int)

  /** What the patterns find in one line. `timestamp` is absent when the line does not begin with one. */
  datatype LineFacts = LineFacts(
    timestamp: Option<int>, players: Option<Players>, created: Option<Phase>,
    timedStart: bool, raceStart: bool, restart: bool, crash: bool)

  type Classifier = string -> LineFacts

  datatype Facts = Facts(
    count: Option<nat>, observedAt: Option<int>, firstDriverSeenAt: Option<int>,
    phase: Option<Phase>, phaseAt: Option<int>,
    sportStartedAt: Option<int>, raceStartedAt: Option<int>,
    restartCount: nat, restartAt: Option<int>,
    crashAt: Option<int>, crashMessage: Option<string>, fromStart: bool)

  function NoFacts(fromStart: bool): Facts {
    Facts(None, None, None, None, None, None, None, 0, None, None, None, fromStart)
  }

  function Or(a: Option<int>, b: Option<int>): Option<int> { if a.Some? then a else b }

  function SeePlayers(f: Facts, c: LineFacts): Facts {
    match c.players
    case None => f
    case Some(p) =>
      f.(count := Some(p.count), observedAt := Some(p.at),
         firstDriverSeenAt := if p.count > 0 then Or(f.firstDriverSeenAt, Some(p.at)) else f.firstDriverSeenAt)
  }

  function SeePhase(f: Facts, c: LineFacts): Facts {
    if c.created.Some? then f.(phase := c.created, phaseAt := c.timestamp) else f
  }

  function SeeTimedStart(f: Facts, c: LineFacts): Facts {
    if c.timedStart && f.phase == Some(Qualifying) then f.(sportStartedAt := Or(f.sportStartedAt, c.timestamp)) else f
  }

  function SeeRaceStart(f: Facts, c: LineFacts): Facts {
    if c.raceStart && f.phase == Some(Race)
    then f.(sportStartedAt := Or(f.sportStartedAt, c.timestamp), raceStartedAt := Or(f.raceStartedAt, c.timestamp))
    else f
  }

  function SeeRestart(f: Facts, c: LineFacts): Facts {
    if c.restart then f.(restartCount := f.restartCount + 1, restartAt := c.timestamp) else f
  }

  function Tail(s: string): string { if |s| <= 500 then s else s[|s| - 500..] }

  function SeeCrash(f: Facts, c: LineFacts, line: string): Facts {
    if c.crash then f.(crashAt := c.timestamp, crashMessage := Some(Tail(line))) else f
  }

  /** One line, pattern after pattern. */
  function See(f: Facts, line: string, c: LineFacts): Facts {
    SeeCrash(SeeRestart(SeeRaceStart(SeeTimedStart(SeePhase(SeePlayers(f, c), c), c), c), c), c, line)
  }

  function Fold(classify: Classifier, f: Facts, lines: seq<string>): Facts
    decreases |lines|
  {
    if lines == [] then f
    else See(Fold(classify, f, lines[..|lines| - 1]), lines[|lines| - 1], classify(lines[|lines| - 1]))
  }

  lemma {:induction false} FoldJoins(classify: Classifier, f: Facts, a: seq<string>, b: seq<string>)
    ensures Fold(classify, f, a + b) == Fold(classify, Fold(classify, f, a), b)
    decreases |b|
  {
    if b == [] {
      assert a + b == a;
    } else {
      assert (a + b)[..|a + b| - 1] == a + b[..|b| - 1];
      FoldJoins(classify, f, a, b[..|b| - 1]);
    }
  }

  function Restarts(classify: Classifier, lines: seq<string>): nat
    decreases |lines|
  {
    if lines == [] then 0
    else Restarts(classify, lines[..|lines| - 1]) + if classify(lines[|lines| - 1]).restart then 1 else 0
  }

  /** The restart count is the number of restart lines, and a race start is also a sport start. */
  lemma {:induction false} FoldCounts(classify: Classifier, fromStart: bool, lines: seq<string>)
    ensures
      var f := Fold(classify, NoFacts(fromStart), lines);
      && f.restartCount == Restarts(classify, lines)
      && (f.raceStartedAt.Some? ==> f.sportStartedAt.Some?)
      && f.fromStart == fromStart
    decreases |lines|
  {
    if lines != [] { FoldCounts(classify, fromStart, lines[..|lines| - 1]); }
  }

  /** The first start of the sport, of the race and of the drivers is never overwritten. */
  ghost predicate FirstsKept(f: Facts, g: Facts) {
    && (f.sportStartedAt.Some? ==> g.sportStartedAt == f.sportStartedAt)
    && (f.raceStartedAt.Some? ==> g.raceStartedAt == f.raceStartedAt)
    && (f.firstDriverSeenAt.Some? ==> g.firstDriverSeenAt == f.firstDriverSeenAt)
    && f.restartCount <= g.restartCount
  }

  lemma SeeKeepsFirsts(f: Facts, line: string, c: LineFacts)
    ensures FirstsKept(f, See(f, line, c))
  {
    var p := SeePhase(SeePlayers(f, c), c);
    assert FirstsKept(f, p);
    var q := SeeRaceStart(SeeTimedStart(p, c), c);
    assert FirstsKept(p, q);
    hide SeePlayers, SeePhase, SeeTimedStart, SeeRaceStart;
  }

  lemma {:induction false} FirstsStay(classify: Classifier, f: Facts, lines: seq<string>)
    ensures FirstsKept(f, Fold(classify, f, lines))
    decreases |lines|
  {
    if lines != [] {
      var n := |lines| - 1;
      FirstsStay(classify, f, lines[..n]);
      SeeKeepsFirsts(Fold(classify, f, lines[..n]), lines[n], classify(lines[n]));
      hide See;
    }
  }

  // ---------------------------------------------------------------- the incremental reader

  datatype Reader = Reader(offset: nat, buffer: string, facts: Facts)

  const FRESH := Reader(0, "", NoFacts(true))

  /** One read of the log as it now is: everything from the offset on, behind the carried-over buffer. */
  function ReadOn(classify: Classifier, s: Reader, log: string): Reader {
    var from := if |log| < s.offset then Reader(0, "", NoFacts(false)) else s;
    var cut := Split(from.buffer + log[from.offset..]);
    Reader(|log|, cut.rest, Fold(classify, from.facts, cut.lines))
  }

  /** Reading the whole text in one pass. */
  function Batch(classify: Classifier, fromStart: bool, text: string): Reader {
    var cut := Split(text);
    Reader(|text|, cut.rest, Fold(classify, NoFacts(fromStart), cut.lines))
  }

  /** A read that continues a batch reading of a prefix is the batch reading of the longer log. */
  lemma ReadOnContinues(classify: Classifier, fromStart: bool, seen: string, log: string)
    requires seen <= log
    ensures ReadOn(classify, Batch(classify, fromStart, seen), log) == Batch(classify, fromStart, log)
  {
    var piece := log[|seen|..];
    assert log == seen + piece;
    SplitJoins(seen, piece);
    FoldJoins(classify, NoFacts(fromStart), Split(seen).lines, Split(Split(seen).rest + piece).lines);
  }

  /** A log shorter than what was read is read from its beginning, and is known not to be whole. */
  lemma ReadOnAfterTruncation(classify: Classifier, fromStart: bool, seen: string, log: string)
    requires |log| < |seen|
    ensures ReadOn(classify, Batch(classify, fromStart, seen), log) == Batch(classify, false, log)
  {
    assert "" + log[0..] == log;
  }

  /** What a reader at the end of `seen` has read after reading on in `log`. */
  function Consumed(seen: string, log: string): string {
    if |log| < |seen| then log else seen + log[|seen|..]
  }

  /** Whatever the file now holds, the reader is where one pass over what it has consumed would be. */
  lemma ReadOnConsumes(classify: Classifier, fromStart: bool, seen: string, log: string)
    ensures
      var from := if |log| < |seen| then false else fromStart;
      var r := ReadOn(classify, Batch(classify, fromStart, seen), log);
      r == Batch(classify, from, Consumed(seen, log)) && r.facts.fromStart == from
    ensures seen <= log ==> Consumed(seen, log) == log
  {
    if |log| < |seen| {
      ReadOnAfterTruncation(classify, fromStart, seen, log);
      FoldCounts(classify, false, Split(log).lines);
    } else {
      var text := Consumed(seen, log);
      ReadOnContinues(classify, fromStart, seen, text);
      FoldCounts(classify, fromStart, Split(text).lines);
      assert text[|seen|..] == log[|seen|..];
    }
  }

  function Concat(pieces: seq<string>): string {
    if pieces == [] then "" else Concat(pieces[..|pieces| - 1]) + pieces[|pieces| - 1]
  }

  /** Reading after each of several appends. */
  function ReadPieces(classify: Classifier, pieces: seq<string>): Reader
    decreases |pieces|
  {
    if pieces == [] then FRESH
    else ReadOn(classify, ReadPieces(classify, pieces[..|pieces| - 1]), Concat(pieces))
  }

  /** However an append-only log is cut into pieces, even inside a line, the reader ends where one pass would. */
  lemma {:induction false} IncrementalIsBatch(classify: Classifier, pieces: seq<string>)
    ensures ReadPieces(classify, pieces) == Batch(classify, true, Concat(pieces))
    decreases |pieces|
  {
    if pieces != [] {
      var before := pieces[..|pieces| - 1];
      IncrementalIsBatch(classify, before);
      assert Concat(before) <= Concat(pieces);
      ReadOnContinues(classify, true, Concat(before), Concat(pieces));
    }
  }
}
