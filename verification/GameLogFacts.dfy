/** Which line each fact of a log comes from. */
module GameLogFacts {
  import opened Common
  import opened GameLog

  type Test = LineFacts -> bool

  /** Line i is the last, or the first, that meets the test. */
  ghost predicate LastOf(classify: Classifier, lines: seq<string>, test: Test, i: int) {
    0 <= i < |lines| && test(classify(lines[i])) && forall j | i < j < |lines| :: !test(classify(lines[j]))
  }

  ghost predicate FirstOf(classify: Classifier, lines: seq<string>, test: Test, i: int) {
    0 <= i < |lines| && test(classify(lines[i])) && forall j | 0 <= j < i :: !test(classify(lines[j]))
  }

  ghost predicate Nowhere(classify: Classifier, lines: seq<string>, test: Test) {
    forall i | 0 <= i < |lines| :: !test(classify(lines[i]))
  }

  lemma OneMoreLine(classify: Classifier, lines: seq<string>, test: Test)
    requires lines != []
    ensures
      var n := |lines| - 1;
      && (forall i :: LastOf(classify, lines, test, i) <==> if test(classify(lines[n])) then i == n else LastOf(classify, lines[..n], test, i))
      && (forall i :: FirstOf(classify, lines, test, i) <==>
                      || FirstOf(classify, lines[..n], test, i)
                      || (i == n && test(classify(lines[n])) && Nowhere(classify, lines[..n], test)))
      && (Nowhere(classify, lines, test) <==> !test(classify(lines[n])) && Nowhere(classify, lines[..n], test))
  {
  }

  const PLAYERS: Test := (c: LineFacts) => c.players.Some?
  const DRIVER: Test := (c: LineFacts) => c.players.Some? && c.players.value.count >= 1
  const SESSION: Test := (c: LineFacts) => c.created.Some?
  const RESTART: Test := (c: LineFacts) => c.restart
  const CRASH: Test := (c: LineFacts) => c.crash

  /** The number of players and its time are those of the last such line; the first driver was seen at the first with one. */
  ghost predicate PlayersFrom(classify: Classifier, lines: seq<string>, f: Facts) {
    && (Nowhere(classify, lines, PLAYERS) ==> f.count == None && f.observedAt == None)
    && (forall i | LastOf(classify, lines, PLAYERS, i) ::
          var p := classify(lines[i]).players.value; f.count == Some(p.count) && f.observedAt == Some(p.at))
    && (Nowhere(classify, lines, DRIVER) ==> f.firstDriverSeenAt == None)
    && (forall i | FirstOf(classify, lines, DRIVER, i) :: f.firstDriverSeenAt == Some(classify(lines[i]).players.value.at))
  }

  /** The session and its time are those of the last created one, also when that line is undated. */
  ghost predicate SessionFrom(classify: Classifier, lines: seq<string>, f: Facts) {
    && (Nowhere(classify, lines, SESSION) ==> f.phase == None && f.phaseAt == None)
    && (forall i | LastOf(classify, lines, SESSION, i) ::
          f.phase == classify(lines[i]).created && f.phaseAt == classify(lines[i]).timestamp)
  }

  /** The time of the last restart. */
  ghost predicate RestartFrom(classify: Classifier, lines: seq<string>, f: Facts) {
    && (Nowhere(classify, lines, RESTART) ==> f.restartAt == None)
    && (forall i | LastOf(classify, lines, RESTART, i) :: f.restartAt == classify(lines[i]).timestamp)
  }

  /** The time of the last crash, and the last 500 characters of its line. */
  ghost predicate CrashFrom(classify: Classifier, lines: seq<string>, f: Facts) {
    && (Nowhere(classify, lines, CRASH) ==> f.crashAt == None && f.crashMessage == None)
    && (forall i | LastOf(classify, lines, CRASH, i) :: CrashAs(f, lines[i], classify(lines[i])))
  }

  ghost predicate CrashAs(f: Facts, line: string, c: LineFacts) {
    && f.crashAt == c.timestamp && f.crashMessage.Some?
    && IsEndOf(f.crashMessage.value, line) && |f.crashMessage.value| == if |line| > 500 then 500 else |line|
  }

  predicate IsEndOf(end: string, line: string) { |end| <= |line| && line[|line| - |end|..] == end }

  lemma {:induction false} PlayersTell(classify: Classifier, fromStart: bool, lines: seq<string>)
    ensures PlayersFrom(classify, lines, Fold(classify, NoFacts(fromStart), lines))
    decreases |lines|
  {
    if lines != [] {
      PlayersTell(classify, fromStart, lines[..|lines| - 1]);
      OneMoreLine(classify, lines, PLAYERS);
      OneMoreLine(classify, lines, DRIVER);
      FirstIsOneOf(classify, lines[..|lines| - 1], DRIVER);
      hide LastOf, FirstOf, Nowhere, SeePhase, SeeTimedStart, SeeRaceStart, SeeRestart, SeeCrash;
      SeeParts(Fold(classify, NoFacts(fromStart), lines[..|lines| - 1]), lines[|lines| - 1], classify(lines[|lines| - 1]));
    }
  }

  lemma {:induction false} FirstIsOneOf(classify: Classifier, lines: seq<string>, test: Test)
    ensures Nowhere(classify, lines, test) || exists i :: FirstOf(classify, lines, test, i)
    decreases |lines|
  {
    if lines != [] {
      FirstIsOneOf(classify, lines[..|lines| - 1], test);
      OneMoreLine(classify, lines, test);
      hide Nowhere;
      if !Nowhere(classify, lines[..|lines| - 1], test) {
        var i :| FirstOf(classify, lines[..|lines| - 1], test, i);
        assert FirstOf(classify, lines, test, i);
      } else if !Nowhere(classify, lines, test) {
        assert FirstOf(classify, lines, test, |lines| - 1);
      }
    }
  }

  /** What a line does to the facts, field by field. */
  lemma SeeParts(f: Facts, line: string, c: LineFacts)
    ensures
      var g, p, s := See(f, line, c), SeePlayers(f, c), SeePhase(f, c);
      && g.count == p.count && g.observedAt == p.observedAt && g.firstDriverSeenAt == p.firstDriverSeenAt
      && g.phase == s.phase && g.phaseAt == s.phaseAt
      && g.restartAt == SeeRestart(f, c).restartAt
      && g.crashAt == SeeCrash(f, c, line).crashAt && g.crashMessage == SeeCrash(f, c, line).crashMessage
  {
  }

  lemma {:induction false} SessionTells(classify: Classifier, fromStart: bool, lines: seq<string>)
    ensures SessionFrom(classify, lines, Fold(classify, NoFacts(fromStart), lines))
    decreases |lines|
  {
    if lines != [] {
      SessionTells(classify, fromStart, lines[..|lines| - 1]);
      OneMoreLine(classify, lines, SESSION);
      hide LastOf, Nowhere;
      SeeParts(Fold(classify, NoFacts(fromStart), lines[..|lines| - 1]), lines[|lines| - 1], classify(lines[|lines| - 1]));
      hide See;
    }
  }

  lemma {:induction false} RestartTells(classify: Classifier, fromStart: bool, lines: seq<string>)
    ensures RestartFrom(classify, lines, Fold(classify, NoFacts(fromStart), lines))
    decreases |lines|
  {
    if lines != [] {
      RestartTells(classify, fromStart, lines[..|lines| - 1]);
      OneMoreLine(classify, lines, RESTART);
      hide LastOf, Nowhere;
      SeeParts(Fold(classify, NoFacts(fromStart), lines[..|lines| - 1]), lines[|lines| - 1], classify(lines[|lines| - 1]));
      hide See;
    }
  }

  lemma {:induction false} CrashTells(classify: Classifier, fromStart: bool, lines: seq<string>)
    ensures CrashFrom(classify, lines, Fold(classify, NoFacts(fromStart), lines))
    decreases |lines|
  {
    if lines != [] {
      CrashTells(classify, fromStart, lines[..|lines| - 1]);
      OneMoreLine(classify, lines, CRASH);
      hide LastOf, Nowhere;
      CrashPart(Fold(classify, NoFacts(fromStart), lines[..|lines| - 1]), lines[|lines| - 1], classify(lines[|lines| - 1]));
      hide See, CrashAs;
    }
  }

  lemma CrashPart(f: Facts, line: string, c: LineFacts)
    ensures
      var g := See(f, line, c);
      if c.crash then CrashAs(g, line, c)
      else
        && g.crashAt == f.crashAt && g.crashMessage == f.crashMessage
        && forall l, d :: CrashAs(g, l, d) <==> CrashAs(f, l, d)
  {
    SeeParts(f, line, c);
    hide See;
  }

  // ---------------------------------------------------------------- starts

  /** The last session created up to line i is of this phase. */
  ghost predicate During(classify: Classifier, lines: seq<string>, phase: Phase, i: int)
    requires i < |lines|
  {
    exists k | 0 <= k <= i :: LastOf(classify, lines[..i + 1], SESSION, k) && classify(lines[k]).created == Some(phase)
  }

  /** Line i is dated and starts the race, or the timed session of a qualifying. */
  ghost predicate StartsRace(classify: Classifier, lines: seq<string>, i: int)
    requires 0 <= i < |lines|
  {
    classify(lines[i]).timestamp.Some? && classify(lines[i]).raceStart && During(classify, lines, Race, i)
  }

  ghost predicate StartsSport(classify: Classifier, lines: seq<string>, i: int)
    requires 0 <= i < |lines|
  {
    || StartsRace(classify, lines, i)
    || (classify(lines[i]).timestamp.Some? && classify(lines[i]).timedStart && During(classify, lines, Qualifying, i))
  }

  /** The sport started at the time of the first line that starts it; without one it did not. */
  ghost predicate SportFrom(classify: Classifier, lines: seq<string>, f: Facts) {
    && ((forall i | 0 <= i < |lines| :: !StartsSport(classify, lines, i)) ==> f.sportStartedAt == None)
    && (forall i | 0 <= i < |lines| && StartsSport(classify, lines, i) && (forall j | 0 <= j < i :: !StartsSport(classify, lines, j)) ::
          f.sportStartedAt == classify(lines[i]).timestamp)
  }

  ghost predicate RaceFrom(classify: Classifier, lines: seq<string>, f: Facts) {
    && ((forall i | 0 <= i < |lines| :: !StartsRace(classify, lines, i)) ==> f.raceStartedAt == None)
    && (forall i | 0 <= i < |lines| && StartsRace(classify, lines, i) && (forall j | 0 <= j < i :: !StartsRace(classify, lines, j)) ::
          f.raceStartedAt == classify(lines[i]).timestamp)
  }

  lemma {:induction false} LastIsOneOf(classify: Classifier, lines: seq<string>, test: Test)
    ensures Nowhere(classify, lines, test) || exists i :: LastOf(classify, lines, test, i)
    decreases |lines|
  {
    if lines != [] {
      var n := |lines| - 1;
      LastIsOneOf(classify, lines[..n], test);
      OneMoreLine(classify, lines, test);
      hide Nowhere;
      if test(classify(lines[n])) {
        assert LastOf(classify, lines, test, n);
      } else if !Nowhere(classify, lines[..n], test) {
        var i :| LastOf(classify, lines[..n], test, i);
        assert LastOf(classify, lines, test, i);
      }
    }
  }

  lemma PhaseIsDuring(classify: Classifier, fromStart: bool, lines: seq<string>, phase: Phase)
    requires lines != []
    ensures Fold(classify, NoFacts(fromStart), lines).phase == Some(phase) <==> During(classify, lines, phase, |lines| - 1)
  {
    assert lines[..|lines|] == lines;
    SessionTells(classify, fromStart, lines);
    LastIsOneOf(classify, lines, SESSION);
    hide Fold;
  }

  /** What a start line does, by the session it is in. */
  lemma StartParts(f: Facts, line: string, c: LineFacts)
    ensures
      var g := See(f, line, c);
      var race := c.timestamp.Some? && c.raceStart && g.phase == Some(Race);
      var timed := c.timestamp.Some? && c.timedStart && g.phase == Some(Qualifying);
      && g.raceStartedAt == (if f.raceStartedAt.None? && race then c.timestamp else f.raceStartedAt)
      && g.sportStartedAt == (if f.sportStartedAt.None? && (race || timed) then c.timestamp else f.sportStartedAt)
  {
  }

  lemma StartsBefore(classify: Classifier, lines: seq<string>, i: nat)
    requires i < |lines| - 1
    ensures StartsSport(classify, lines, i) <==> StartsSport(classify, lines[..|lines| - 1], i)
    ensures StartsRace(classify, lines, i) <==> StartsRace(classify, lines[..|lines| - 1], i)
  {
    assert lines[..|lines| - 1][..i + 1] == lines[..i + 1];
    hide LastOf;
  }

  /** Which lines start something, and what the last one does. */
  lemma StartStep(classify: Classifier, fromStart: bool, lines: seq<string>)
    requires lines != []
    ensures
      var n := |lines| - 1;
      var f, g := Fold(classify, NoFacts(fromStart), lines[..n]), Fold(classify, NoFacts(fromStart), lines);
      var c := classify(lines[n]);
      && (forall i: nat | i < n :: StartsSport(classify, lines, i) <==> StartsSport(classify, lines[..n], i))
      && (forall i: nat | i < n :: StartsRace(classify, lines, i) <==> StartsRace(classify, lines[..n], i))
      && (forall i: nat | i <= n && (StartsSport(classify, lines, i) || StartsRace(classify, lines, i)) :: classify(lines[i]).timestamp.Some?)
      && g.raceStartedAt == (if f.raceStartedAt.None? && StartsRace(classify, lines, n) then c.timestamp else f.raceStartedAt)
      && g.sportStartedAt == (if f.sportStartedAt.None? && StartsSport(classify, lines, n) then c.timestamp else f.sportStartedAt)
  {
    var n := |lines| - 1;
    PhaseIsDuring(classify, fromStart, lines, Race);
    PhaseIsDuring(classify, fromStart, lines, Qualifying);
    forall i: nat | i < n
      ensures StartsSport(classify, lines, i) <==> StartsSport(classify, lines[..n], i)
      ensures StartsRace(classify, lines, i) <==> StartsRace(classify, lines[..n], i)
    {
      StartsBefore(classify, lines, i);
    }
    StartParts(Fold(classify, NoFacts(fromStart), lines[..n]), lines[n], classify(lines[n]));
    hide See, During;
  }

  lemma {:induction false} SportTells(classify: Classifier, fromStart: bool, lines: seq<string>)
    ensures SportFrom(classify, lines, Fold(classify, NoFacts(fromStart), lines))
    decreases |lines|
  {
    hide StartsSport, StartsRace, See;
    if lines != [] {
      SportTells(classify, fromStart, lines[..|lines| - 1]);
      StartStep(classify, fromStart, lines);
      hide Fold;
    }
  }

  lemma {:induction false} RaceTells(classify: Classifier, fromStart: bool, lines: seq<string>)
    ensures RaceFrom(classify, lines, Fold(classify, NoFacts(fromStart), lines))
    decreases |lines|
  {
    hide StartsSport, StartsRace, See;
    if lines != [] {
      RaceTells(classify, fromStart, lines[..|lines| - 1]);
      StartStep(classify, fromStart, lines);
      hide Fold;
    }
  }
}
