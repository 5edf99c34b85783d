/**
  The load summary of a profiling run and its risk level. Rounding is any monotone function; sorting is any function
  that returns the sorted permutation, which is unique.
 */
module LoadSummary {
  import opened Common
  import opened Sorting

  // ---------------------------------------------------------------- risk levels

  datatype Level = OK | WATCH | RISK | CRITICAL
  datatype Factor = CpuSingleCore | Ram | CpuGlobal | Stability | NoFactor

  function Severity(l: Level): nat {
    match l
    case OK => 0
    case WATCH => 1
    case RISK => 2
    case CRITICAL => 3
  }

  function Priority(f: Factor): nat {
    match f
    case CpuSingleCore => 0
    case Ram => 1
    case CpuGlobal => 2
    case Stability => 3
    case NoFactor => 4
  }

  function CpuCoreLevel(v: Option<real>): Option<Level> {
    if v.None? then None
    else if v.value >= 95.0 then Some(CRITICAL)
    else if v.value >= 85.0 then Some(RISK)
    else if v.value >= 75.0 then Some(WATCH)
    else Some(OK)
  }

  function RamLevel(v: Option<real>): Option<Level> {
    if v.None? then None
    else if v.value < 15.0 then Some(RISK)
    else if v.value < 25.0 then Some(WATCH)
    else Some(OK)
  }

  function CpuTotalLevel(v: Option<real>): Option<Level> {
    if v.None? then None
    else if v.value >= 95.0 then Some(RISK)
    else if v.value >= 85.0 then Some(WATCH)
    else Some(OK)
  }

  datatype Candidate = Candidate(factor: Factor, level: Level)

  function Known(factor: Factor, level: Option<Level>): seq<Candidate> {
    if level.Some? then [Candidate(factor, level.value)] else []
  }

  function Candidates(core: Option<real>, total: Option<real>, ram: Option<real>): seq<Candidate> {
    Known(CpuSingleCore, CpuCoreLevel(core)) + Known(Ram, RamLevel(ram)) + Known(CpuGlobal, CpuTotalLevel(total))
  }

  /** The order of max(): severity first, then the earlier factor. */
  predicate Better(a: Candidate, b: Candidate) {
    Severity(a.level) > Severity(b.level) || (a.level == b.level && Priority(a.factor) < Priority(b.factor))
  }

  function Best(cs: seq<Candidate>): Candidate
    requires cs != []
    decreases |cs|
  {
    if |cs| == 1 then cs[0]
    else
      var rest := Best(cs[..|cs| - 1]);
      if Better(cs[|cs| - 1], rest) then cs[|cs| - 1] else rest
  }

  function Classify(core: Option<real>, total: Option<real>, ram: Option<real>, crashes: int): (Level, Factor) {
    if crashes > 0 then (CRITICAL, Stability)
    else
      var cs := Candidates(core, total, ram);
      if cs == [] then (OK, NoFactor)
      else
        var best := Best(cs);
        if best.level == OK then (OK, NoFactor) else (best.level, best.factor)
  }

  lemma {:induction false} BestIsBest(cs: seq<Candidate>)
    requires cs != []
    ensures Best(cs) in cs && forall c | c in cs :: !Better(c, Best(cs))
    decreases |cs|
  {
    var n := |cs| - 1;
    assert cs == cs[..n] + [cs[n]];
    if n > 0 { BestIsBest(cs[..n]); }
  }

  function Worst(level: Option<Level>): nat { if level.Some? then Severity(level.value) else 0 }

  function Top(a: nat, b: nat): nat { if a >= b then a else b }

  lemma BestOfThree(core: Option<Level>, ram: Option<Level>, total: Option<Level>)
    ensures
      var cs := Known(CpuSingleCore, core) + Known(Ram, ram) + Known(CpuGlobal, total);
      var c, r, t := Worst(core), Worst(ram), Worst(total);
      if cs == [] then c == r == t == 0
      else
        && Severity(Best(cs).level) == Top(c, Top(r, t))
        && (Top(c, Top(r, t)) == 0 || Best(cs).factor == if c == Top(c, Top(r, t)) then CpuSingleCore
                                                         else if r >= t then Ram else CpuGlobal)
  {
    hide Best, Known, Better;
    var a, b, d := Known(CpuSingleCore, core), Known(Ram, ram), Known(CpuGlobal, total);
    OneKnown(CpuSingleCore, core);
    OneKnown(Ram, ram);
    OneKnown(CpuGlobal, total);
    forall c, e | c in a && e in b ensures Priority(c.factor) < Priority(e.factor) { }
    JoinedSeverity(a, b);
    forall c, e | c in a + b && e in d ensures Priority(c.factor) < Priority(e.factor) { assert c in a || c in b; }
    JoinedSeverity(a + b, d);
    if a + b != [] { assert a != [] || b != []; }
    hide Worst, Severity, Priority, Top;
  }

  lemma OneKnown(f: Factor, level: Option<Level>)
    ensures |Known(f, level)| <= 1 && WorstOf(Known(f, level)) == Worst(level)
    ensures forall c | c in Known(f, level) :: c.factor == f
    ensures Known(f, level) != [] ==> Best(Known(f, level)).factor == f && Known(f, level)[0].factor == f
  {
  }

  function WorstOf(cs: seq<Candidate>): nat { if cs == [] then 0 else Severity(Best(cs).level) }

  /** The later candidate wins only when it is strictly worse. */
  lemma JoinedSeverity(cs: seq<Candidate>, one: seq<Candidate>)
    requires |one| <= 1 && forall c, d | c in cs && d in one :: Priority(c.factor) < Priority(d.factor)
    ensures WorstOf(cs + one) == Top(WorstOf(cs), WorstOf(one))
    ensures WorstOf(cs + one) > 0 && WorstOf(cs) >= WorstOf(one) ==> Best(cs + one) == Best(cs)
    ensures WorstOf(one) > WorstOf(cs) ==> Best(cs + one) == one[0]
  {
    if cs + one != [] {
      BestOfJoined(cs, one);
      if cs != [] { BestIsBest(cs); }
    }
    assert one != [] ==> Best(one) == one[0];
    hide Best;
  }

  /** Appending at most one candidate. */
  lemma BestOfJoined(cs: seq<Candidate>, one: seq<Candidate>)
    requires |one| <= 1 && cs + one != []
    ensures one == [] ==> Best(cs + one) == Best(cs)
    ensures cs == [] ==> Best(cs + one) == one[0]
    ensures cs != [] && one != [] ==> Best(cs + one) == if Better(one[0], Best(cs)) then one[0] else Best(cs)
  {
    if one == [] {
      assert cs + one == cs;
    } else {
      assert (cs + one)[..|cs|] == cs;
    }
  }

  /**
    The severity is the worst of the known levels, or CRITICAL after any crash; the factor named is one at that
    level, the CPU core before the RAM before the whole CPU, and none is named when all is well.
   */
  lemma ClassifyIsWorst(core: Option<real>, total: Option<real>, ram: Option<real>, crashes: int)
    ensures
      var (level, factor) := Classify(core, total, ram, crashes);
      var c, r, t := Worst(CpuCoreLevel(core)), Worst(RamLevel(ram)), Worst(CpuTotalLevel(total));
      && Severity(level) == (if crashes > 0 then 3 else Top(c, Top(r, t)))
      && factor == (if crashes > 0 then Stability
                    else if Top(c, Top(r, t)) == 0 then NoFactor
                    else if c == Top(c, Top(r, t)) then CpuSingleCore
                    else if r >= t then Ram
                    else CpuGlobal)
  {
    if crashes <= 0 {
      BestOfThree(CpuCoreLevel(core), RamLevel(ram), CpuTotalLevel(total));
    }
  }

  /** Higher CPU readings, less RAM and more crashes never lower the severity. */
  lemma ClassifyIsMonotone(core: Option<real>, core': Option<real>, total: Option<real>, total': Option<real>,
                           ram: Option<real>, ram': Option<real>, crashes: int, crashes': int)
    requires NoLower(core, core') && NoLower(total, total') && NoLower(ram', ram) && crashes <= crashes'
    ensures Severity(Classify(core, total, ram, crashes).0) <= Severity(Classify(core', total', ram', crashes').0)
  {
    ClassifyIsWorst(core, total, ram, crashes);
    ClassifyIsWorst(core', total', ram', crashes');
    hide Classify;
  }

  /** Both absent, or the second at least the first. */
  predicate NoLower(a: Option<real>, b: Option<real>) {
    (a.None? && b.None?) || (a.Some? && b.Some? && a.value <= b.value)
  }

  // ---------------------------------------------------------------- order statistics

  const LEQ: Order<real> := (a: real, b: real) => a <= b

  function Sort(s: seq<real>): (r: seq<real>)
    ensures |r| == |s|
    decreases |s|
  {
    if s == [] then [] else Insert(LEQ, s[0], Sort(s[1..]))
  }

  lemma {:induction false} SortSorts(s: seq<real>)
    ensures Ascending(LEQ, Sort(s)) && multiset(Sort(s)) == multiset(s)
    decreases |s|
  {
    if s != [] {
      SortSorts(s[1..]);
      InsertSorts(LEQ, s[0], Sort(s[1..]));
      InsertAdds(LEQ, s[0], Sort(s[1..]));
      assert s == [s[0]] + s[1..];
    }
  }

  predicate Pointwise(a: seq<real>, b: seq<real>) {
    |a| == |b| && forall i | 0 <= i < |a| :: a[i] <= b[i]
  }

  lemma InsertUnfolds(x: real, s: seq<real>)
    ensures Insert(LEQ, x, s) == if s == [] || x <= s[0] then [x] + s else [s[0]] + Insert(LEQ, x, s[1..])
  {
  }

  lemma InsertLeast(s: seq<real>)
    requires s != [] && Ascending(LEQ, s)
    ensures Insert(LEQ, s[0], s[1..]) == s && Ascending(LEQ, s[1..])
  {
    InsertUnfolds(s[0], s[1..]);
    assert |s| > 1 ==> LEQ(s[0], s[1]);
    assert s == [s[0]] + s[1..];
  }

  lemma PointwiseFrom(x: real, y: real, a: seq<real>, b: seq<real>)
    requires x <= y && Pointwise(a, b)
    ensures Pointwise([x] + a, [y] + b)
  {
  }

  lemma {:induction false} InsertIsMonotone(x: real, y: real, a: seq<real>, b: seq<real>)
    requires x <= y && Pointwise(a, b) && Ascending(LEQ, a) && Ascending(LEQ, b)
    ensures Pointwise(Insert(LEQ, x, a), Insert(LEQ, y, b))
    decreases |a|
  {
    InsertUnfolds(x, a);
    InsertUnfolds(y, b);
    if a == [] {
      PointwiseFrom(x, y, a, b);
    } else {
      InsertLeast(a);
      InsertLeast(b);
      assert Pointwise(a[1..], b[1..]) && a[0] <= b[0];
      hide Insert, Ascending, Pointwise;
      if x <= a[0] && y <= b[0] {
        PointwiseFrom(x, y, a, b);
      } else if x <= a[0] {
        // Pushed back by x, a faces b with y inserted behind its first element.
        InsertIsMonotone(a[0], y, a[1..], b[1..]);
        PointwiseFrom(x, b[0], a, Insert(LEQ, y, b[1..]));
      } else if y <= b[0] {
        InsertIsMonotone(x, b[0], a[1..], b[1..]);
        PointwiseFrom(a[0], y, Insert(LEQ, x, a[1..]), b);
      } else {
        InsertIsMonotone(x, y, a[1..], b[1..]);
        PointwiseFrom(a[0], b[0], Insert(LEQ, x, a[1..]), Insert(LEQ, y, b[1..]));
      }
    }
  }

  /** The k-th smallest of pointwise higher readings is no lower. */
  lemma {:induction false} OrderStatisticsAreMonotone(a: seq<real>, b: seq<real>)
    requires Pointwise(a, b)
    ensures Pointwise(Sort(a), Sort(b))
    decreases |a|
  {
    if a != [] {
      OrderStatisticsAreMonotone(a[1..], b[1..]);
      SortSorts(a[1..]);
      SortSorts(b[1..]);
      InsertIsMonotone(a[0], b[0], Sort(a[1..]), Sort(b[1..]));
    }
  }

  // ---------------------------------------------------------------- percentile

  type Rounding = real -> real

  ghost predicate Monotone(rnd: Rounding) {
    forall x, y :: x <= y ==> rnd(x) <= rnd(y)
  }

  /** Linear interpolation between the two neighbours of the rank (n - 1) * p / 100. */
  function Interpolate(ordered: seq<real>, rank: real): real
    requires ordered != [] && 0.0 <= rank <= (|ordered| - 1) as real
  {
    var lower := rank.Floor;
    if rank == lower as real then ordered[lower]
    else ordered[lower] * ((lower + 1) as real - rank) + ordered[lower + 1] * (rank - lower as real)
  }

  function RankOf(n: nat, p: real): (rank: real)
    requires n > 0 && 0.0 <= p <= 100.0
    ensures 0.0 <= rank <= (n - 1) as real
  {
    RankInRange(n, p);
    (n - 1) as real * (p / 100.0)
  }

  lemma RankInRange(n: nat, p: real)
    requires n > 0 && 0.0 <= p <= 100.0
    ensures 0.0 <= (n - 1) as real * (p / 100.0) <= (n - 1) as real
  {
    var q := p / 100.0;
    assert 0.0 <= q <= 1.0;
    var m := (n - 1) as real;
    assert m * q <= m * 1.0;
  }

  function Percentile(rnd: Rounding, values: seq<real>, p: real): Option<real>
    requires 0.0 <= p <= 100.0
  {
    if values == [] then None
    else if |values| == 1 then Some(rnd(values[0]))
    else Some(rnd(Interpolate(Sort(values), RankOf(|values|, p))))
  }

  lemma WeightedIsMonotone(a: real, b: real, c: real, d: real, u: real, v: real)
    requires a <= c && b <= d && 0.0 <= u && 0.0 <= v
    ensures a * u + b * v <= c * u + d * v
  {
    assert (c - a) * u >= 0.0 && (d - b) * v >= 0.0;
  }

  lemma InterpolateIsMonotone(a: seq<real>, b: seq<real>, rank: real)
    requires Pointwise(a, b) && a != [] && 0.0 <= rank <= (|a| - 1) as real
    ensures Interpolate(a, rank) <= Interpolate(b, rank)
  {
    var lower := rank.Floor;
    if rank != lower as real {
      WeightedIsMonotone(a[lower], a[lower + 1], b[lower], b[lower + 1], (lower + 1) as real - rank, rank - lower as real);
    }
  }

  lemma PercentileIsMonotone(rnd: Rounding, a: seq<real>, b: seq<real>, p: real)
    requires Monotone(rnd) && Pointwise(a, b) && 0.0 <= p <= 100.0
    ensures NoLower(Percentile(rnd, a, p), Percentile(rnd, b, p))
  {
    if |a| > 1 {
      OrderStatisticsAreMonotone(a, b);
      InterpolateIsMonotone(Sort(a), Sort(b), RankOf(|a|, p));
    }
  }

  /** A percentile does not depend on the order in which the readings were taken. */
  lemma PercentileIgnoresOrder(rnd: Rounding, a: seq<real>, b: seq<real>, p: real)
    requires multiset(a) == multiset(b) && 0.0 <= p <= 100.0
    ensures Percentile(rnd, a, p) == Percentile(rnd, b, p)
  {
    assert |a| == |multiset(a)| == |multiset(b)| == |b|;
    if |a| == 1 {
      assert a[0] in multiset(b);
    } else if a != [] {
      SortSorts(a);
      SortSorts(b);
      SortedIsUnique(LEQ, Sort(a), Sort(b));
    }
  }

  // ---------------------------------------------------------------- the summary

  /** The readings of one snapshot that decide the risk. */
  datatype Snapshot = Snapshot(
    cpuTotal: Option<real>, cpuCore: Option<real>, ramAvailableMb: Option<real>, ramPercent: Option<real>)

  /** RAM available in percent, from the megabytes when the total is known, else from the percentage in use. */
  function RamAvailable(rnd: Rounding, s: Snapshot, totalMb: Option<real>): Option<real> {
    if s.ramAvailableMb.Some? && totalMb.Some? && totalMb.value != 0.0
    then Some(rnd(s.ramAvailableMb.value / totalMb.value * 100.0))
    else if s.ramPercent.Some? then Some(rnd(100.0 - s.ramPercent.value))
    else None
  }

  function Values(read: Snapshot -> Option<real>, ss: seq<Snapshot>): seq<real>
    decreases |ss|
  {
    if ss == [] then []
    else (if read(ss[0]).Some? then [read(ss[0]).value] else []) + Values(read, ss[1..])
  }

  function Least(values: seq<real>): Option<real>
    decreases |values|
  {
    if values == [] then None
    else
      match Least(values[1..])
      case None => Some(values[0])
      case Some(m) => Some(if values[0] <= m then values[0] else m)
  }

  /** The risk part of compute_summary: percentiles of the CPU readings, the least RAM, and the crashes. */
  function Risk(rnd: Rounding, totalMb: Option<real>, crashes: int, ss: seq<Snapshot>): (Level, Factor) {
    Classify(Percentile(rnd, Values((s: Snapshot) => s.cpuCore, ss), 95.0),
             Percentile(rnd, Values((s: Snapshot) => s.cpuTotal, ss), 95.0),
             Least(Values((s: Snapshot) => RamAvailable(rnd, s, totalMb), ss)),
             crashes)
  }

  /** Each reading of the second list is there where the first has one, and is no better. */
  predicate NoBetter(a: Snapshot, b: Snapshot) {
    && NoLower(a.cpuTotal, b.cpuTotal) && NoLower(a.cpuCore, b.cpuCore)
    && NoLower(b.ramAvailableMb, a.ramAvailableMb) && NoLower(a.ramPercent, b.ramPercent)
  }

  predicate Worse(a: seq<Snapshot>, b: seq<Snapshot>) {
    |a| == |b| && forall i | 0 <= i < |a| :: NoBetter(a[i], b[i])
  }

  lemma {:induction false} ValuesArePointwise(read: Snapshot -> Option<real>, a: seq<Snapshot>, b: seq<Snapshot>)
    requires |a| == |b| && forall i | 0 <= i < |a| :: NoLower(read(a[i]), read(b[i]))
    ensures Pointwise(Values(read, a), Values(read, b))
    decreases |a|
  {
    if a != [] {
      assert NoLower(read(a[0]), read(b[0]));
      ValuesArePointwise(read, a[1..], b[1..]);
      JoinedArePointwise(if read(a[0]).Some? then [read(a[0]).value] else [], if read(b[0]).Some? then [read(b[0]).value] else [],
                         Values(read, a[1..]), Values(read, b[1..]));
    }
  }

  lemma JoinedArePointwise(a: seq<real>, b: seq<real>, c: seq<real>, d: seq<real>)
    requires Pointwise(a, b) && Pointwise(c, d)
    ensures Pointwise(a + c, b + d)
  {
  }

  lemma {:induction false} LeastIsMonotone(a: seq<real>, b: seq<real>)
    requires Pointwise(a, b)
    ensures NoLower(Least(a), Least(b))
    decreases |a|
  {
    if a != [] { LeastIsMonotone(a[1..], b[1..]); }
  }

  lemma DivideIsMonotone(x: real, y: real, t: real)
    requires x <= y && t > 0.0
    ensures x / t * 100.0 <= y / t * 100.0
  {
    assert x / t <= y / t;
  }

  lemma RamIsMonotone(rnd: Rounding, a: Snapshot, b: Snapshot, totalMb: Option<real>)
    requires Monotone(rnd) && NoBetter(a, b) && (totalMb.Some? ==> totalMb.value >= 0.0)
    ensures NoLower(RamAvailable(rnd, b, totalMb), RamAvailable(rnd, a, totalMb))
  {
    if a.ramAvailableMb.Some? && totalMb.Some? && totalMb.value != 0.0 {
      DivideIsMonotone(b.ramAvailableMb.value, a.ramAvailableMb.value, totalMb.value);
    }
  }

  /** Snapshots that are pointwise no better, with no fewer crashes, never lower the severity of the summary. */
  lemma WorseLoadIsNoSafer(rnd: Rounding, totalMb: Option<real>, crashes: int, a: seq<Snapshot>, crashes': int, b: seq<Snapshot>)
    requires Monotone(rnd) && Worse(a, b) && crashes <= crashes' && (totalMb.Some? ==> totalMb.value >= 0.0)
    ensures Severity(Risk(rnd, totalMb, crashes, a).0) <= Severity(Risk(rnd, totalMb, crashes', b).0)
  {
    var core := (s: Snapshot) => s.cpuCore;
    var total := (s: Snapshot) => s.cpuTotal;
    var ram := (s: Snapshot) => RamAvailable(rnd, s, totalMb);
    forall i | 0 <= i < |a| ensures NoLower(ram(b[i]), ram(a[i])) { RamIsMonotone(rnd, a[i], b[i], totalMb); }
    ValuesArePointwise(core, a, b);
    ValuesArePointwise(total, a, b);
    ValuesArePointwise(ram, b, a);
    PercentileIsMonotone(rnd, Values(core, a), Values(core, b), 95.0);
    PercentileIsMonotone(rnd, Values(total, a), Values(total, b), 95.0);
    LeastIsMonotone(Values(ram, b), Values(ram, a));
    ClassifyIsMonotone(
      Percentile(rnd, Values(core, a), 95.0), Percentile(rnd, Values(core, b), 95.0),
      Percentile(rnd, Values(total, a), 95.0), Percentile(rnd, Values(total, b), 95.0),
      Least(Values(ram, a)), Least(Values(ram, b)), crashes, crashes');
  }

  // ---------------------------------------------------------------- what the risk says of the readings

  predicate AtLeast(v: Option<real>, bound: real) { v.Some? && v.value >= bound }

  predicate Below(v: Option<real>, bound: real) { v.Some? && v.value < bound }

  /** The thresholds of the levels, and the first factor that reaches the level given. */
  lemma ClassifyByThresholds(core: Option<real>, total: Option<real>, ram: Option<real>, crashes: int)
    ensures
      var (level, factor) := Classify(core, total, ram, crashes);
      && (level == CRITICAL <==> crashes > 0 || AtLeast(core, 95.0))
      && (level in {RISK, CRITICAL} <==> crashes > 0 || AtLeast(core, 85.0) || Below(ram, 15.0) || AtLeast(total, 95.0))
      && (level == OK <==> !(crashes > 0 || AtLeast(core, 75.0) || Below(ram, 25.0) || AtLeast(total, 85.0)))
      && (factor == Stability <==> crashes > 0)
      && (factor == NoFactor <==> level == OK)
      && (factor == CpuSingleCore <==>
            crashes <= 0 && if level in {CRITICAL, RISK} then AtLeast(core, 85.0) else AtLeast(core, 75.0))
      && (factor == Ram <==>
            crashes <= 0 && if level == RISK then !AtLeast(core, 85.0) && Below(ram, 15.0)
                            else level == WATCH && !AtLeast(core, 75.0) && Below(ram, 25.0))
  {
    ClassifyIsWorst(core, total, ram, crashes);
    hide Classify;
  }

  /** The least value is one of the values, and no value is below it. */
  lemma {:induction false} LeastIsLeast(values: seq<real>)
    ensures Least(values).None? <==> values == []
    ensures Least(values).Some? ==> Least(values).value in values && forall v | v in values :: Least(values).value <= v
    decreases |values|
  {
    if values != [] {
      LeastIsLeast(values[1..]);
      assert values == [values[0]] + values[1..];
    }
  }

  /** The values are the readings that are there, in their order. */
  lemma {:induction false} ValuesJoin(read: Snapshot -> Option<real>, a: seq<Snapshot>, b: seq<Snapshot>)
    ensures Values(read, a + b) == Values(read, a) + Values(read, b)
    decreases |a|
  {
    if a == [] {
      assert a + b == b;
    } else {
      assert (a + b)[1..] == a[1..] + b;
      ValuesJoin(read, a[1..], b);
      var first := if read(a[0]).Some? then [read(a[0]).value] else [];
      assert first + (Values(read, a[1..]) + Values(read, b)) == first + Values(read, a[1..]) + Values(read, b);
    }
  }

  lemma {:induction false} ValuesAreReadings(read: Snapshot -> Option<real>, ss: seq<Snapshot>)
    ensures forall v :: v in Values(read, ss) <==> exists s :: s in ss && read(s) == Some(v)
    ensures |ss| == 1 ==> Values(read, ss) == if read(ss[0]).Some? then [read(ss[0]).value] else []
    decreases |ss|
  {
    if ss != [] {
      ValuesAreReadings(read, ss[1..]);
      assert ss == [ss[0]] + ss[1..];
      assert |ss| == 1 ==> ss[1..] == [];
    }
  }

  lemma {:induction false} ReadingIsValue(read: Snapshot -> Option<real>, ss: seq<Snapshot>, s: Snapshot)
    requires s in ss && read(s).Some?
    ensures read(s).value in Values(read, ss)
    decreases |ss|
  {
    if s != ss[0] { ReadingIsValue(read, ss[1..], s); }
  }

  lemma LeastReading(read: Snapshot -> Option<real>, ss: seq<Snapshot>)
    ensures
      var least := Least(Values(read, ss));
      && (least.None? <==> forall s | s in ss :: read(s).None?)
      && (least.Some? ==> exists s :: s in ss && read(s) == least)
      && forall s | s in ss && read(s).Some? :: least.Some? && least.value <= read(s).value
  {
    LeastIsLeast(Values(read, ss));
    ValuesAreReadings(read, ss);
    forall s | s in ss && read(s).Some? ensures read(s).value in Values(read, ss) { ReadingIsValue(read, ss, s); }
    hide Values, Least;
    if Values(read, ss) != [] {
      var least := Least(Values(read, ss)).value;
      var s :| s in ss && read(s) == Some(least);
    }
  }

  /** The RAM reading of the summary: some snapshot has it, and none has less. */
  lemma RamIsLeastReading(rnd: Rounding, totalMb: Option<real>, ss: seq<Snapshot>)
    ensures
      var ram := Least(Values((s: Snapshot) => RamAvailable(rnd, s, totalMb), ss));
      && (ram.None? <==> forall s | s in ss :: RamAvailable(rnd, s, totalMb).None?)
      && (ram.Some? ==> exists s :: s in ss && RamAvailable(rnd, s, totalMb) == ram)
      && forall s | s in ss && RamAvailable(rnd, s, totalMb).Some? :: ram.Some? && ram.value <= RamAvailable(rnd, s, totalMb).value
  {
    var read := (s: Snapshot) => RamAvailable(rnd, s, totalMb);
    LeastReading(read, ss);
    hide RamAvailable, Values, Least;
    assert forall s: Snapshot :: read(s) == RamAvailable(rnd, s, totalMb);
  }

  /** What is available is the megabytes in percent of all, or what the percentage in use leaves. */
  lemma RamAvailableMeans(rnd: Rounding, s: Snapshot, totalMb: Option<real>, x: real)
    ensures totalMb.Some? && totalMb.value != 0.0 && s.ramAvailableMb.Some? && x * totalMb.value == 100.0 * s.ramAvailableMb.value ==>
              RamAvailable(rnd, s, totalMb) == Some(rnd(x))
    ensures totalMb in {None, Some(0.0)} && s.ramPercent == Some(100.0 - x) ==> RamAvailable(rnd, s, totalMb) == Some(rnd(x))
    ensures s.ramAvailableMb.None? && s.ramPercent == Some(100.0 - x) ==> RamAvailable(rnd, s, totalMb) == Some(rnd(x))
    ensures RamAvailable(rnd, s, totalMb).None? <==>
              s.ramPercent.None? && (s.ramAvailableMb.None? || totalMb in {None, Some(0.0)})
  {
    if totalMb.Some? && totalMb.value != 0.0 && s.ramAvailableMb.Some? && x * totalMb.value == 100.0 * s.ramAvailableMb.value {
      QuotientIs(x, s.ramAvailableMb.value, totalMb.value);
    }
  }

  lemma QuotientIs(x: real, m: real, t: real)
    requires t != 0.0 && x * t == 100.0 * m
    ensures m / t * 100.0 == x
  {
    assert m == (x / 100.0) * t;
    assert m / t == x / 100.0;
  }

  lemma NoNegative(x: real, y: real)
    requires x >= 0.0 && y >= 0.0
    ensures x * y >= 0.0
  {
  }

  lemma SegmentIs(a: real, b: real, u: real)
    requires a <= b && 0.0 <= u <= 1.0
    ensures a * (1.0 - u) + b * u == a + u * (b - a)
    ensures a <= a + u * (b - a) <= b
  {
    NoNegative(u, b - a);
    NoNegative(1.0 - u, b - a);
  }

  /** The order statistics next to a rank, and the point as far between them as the rank is. */
  function Lower(o: seq<real>, rank: real): real
    requires o != [] && 0.0 <= rank <= (|o| - 1) as real
  {
    o[rank.Floor]
  }

  function Upper(o: seq<real>, rank: real): real
    requires o != [] && 0.0 <= rank <= (|o| - 1) as real
  {
    if rank.Floor + 1 < |o| then o[rank.Floor + 1] else o[rank.Floor]
  }

  function Along(o: seq<real>, rank: real): real
    requires o != [] && 0.0 <= rank <= (|o| - 1) as real
  {
    Lower(o, rank) + (rank - rank.Floor as real) * (Upper(o, rank) - Lower(o, rank))
  }

  /**
    The percentile lies between the two order statistics next to its rank, as far from the lower one as the rank is: o is
    any ascending arrangement of the readings, and the rank is p percent of the last place.
   */
  lemma PercentileIsBetween(rnd: Rounding, values: seq<real>, p: real, o: seq<real>, rank: real)
    requires values != [] && 0.0 <= p <= 100.0 && 100.0 * rank == (|values| - 1) as real * p
    requires multiset(o) == multiset(values) && forall i, j | 0 <= i < j < |o| :: o[i] <= o[j]
    ensures
      && |o| == |values| && 0.0 <= rank <= (|o| - 1) as real
      && Lower(o, rank) <= Along(o, rank) <= Upper(o, rank)
      && Percentile(rnd, values, p) == Some(rnd(Along(o, rank)))
  {
    hide Percentile, RankOf, Sort;
    SortIs(values, o);
    RankIs(|values|, p, rank);
    PercentileAt(rnd, values, p, o, rank);
  }

  lemma SortIs(values: seq<real>, o: seq<real>)
    requires multiset(o) == multiset(values) && forall i, j | 0 <= i < j < |o| :: o[i] <= o[j]
    ensures Sort(values) == o && |o| == |values|
  {
    SortSorts(values);
    SameLength(values, o);
    SortedIsUnique(LEQ, Sort(values), o);
  }

  lemma PercentileAt(rnd: Rounding, values: seq<real>, p: real, o: seq<real>, rank: real)
    requires values != [] && 0.0 <= p <= 100.0 && Sort(values) == o && RankOf(|values|, p) == rank
    requires multiset(o) == multiset(values) && forall i, j | 0 <= i < j < |o| :: o[i] <= o[j]
    ensures Lower(o, rank) <= Along(o, rank) <= Upper(o, rank) && Percentile(rnd, values, p) == Some(rnd(Along(o, rank)))
  {
    InterpolateIsBetween(o, rank);
    PercentileIs(rnd, values, p);
    hide Percentile, RankOf, Sort, Interpolate, Lower, Upper, Along;
    if |values| == 1 { OneValue(values[0], o); }
  }

  lemma PercentileIs(rnd: Rounding, values: seq<real>, p: real)
    requires values != [] && 0.0 <= p <= 100.0
    ensures Percentile(rnd, values, p) == Some(rnd(if |values| == 1 then values[0] else Interpolate(Sort(values), RankOf(|values|, p))))
  {
  }

  lemma OneValue(v: real, o: seq<real>)
    requires multiset(o) == multiset([v])
    ensures o == [v]
  {
    SameLength(o, [v]);
    assert o[0] in multiset([v]);
  }

  lemma InterpolateIsBetween(o: seq<real>, rank: real)
    requires o != [] && 0.0 <= rank <= (|o| - 1) as real && forall i, j | 0 <= i < j < |o| :: o[i] <= o[j]
    ensures Lower(o, rank) <= Along(o, rank) <= Upper(o, rank) && Interpolate(o, rank) == Along(o, rank)
  {
    var k := rank.Floor;
    if k + 1 < |o| {
      SegmentIs(o[k], o[k + 1], rank - k as real);
    }
  }

  lemma RankIs(n: nat, p: real, rank: real)
    requires n > 0 && 0.0 <= p <= 100.0 && 100.0 * rank == (n - 1) as real * p
    ensures RankOf(n, p) == rank
  {
  }

  /** When the summary is risky: by a crash, by the CPU percentiles, or by the RAM of a single snapshot. */
  lemma RiskExactlyWhen(rnd: Rounding, totalMb: Option<real>, crashes: int, ss: seq<Snapshot>)
    ensures
      var core := Percentile(rnd, Values((s: Snapshot) => s.cpuCore, ss), 95.0);
      var total := Percentile(rnd, Values((s: Snapshot) => s.cpuTotal, ss), 95.0);
      var (level, factor) := Risk(rnd, totalMb, crashes, ss);
      && (Severity(level) >= 2 <==>
            || crashes > 0 || AtLeast(core, 85.0) || AtLeast(total, 95.0)
            || exists s :: s in ss && Below(RamAvailable(rnd, s, totalMb), 15.0))
      && (level == OK <==>
            && crashes <= 0 && !AtLeast(core, 75.0) && !AtLeast(total, 85.0)
            && forall s | s in ss :: !Below(RamAvailable(rnd, s, totalMb), 25.0))
  {
    var core := Percentile(rnd, Values((s: Snapshot) => s.cpuCore, ss), 95.0);
    var total := Percentile(rnd, Values((s: Snapshot) => s.cpuTotal, ss), 95.0);
    RamIsLeastReading(rnd, totalMb, ss);
    ClassifyByThresholds(core, total, Least(Values((s: Snapshot) => RamAvailable(rnd, s, totalMb), ss)), crashes);
    hide Classify, Percentile, Values, Least, RamAvailable;
  }
}
