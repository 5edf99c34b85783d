/** PlayerCountObserver as an object: one reader per instance, kept until the process behind it changes. */
module LogObserver {
  import opened Common
  import opened GameLog

  /** Log path, process id and start time of the process a reader belongs to. */
  datatype Identity = Identity(path: string, pid: int, startedAt: int)

  datatype Tracked = Tracked(identity: Identity, reader: Reader)

  /** The reader an observation starts from: the one kept for this process, or a fresh one. */
  function Base(states: map<string, Tracked>, instance: string, identity: Identity): Reader {
    if instance in states && states[instance].identity == identity then states[instance].reader else FRESH
  }

  lemma StartsAsBatch(classify: Classifier)
    ensures FRESH == Batch(classify, true, "")
  {
  }

  class PlayerCountObserver {
    const classify: Classifier
    var states: map<string, Tracked>
    ghost var seen: map<string, string>

    /** Every reader is where one pass over the text it has seen would be. */
    ghost predicate Valid()
      reads this
    {
      && seen.Keys == states.Keys
      && forall i | i in states ::
           states[i].reader == Batch(classify, states[i].reader.facts.fromStart, seen[i])
    }

    ghost function SeenBy(instance: string, identity: Identity): string
      requires Valid()
      reads this
    {
      if instance in states && states[instance].identity == identity then seen[instance] else ""
    }

    constructor (classify: Classifier)
      ensures Valid() && states == map[] && this.classify == classify
    {
      this.classify := classify;
      states, seen := map[], map[];
    }

    /** The loop over the complete lines of one read. */
    method ReadAppendedLines(s: Reader, log: string) returns (r: Reader)
      ensures r == ReadOn(classify, s, log)
    {
      var state := s;
      if |log| < state.offset { state := Reader(0, "", NoFacts(false)); }
      var appended := log[state.offset..];
      var cut := Split(state.buffer + appended);
      var facts := state.facts;
      var i := 0;
      while i < |cut.lines|
        invariant 0 <= i <= |cut.lines|
        invariant facts == Fold(classify, state.facts, cut.lines[..i])
      {
        assert cut.lines[..i + 1][..i] == cut.lines[..i];
        facts := See(facts, cut.lines[i], classify(cut.lines[i]));
        i := i + 1;
      }
      assert cut.lines[..i] == cut.lines;
      r := Reader(|log|, cut.rest, facts);
    }

    /**
      One observation. `log` is the present text of the file, absent when it cannot be read. A log that only grew
      since this process was last observed gives exactly the facts of one pass over all of it; a log that shrank is
      read anew and marked as not observed from its start.
     */
    method Observe(instance: string, identity: Identity, log: Option<string>) returns (facts: Facts)
      requires Valid()
      modifies this
      ensures Valid()
      ensures states.Keys == old(states).Keys + {instance}
      ensures forall i | i in old(states) && i != instance :: states[i] == old(states)[i] && seen[i] == old(seen)[i]
      ensures facts == states[instance].reader.facts && states[instance].identity == identity
      ensures log.None? ==> states[instance].reader == Base(old(states), instance, identity)
      ensures log.Some? && old(SeenBy(instance, identity)) <= log.value ==>
                states[instance].reader == Batch(classify, Base(old(states), instance, identity).facts.fromStart, log.value)
                && seen[instance] == log.value
      ensures log.Some? && |log.value| < |old(SeenBy(instance, identity))| ==>
                states[instance].reader == Batch(classify, false, log.value) && seen[instance] == log.value
    {
      hide Batch, ReadOn, Split, Fold;
      var state := Base(states, instance, identity);
      ghost var text := SeenBy(instance, identity);
      StartsAsBatch(classify);
      assert state == Batch(classify, state.facts.fromStart, text);
      if log.Some? {
        ReadOnConsumes(classify, state.facts.fromStart, text, log.value);
        state := ReadAppendedLines(state, log.value);
        text := Consumed(text, log.value);
      }
      states := states[instance := Tracked(identity, state)];
      seen := seen[instance := text];
      facts := state.facts;
    }

    method Forget(instance: string)
      requires Valid()
      modifies this
      ensures Valid() && states == old(states) - {instance}
    {
      states := states - {instance};
      seen := seen - {instance};
    }
  }
}
