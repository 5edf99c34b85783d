/** The journal as the object the agent uses: two tables that every method updates in one transaction. */
module JournalStore {
  import opened Common
  import opened Journal

  /** ORDER BY updated_at ASC LIMIT limit: the oldest wanted rows, oldest first. */
  ghost predicate OldestFirst(rows: map<Key, Row>, wanted: set<Key>, limit: nat, picked: seq<Key>)
    requires wanted <= rows.Keys
  {
    && |picked| == (if |wanted| <= limit then |wanted| else limit)
    && (forall i | 0 <= i < |picked| :: picked[i] in wanted)
    && (forall i, j | 0 <= i < j < |picked| :: picked[i] != picked[j])
    && (forall i, j | 0 <= i < j < |picked| :: rows[picked[i]].updatedAt <= rows[picked[j]].updatedAt)
    && (forall i, k | 0 <= i < |picked| && k in wanted && k !in picked :: rows[picked[i]].updatedAt <= rows[k].updatedAt)
  }

  /** What has been picked, and what is left to pick from. */
  ghost predicate PickedOldest(rows: map<Key, Row>, wanted: set<Key>, rest: set<Key>, picked: seq<Key>)
    requires wanted <= rows.Keys
  {
    && rest <= wanted
    && (forall k | k in wanted :: k in rest <==> k !in picked)
    && (forall i | 0 <= i < |picked| :: picked[i] in wanted)
    && (forall i, j | 0 <= i < j < |picked| :: picked[i] != picked[j])
    && (forall i, j | 0 <= i < j < |picked| :: rows[picked[i]].updatedAt <= rows[picked[j]].updatedAt)
    && (forall i, k | 0 <= i < |picked| && k in rest :: rows[picked[i]].updatedAt <= rows[k].updatedAt)
  }

  lemma PickStep(rows: map<Key, Row>, wanted: set<Key>, rest: set<Key>, picked: seq<Key>, k: Key)
    requires wanted <= rows.Keys && PickedOldest(rows, wanted, rest, picked)
    requires k in rest && forall i | i in rest :: rows[k].updatedAt <= rows[i].updatedAt
    ensures PickedOldest(rows, wanted, rest - {k}, picked + [k])
  {
    var more := picked + [k];
    forall i | 0 <= i < |picked| ensures picked[i] != k { assert picked[i] in picked; }
    forall j | j in wanted ensures j in rest - {k} <==> j !in more { assert j in more <==> j in picked || j == k; }
  }

  lemma {:induction false} DistinctCount(picked: seq<Key>, wanted: set<Key>)
    requires forall i | 0 <= i < |picked| :: picked[i] in wanted
    requires forall i, j | 0 <= i < j < |picked| :: picked[i] != picked[j]
    ensures |picked| <= |wanted|
    ensures |picked| == |wanted| ==> forall k | k in wanted :: k in picked
  {
    if picked != [] {
      var last := picked[|picked| - 1];
      DistinctCount(picked[..|picked| - 1], wanted - {last});
      forall k | |picked| == |wanted| && k in wanted ensures k in picked {
        if k != last { assert k in picked[..|picked| - 1]; }
      }
    }
  }

  /** A limit that is not reached cuts nothing. */
  lemma LimitNotReached(rows: map<Key, Row>, wanted: set<Key>, limit: nat, picked: seq<Key>)
    requires wanted <= rows.Keys && OldestFirst(rows, wanted, limit, picked)
    requires |wanted| <= limit
    ensures forall k | k in wanted :: k in picked
  {
    DistinctCount(picked, wanted);
  }

  function PendingKeys(rows: map<Key, Row>, hub: string): (keys: set<Key>)
    ensures keys <= rows.Keys
  {
    set k | k in rows && k.hub == hub && AwaitsConfirmation(rows[k])
  }

  function IncompleteKeys(rows: map<Key, Row>, hub: string): (keys: set<Key>)
    ensures keys <= rows.Keys
  {
    set k | k in rows && k.hub == hub && Incomplete(rows[k])
  }

  function PurgeableKeys(rows: map<Key, Row>, cutoff: int): (keys: set<Key>)
    ensures keys <= rows.Keys
  {
    set k | k in rows && Purgeable(rows[k]) && rows[k].updatedAt <= cutoff
  }

  function Distance(a: int, b: int): nat { if a <= b then b - a else a - b }

  /** The number between 1 and `most` that is nearest to the limit asked for. */
  function Clamp(limit: int, most: int): (r: nat)
    requires most >= 1
    ensures 1 <= r <= most
    ensures forall n | 1 <= n <= most :: Distance(limit, r) <= Distance(limit, n)
  {
    if limit < 1 then 1 else if limit > most then most else limit
  }

  /** A success the Hub has confirmed as such, last updated by then. */
  predicate IsOldSuccess(row: Row, until: int) {
    row.status == Succeeded && row.confirmedRank == 2 && row.updatedAt <= until
  }

  lemma PicksOldSuccesses(t: Tables, history: set<Entry>, cutoff: int, limit: nat, picked: seq<Key>)
    requires TablesOk(t, history) && OldestFirst(t.rows, PurgeableKeys(t.rows, cutoff), limit, picked)
    ensures forall k | k in picked :: k in t.rows && IsOldSuccess(t.rows[k], cutoff)
    ensures |set k | k in t.rows && IsOldSuccess(t.rows[k], cutoff)| <= limit ==>
              forall k | k in t.rows && IsOldSuccess(t.rows[k], cutoff) :: k in picked
  {
    assert forall k | k in t.rows :: RowOk(k, t.rows[k], history);
    assert PurgeableKeys(t.rows, cutoff) == set k | k in t.rows && IsOldSuccess(t.rows[k], cutoff);
    if |PurgeableKeys(t.rows, cutoff)| <= limit { LimitNotReached(t.rows, PurgeableKeys(t.rows, cutoff), limit, picked); }
  }

  function Members(keys: seq<Key>): set<Key> { set k | k in keys }

  lemma MembersThrough(keys: seq<Key>, i: nat)
    requires i < |keys|
    ensures Members(keys[..i + 1]) == Members(keys[..i]) + {keys[i]}
  {
    assert keys[..i + 1] == keys[..i] + [keys[i]];
  }

  lemma RemoveMore(before: map<Key, Row>, gone: set<Key>, k: Key)
    ensures (before - gone) - {k} == before - (gone + {k})
  {
  }

  class AgentCommandJournal {
    var rows: map<Key, Row>
    var fences: map<Slot, int>
    ghost var history: set<Entry>

    ghost function Now(): Tables
      reads this
    {
      Tables(rows, fences)
    }

    ghost predicate Valid()
      reads this
    {
      TablesOk(Now(), history)
    }

    constructor ()
      ensures Valid() && Now() == EMPTY && history == {}
    {
      rows, fences, history := map[], map[], {};
    }

    method FindByIdempotencyKey(hub: string, key: string) returns (found: Option<Key>)
      requires Valid()
      ensures found == Existing(rows, hub, key)
    {
      var rest := rows.Keys;
      while rest != {}
        invariant rest <= rows.Keys
        invariant forall k | k in rows.Keys - rest :: !HasIdempotencyKey(rows, hub, key, k)
      {
        var k :| k in rest;
        if k.hub == hub && rows[k].command.idempotencyKey == key {
          UniqueExisting(rows, hub, key, k);
          return Some(k);
        }
        rest := rest - {k};
      }
      found := None;
    }

    method Receive(hub: string, m: Message, now: int) returns (r: Result<Row, Refusal>, created: bool)
      requires Valid()
      modifies this
      ensures Valid()
      ensures Normalize(hub, m).Err? ==>
                r == Err(Normalize(hub, m).error) && !created && Now() == old(Now()) && history == old(history)
      ensures Normalize(hub, m).Ok? ==>
                var e := Normalize(hub, m).value;
                && Receipt(Now(), r) == Journal.Receive(old(Now()), e, now)
                && created == Accepts(old(Now()), e)
                && history == if created then old(history) + {e} else old(history)
    {
      var normalized := Normalize(hub, m);
      if normalized.Err? { return Err(normalized.error), false; }
      var e := normalized.value;
      ReceiveKeeps(Now(), history, e, now);
      var existing := FindByIdempotencyKey(e.hub, e.command.idempotencyKey);
      if existing.Some? {
        var row := rows[existing.value];
        return (if SameCommand(row.command, e.command) then Ok(row) else Err(Conflict)), false;
      }
      var slot := EntrySlot(e);
      if slot in fences && e.command.fence <= fences[slot] { return Err(Stale), false; }
      if EntryKey(e) in rows { return Err(DuplicateId), false; }
      rows := rows[EntryKey(e) := NewRow(e, now)];
      fences := fences[slot := e.command.fence];
      history := history + {e};
      return Ok(rows[EntryKey(e)]), true;
    }

    method Transition(k: Key, status: Status, now: int) returns (r: Result<Row, Refusal>)
      requires Valid() && !Terminal(status)
      modifies this`rows
      ensures Valid() && Receipt(Now(), r) == Journal.Transition(old(Now()), k, status, now)
    {
      TransitionKeeps(Now(), history, k, status, now);
      if k !in rows { return Err(Contract); }
      var record := rows[k];
      if Terminal(record.status) { return Ok(record); }
      if Rank(status) < Rank(record.status) { return Ok(record); }
      rows := rows[k := record.(status := status, updatedAt := now)];
      return Ok(rows[k]);
    }

    method MarkExecuting(k: Key, now: int) returns (r: Result<Row, Refusal>)
      requires Valid()
      modifies this`rows
      ensures Valid() && Receipt(Now(), r) == Journal.MarkExecuting(old(Now()), k, now)
    {
      r := Transition(k, Executing, now);
    }

    method MarkTerminal(k: Key, status: Status, outcome: Outcome, now: int) returns (r: Result<Row, Refusal>)
      requires Valid()
      modifies this`rows
      ensures Valid()
      ensures !Terminal(status) ==> r == Err(Contract) && Now() == old(Now())
      ensures Terminal(status) ==> Receipt(Now(), r) == Journal.MarkTerminal(old(Now()), k, status, outcome, now)
    {
      if !Terminal(status) { return Err(Contract); }
      MarkTerminalKeeps(Now(), history, k, status, outcome, now);
      if k !in rows { return Err(Contract); }
      var record := rows[k];
      if Terminal(record.status) {
        return if record.status == status then Ok(record) else Err(Conflict);
      }
      rows := rows[k := record.(status := status, outcome := Some(outcome), updatedAt := now)];
      return Ok(rows[k]);
    }

    method Confirm(k: Key, status: Status, now: int) returns (r: Result<Row, Refusal>)
      requires Valid()
      modifies this`rows
      ensures Valid() && Receipt(Now(), r) == Journal.Confirm(old(Now()), k, status, now)
    {
      ConfirmKeeps(Now(), history, k, status, now);
      if k !in rows { return Err(Contract); }
      var record := rows[k];
      if Rank(status) > Rank(record.status) { return Err(Conflict); }
      if Terminal(status) && Terminal(record.status) && status != record.status { return Err(Conflict); }
      rows := rows[k := record.(confirmedRank := Max(record.confirmedRank, Rank(status)), updatedAt := now)];
      return Ok(rows[k]);
    }

    method Get(k: Key) returns (r: Result<Row, Refusal>)
      ensures r == if k in rows then Ok(rows[k]) else Err(Contract)
    {
      if k in rows { return Ok(rows[k]); }
      return Err(Contract);
    }

    method SupersedingFence(k: Key) returns (r: Result<Option<int>, Refusal>)
      ensures r == Journal.SupersedingFence(Now(), k)
    {
      if k !in rows { return Err(Contract); }
      var record := rows[k];
      var slot := RowSlot(record);
      if slot !in fences { return Ok(None); }
      var fence := fences[slot];
      return Ok(if fence > record.command.fence then Some(fence) else None);
    }

    method Oldest(keys: set<Key>) returns (k: Key)
      requires keys != {} && keys <= rows.Keys
      ensures k in keys && forall i | i in keys :: rows[k].updatedAt <= rows[i].updatedAt
    {
      k :| k in keys;
      var rest := keys - {k};
      while rest != {}
        invariant rest <= keys && k in keys
        invariant forall i | i in keys - rest :: rows[k].updatedAt <= rows[i].updatedAt
      {
        var i :| i in rest;
        if rows[i].updatedAt < rows[k].updatedAt { k := i; }
        rest := rest - {i};
      }
    }

    method Select(wanted: set<Key>, limit: nat) returns (picked: seq<Key>)
      requires wanted <= rows.Keys
      ensures OldestFirst(rows, wanted, limit, picked)
    {
      picked := [];
      var rest := wanted;
      while rest != {} && |picked| < limit
        invariant |picked| + |rest| == |wanted| && |picked| <= limit
        invariant PickedOldest(rows, wanted, rest, picked)
      {
        var k := Oldest(rest);
        PickStep(rows, wanted, rest, picked, k);
        picked := picked + [k];
        rest := rest - {k};
      }
    }

    method PendingAcknowledgements(hub: string, limit: int) returns (picked: seq<Key>)
      ensures OldestFirst(rows, PendingKeys(rows, hub), Clamp(limit, 2000), picked) && |picked| <= 2000
      ensures forall k | k in picked :: k in rows && k.hub == hub && rows[k].confirmedRank < Rank(rows[k].status)
      ensures |set k | k in rows && k.hub == hub && rows[k].confirmedRank < Rank(rows[k].status)| <= Clamp(limit, 2000) ==>
                forall k | k in rows && k.hub == hub && rows[k].confirmedRank < Rank(rows[k].status) :: k in picked
    {
      picked := Select(PendingKeys(rows, hub), Clamp(limit, 2000));
      forall k | k in rows ensures AwaitsConfirmation(rows[k]) <==> rows[k].confirmedRank < Rank(rows[k].status) {
        AwaitsWhatIsUnconfirmed(rows[k]);
      }
      hide AwaitsConfirmation;
      assert PendingKeys(rows, hub) == set k | k in rows && k.hub == hub && rows[k].confirmedRank < Rank(rows[k].status);
      if |PendingKeys(rows, hub)| <= Clamp(limit, 2000) { LimitNotReached(rows, PendingKeys(rows, hub), Clamp(limit, 2000), picked); }
    }

    method IncompleteCommands(hub: string, limit: int) returns (picked: seq<Key>)
      ensures OldestFirst(rows, IncompleteKeys(rows, hub), Clamp(limit, 2000), picked) && |picked| <= 2000
      ensures forall k | k in picked :: k in rows && k.hub == hub && rows[k].status in {Received, Executing}
      ensures |set k | k in rows && k.hub == hub && rows[k].status in {Received, Executing}| <= Clamp(limit, 2000) ==>
                forall k | k in rows && k.hub == hub && rows[k].status in {Received, Executing} :: k in picked
    {
      picked := Select(IncompleteKeys(rows, hub), Clamp(limit, 2000));
      assert IncompleteKeys(rows, hub) == set k | k in rows && k.hub == hub && rows[k].status in {Received, Executing};
      if |IncompleteKeys(rows, hub)| <= Clamp(limit, 2000) { LimitNotReached(rows, IncompleteKeys(rows, hub), Clamp(limit, 2000), picked); }
    }

    /** AgentCommandMaintenance.purge_confirmed_successes, on the journal's own tables. */
    method PurgeConfirmedSuccesses(retentionDays: int, limit: int, execute: bool, now: int)
        returns (candidates: nat, processed: nat, ghost picked: seq<Key>)
      requires Valid()
      modifies this`rows
      ensures Valid()
      ensures var cutoff := now - (if retentionDays < 1 then 1 else retentionDays) * DAY;
              OldestFirst(old(rows), PurgeableKeys(old(rows), cutoff), Clamp(limit, 5000), picked)
      ensures candidates == |picked| && processed == (if execute then |picked| else 0) && candidates <= 5000
      ensures Now() == if execute then Purge(old(Now()), Members(picked)) else old(Now())
      ensures var kept := (if retentionDays < 1 then 1 else retentionDays) * 86400;
              && (forall k | k in picked :: k in old(rows) && IsOldSuccess(old(rows)[k], now - kept))
              && (|set k | k in old(rows) && IsOldSuccess(old(rows)[k], now - kept)| <= Clamp(limit, 5000) ==>
                    forall k | k in old(rows) && IsOldSuccess(old(rows)[k], now - kept) :: k in picked)
    {
      var cutoff := now - (if retentionDays < 1 then 1 else retentionDays) * DAY;
      var chosen := Select(PurgeableKeys(rows, cutoff), Clamp(limit, 5000));
      picked, candidates, processed := chosen, |chosen|, 0;
      PicksOldSuccesses(Now(), history, cutoff, Clamp(limit, 5000), chosen);
      hide Clamp, Distance, IsOldSuccess, PurgeableKeys;
      if execute {
        PurgeKeeps(Now(), history, Members(chosen));
        processed := Delete(chosen);
      }
    }

    /** Deletes the rows one after the other. */
    method Delete(chosen: seq<Key>) returns (processed: nat)
      modifies this`rows
      ensures rows == old(rows) - Members(chosen) && processed == |chosen|
    {
      processed := 0;
      while processed < |chosen|
        invariant 0 <= processed <= |chosen|
        invariant rows == old(rows) - Members(chosen[..processed])
      {
        MembersThrough(chosen, processed);
        RemoveMore(old(rows), Members(chosen[..processed]), chosen[processed]);
        rows := rows - {chosen[processed]};
        processed := processed + 1;
      }
      assert chosen[..processed] == chosen;
    }
  }
}
