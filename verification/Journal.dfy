/**
  The durable command journal: the two tables, the transactions over them, and the rules that
  every transaction keeps.

  A transaction is a function from tables to tables; AgentCommandJournal (JournalStore.dfy) is the
  object whose methods perform them, and Protocol.dfy interleaves them.
 */
module Journal {
  import opened Common

  // ---------------------------------------------------------------- rows and tables

  datatype Status = Received | Executing | Succeeded | Failed

  predicate Terminal(status: Status) {
    status.Succeeded? || status.Failed?
  }

  function Rank(status: Status): (rank: int)
    ensures 0 <= rank <= 2
    ensures rank == 2 <==> Terminal(status)
  {
    match status
    case Received => 0
    case Executing => 1
    case Succeeded => 2
    case Failed => 2
  }

  /** A normalized command. `payload` is its canonical JSON text. */
  datatype Command = Command(
    id: string, idempotencyKey: string, name: string, instance: Option<string>, fence: int, payload: string)

  /** What mark_terminal stores beside the status. `response` is canonical JSON text. */
  datatype Outcome = Outcome(response: string, statusCode: int, errorCode: Option<string>)

  datatype Row = Row(
    hub: string, command: Command, status: Status, confirmedRank: int, outcome: Option<Outcome>, updatedAt: int)

  /** Primary key of the command table, and of the fence table. */
  datatype Key = Key(hub: string, id: string)
  datatype Slot = Slot(hub: string, target: string)

  /** One command accepted by the journal at some time, whether or not its row still exists. */
  datatype Entry = Entry(hub: string, command: Command)

  datatype Tables = Tables(rows: map<Key, Row>, fences: map<Slot, int>)

  const EMPTY := Tables(map[], map[])

  function TargetKey(instance: Option<string>): string {
    match instance
    case Some(id) => "instance:" + id
    case None => "server"
  }

  /** Two commands share a lock and a fence exactly when they name the same instance (or both the server). */
  lemma TargetKeyIdentifiesInstance(a: Option<string>, b: Option<string>)
    ensures TargetKey(a) == TargetKey(b) <==> a == b
  {
    if TargetKey(a) == TargetKey(b) {
      assert forall i: Option<string> | i.Some? :: TargetKey(i)[0] == 'i';
      assert TargetKey(None)[0] == 's';
      if a.Some? && b.Some? {
        assert a.value == TargetKey(a)[|"instance:"|..] == TargetKey(b)[|"instance:"|..] == b.value;
      }
    }
  }

  function RowKey(row: Row): Key { Key(row.hub, row.command.id) }
  function RowEntry(row: Row): Entry { Entry(row.hub, row.command) }
  function EntryKey(e: Entry): Key { Key(e.hub, e.command.id) }
  function EntrySlot(e: Entry): Slot { Slot(e.hub, TargetKey(e.command.instance)) }
  function RowSlot(row: Row): Slot { EntrySlot(RowEntry(row)) }

  // ---------------------------------------------------------------- normalization

  /** The journal's refusals: a malformed message, a contradiction, an old fence, a reused primary key. */
  datatype Refusal = Contract | Conflict | Stale | DuplicateId

  datatype Target = Target(instanceId: string, fence: Option<int>)

  /**
    A message whose text fields have been converted and trimmed; `idIsUuid` is the verdict of the UUID
    parser on the id, and an absent target or payload is one that is not a JSON object.
   */
  datatype Message = Message(
    id: string, idIsUuid: bool, idempotencyKey: string, command: string, target: Option<Target>, payload: Option<string>)

  function Normalize(hub: string, m: Message): Result<Entry, Refusal> {
    if hub == "" || !m.idIsUuid then Err(Contract)
    else if m.idempotencyKey == "" || |m.idempotencyKey| > 128 then Err(Contract)
    else if m.command == "" || |m.command| > 80 then Err(Contract)
    else if m.target.None? || m.payload.None? then Err(Contract)
    else if |m.target.value.instanceId| > 100 then Err(Contract)
    else if m.target.value.fence.None? || m.target.value.fence.value <= 0 then Err(Contract)
    else
      var instanceId := m.target.value.instanceId;
      var instance := if instanceId == "" then None else Some(instanceId);
      Ok(Entry(hub, Command(m.id, m.idempotencyKey, m.command, instance, m.target.value.fence.value, m.payload.value)))
  }

  /** What the journal may store: non-empty, within the column limits, and with a positive fence. */
  predicate Normal(e: Entry) {
    && e.hub != ""
    && 0 < |e.command.idempotencyKey| <= 128
    && 0 < |e.command.name| <= 80
    && (e.command.instance.Some? ==> 0 < |e.command.instance.value| <= 100)
    && e.command.fence > 0
  }

  /** The message that says exactly `e`. */
  function AsMessage(e: Entry): Message {
    Message(e.command.id, true, e.command.idempotencyKey, e.command.name,
            Some(Target(if e.command.instance.Some? then e.command.instance.value else "", Some(e.command.fence))),
            Some(e.command.payload))
  }

  /** Normalization yields exactly the normal commands, each from exactly one message of its hub. */
  lemma NormalizeRoundTrip(hub: string, m: Message, e: Entry)
    ensures Normalize(hub, m) == Ok(e) <==> Normal(e) && hub == e.hub && m == AsMessage(e)
    ensures Normalize(hub, m).Err? ==> Normalize(hub, m).error == Contract
  {
  }

  /** The fingerprint is a hash of three fields, taken here to be injective in them. */
  datatype Fingerprint = Fingerprint(name: string, instance: Option<string>, payload: string)

  function PayloadFingerprint(c: Command): Fingerprint { Fingerprint(c.name, c.instance, c.payload) }

  predicate SameCommand(existing: Command, c: Command) {
    && existing.id == c.id
    && existing.name == c.name
    && existing.instance == c.instance
    && PayloadFingerprint(existing) == PayloadFingerprint(c)
    && existing.fence == c.fence
  }

  // ---------------------------------------------------------------- transactions

  /** The tables after a transaction, and the row it returns or the refusal it raises. */
  datatype Receipt = Receipt(tables: Tables, result: Result<Row, Refusal>)

  ghost predicate HasIdempotencyKey(rows: map<Key, Row>, hub: string, key: string, k: Key) {
    k in rows && k.hub == hub && rows[k].command.idempotencyKey == key
  }

  /** The row the UNIQUE (hub, idempotency_key) index finds. */
  ghost function Existing(rows: map<Key, Row>, hub: string, key: string): (r: Option<Key>)
    ensures r.Some? ==> HasIdempotencyKey(rows, hub, key, r.value)
    ensures r.None? ==> forall k :: !HasIdempotencyKey(rows, hub, key, k)
  {
    if exists k :: HasIdempotencyKey(rows, hub, key, k)
    then var k :| HasIdempotencyKey(rows, hub, key, k); Some(k)
    else None
  }

  function NewRow(e: Entry, now: int): Row {
    Row(e.hub, e.command, Received, -1, None, now)
  }

  ghost function Receive(t: Tables, e: Entry, now: int): Receipt {
    var existing := Existing(t.rows, e.hub, e.command.idempotencyKey);
    var slot := EntrySlot(e);
    if existing.Some? then
      var row := t.rows[existing.value];
      Receipt(t, if SameCommand(row.command, e.command) then Ok(row) else Err(Conflict))
    else if slot in t.fences && e.command.fence <= t.fences[slot] then Receipt(t, Err(Stale))
    else if EntryKey(e) in t.rows then Receipt(t, Err(DuplicateId))
    else
      Receipt(Tables(t.rows[EntryKey(e) := NewRow(e, now)], t.fences[slot := e.command.fence]), Ok(NewRow(e, now)))
  }

  /** True when Receive stores `e` as a new command. */
  ghost predicate Accepts(t: Tables, e: Entry) {
    && Existing(t.rows, e.hub, e.command.idempotencyKey).None?
    && (EntrySlot(e) in t.fences ==> e.command.fence > t.fences[EntrySlot(e)])
    && EntryKey(e) !in t.rows
  }

  function Transition(t: Tables, k: Key, status: Status, now: int): Receipt {
    if k !in t.rows then Receipt(t, Err(Contract))
    else
      var row := t.rows[k];
      if Terminal(row.status) || Rank(status) < Rank(row.status) then Receipt(t, Ok(row))
      else
        var row' := row.(status := status, updatedAt := now);
        Receipt(t.(rows := t.rows[k := row']), Ok(row'))
  }

  function MarkExecuting(t: Tables, k: Key, now: int): Receipt {
    Transition(t, k, Executing, now)
  }

  function MarkTerminal(t: Tables, k: Key, status: Status, outcome: Outcome, now: int): Receipt
    requires Terminal(status)
  {
    if k !in t.rows then Receipt(t, Err(Contract))
    else
      var row := t.rows[k];
      if Terminal(row.status) then Receipt(t, if row.status == status then Ok(row) else Err(Conflict))
      else
        var row' := row.(status := status, outcome := Some(outcome), updatedAt := now);
        Receipt(t.(rows := t.rows[k := row']), Ok(row'))
  }

  function Max(a: int, b: int): int { if a >= b then a else b }

  function Confirm(t: Tables, k: Key, status: Status, now: int): Receipt {
    if k !in t.rows then Receipt(t, Err(Contract))
    else
      var row := t.rows[k];
      if Rank(status) > Rank(row.status) then Receipt(t, Err(Conflict))
      else if Terminal(status) && Terminal(row.status) && status != row.status then Receipt(t, Err(Conflict))
      else
        var row' := row.(confirmedRank := Max(row.confirmedRank, Rank(status)), updatedAt := now);
        Receipt(t.(rows := t.rows[k := row']), Ok(row'))
  }

  /** The last fence of the command's slot, when it is above the command's own. */
  function SupersedingFence(t: Tables, k: Key): Result<Option<int>, Refusal> {
    if k !in t.rows then Err(Contract)
    else
      var row := t.rows[k];
      var slot := RowSlot(row);
      if slot in t.fences && t.fences[slot] > row.command.fence then Ok(Some(t.fences[slot])) else Ok(None)
  }

  predicate Purgeable(row: Row) {
    row.status.Succeeded? && row.confirmedRank >= 2
  }

  /** One day in seconds: no success is kept for less. */
  const DAY := 86400

  function Purge(t: Tables, keys: set<Key>): Tables {
    t.(rows := t.rows - keys)
  }

  // ---------------------------------------------------------------- the two queries

  predicate AwaitsConfirmation(row: Row) {
    || (row.status.Received? && row.confirmedRank < 0)
    || (row.status.Executing? && row.confirmedRank < 1)
    || (Terminal(row.status) && row.confirmedRank < 2)
  }

  predicate Incomplete(row: Row) {
    row.status.Received? || row.status.Executing?
  }

  // ---------------------------------------------------------------- what the tables always satisfy

  ghost predicate RowOk(k: Key, row: Row, history: set<Entry>) {
    && k == RowKey(row)
    && RowEntry(row) in history
    && -1 <= row.confirmedRank <= Rank(row.status)
    && (row.outcome.Some? <==> Terminal(row.status))
  }

  /** The fence table remembers every command ever accepted, also those whose rows are gone. */
  ghost predicate Remembered(e: Entry, t: Tables) {
    EntrySlot(e) in t.fences && e.command.fence <= t.fences[EntrySlot(e)]
  }

  ghost predicate FencesIdentify(history: set<Entry>) {
    forall e, e' | e in history && e' in history && EntrySlot(e) == EntrySlot(e') && e.command.fence == e'.command.fence ::
      e == e'
  }

  ghost predicate UniqueIdempotencyKeys(rows: map<Key, Row>) {
    forall k, k' | k in rows && k' in rows && k.hub == k'.hub && rows[k].command.idempotencyKey == rows[k'].command.idempotencyKey ::
      k == k'
  }

  ghost predicate TablesOk(t: Tables, history: set<Entry>) {
    && (forall k | k in t.rows :: RowOk(k, t.rows[k], history))
    && (forall e | e in history :: Remembered(e, t))
    && FencesIdentify(history)
    && UniqueIdempotencyKeys(t.rows)
  }

  /** `b` is the same command at a later time. */
  ghost predicate RowLater(a: Row, b: Row) {
    && RowEntry(a) == RowEntry(b)
    && Rank(a.status) <= Rank(b.status)
    && (Terminal(a.status) ==> b.status == a.status && b.outcome == a.outcome)
    && a.confirmedRank <= b.confirmedRank
  }

  /** No surviving row goes back, no fence goes down, and a row disappears only when nothing is owed for it. */
  ghost predicate Later(t: Tables, t': Tables) {
    && (forall k | k in t.rows && k in t'.rows :: RowLater(t.rows[k], t'.rows[k]))
    && (forall k | k in t.rows && k !in t'.rows :: Purgeable(t.rows[k]))
    && (forall slot | slot in t.fences :: slot in t'.fences && t.fences[slot] <= t'.fences[slot])
  }

  lemma UniqueExisting(rows: map<Key, Row>, hub: string, key: string, k: Key)
    requires UniqueIdempotencyKeys(rows)
    requires HasIdempotencyKey(rows, hub, key, k)
    ensures Existing(rows, hub, key) == Some(k)
  {
  }

  /** A stored command delivered again is answered with its row; only identical content is a duplicate. */
  lemma ReceiveDuplicate(t: Tables, history: set<Entry>, e: Entry, now: int)
    requires TablesOk(t, history)
    ensures Receive(t, e, now).result.Ok? && !Accepts(t, e) <==>
            EntryKey(e) in t.rows && RowEntry(t.rows[EntryKey(e)]) == e
    ensures !Accepts(t, e) ==> Receive(t, e, now).tables == t
    ensures Receive(t, e, now).result.Ok? ==> RowEntry(Receive(t, e, now).result.value) == e
  {
    if EntryKey(e) in t.rows && RowEntry(t.rows[EntryKey(e)]) == e {
      UniqueExisting(t.rows, e.hub, e.command.idempotencyKey, EntryKey(e));
    }
  }

  lemma ReceivedIsStored(t: Tables, history: set<Entry>, e: Entry, now: int)
    requires TablesOk(t, history) && Receive(t, e, now).result.Ok?
    ensures
      var r := Receive(t, e, now);
      EntryKey(e) in r.tables.rows && r.tables.rows[EntryKey(e)] == r.result.value
  {
    hide UniqueIdempotencyKeys, FencesIdentify, Remembered;
  }

  lemma NewFenceIdentifies(history: set<Entry>, e: Entry)
    requires FencesIdentify(history) && forall x | x in history && EntrySlot(x) == EntrySlot(e) :: x.command.fence < e.command.fence
    ensures FencesIdentify(history + {e})
  {
  }

  lemma AcceptRemembers(t: Tables, history: set<Entry>, e: Entry, t': Tables)
    requires Accepts(t, e) && t'.fences == t.fences[EntrySlot(e) := e.command.fence]
    requires forall x | x in history :: Remembered(x, t)
    ensures forall x | x in history + {e} :: Remembered(x, t')
  {
    forall x | x in history + {e} ensures Remembered(x, t') {
      if x != e { assert Remembered(x, t); }
    }
  }

  lemma AcceptIdentifies(t: Tables, history: set<Entry>, e: Entry)
    requires Accepts(t, e) && FencesIdentify(history) && forall x | x in history :: Remembered(x, t)
    ensures FencesIdentify(history + {e})
  {
    forall x | x in history && EntrySlot(x) == EntrySlot(e) ensures x.command.fence < e.command.fence {
      assert Remembered(x, t);
    }
    NewFenceIdentifies(history, e);
  }

  lemma AcceptKeeps(t: Tables, history: set<Entry>, e: Entry, now: int)
    requires TablesOk(t, history) && Accepts(t, e)
    ensures
      var t' := Tables(t.rows[EntryKey(e) := NewRow(e, now)], t.fences[EntrySlot(e) := e.command.fence]);
      TablesOk(t', history + {e}) && Later(t, t')
  {
    hide FencesIdentify, UniqueIdempotencyKeys, Remembered;
    AcceptRemembers(t, history, e, Tables(t.rows[EntryKey(e) := NewRow(e, now)], t.fences[EntrySlot(e) := e.command.fence]));
    AcceptIdentifies(t, history, e);
    forall k | k in t.rows && k.hub == e.hub ensures t.rows[k].command.idempotencyKey != e.command.idempotencyKey {
      assert !HasIdempotencyKey(t.rows, e.hub, e.command.idempotencyKey, k);
    }
    InsertKeepsUnique(t.rows, EntryKey(e), NewRow(e, now));
  }

  lemma ReceiveKeeps(t: Tables, history: set<Entry>, e: Entry, now: int)
    requires TablesOk(t, history)
    ensures
      var t' := Receive(t, e, now).tables;
      var history' := if Accepts(t, e) then history + {e} else history;
      TablesOk(t', history') && Later(t, t')
  {
    if Accepts(t, e) { AcceptKeeps(t, history, e, now); }
    hide TablesOk;
  }

  lemma UpdateKeepsUnique(rows: map<Key, Row>, k: Key, row: Row)
    requires UniqueIdempotencyKeys(rows)
    requires k in rows && row.command == rows[k].command
    ensures UniqueIdempotencyKeys(rows[k := row])
  {
    var rows' := rows[k := row];
    forall i, j | i in rows' && j in rows' && i.hub == j.hub && rows'[i].command.idempotencyKey == rows'[j].command.idempotencyKey
      ensures i == j
    {
      assert rows[i].command == rows'[i].command && rows[j].command == rows'[j].command;
    }
  }

  lemma InsertKeepsUnique(rows: map<Key, Row>, k: Key, row: Row)
    requires UniqueIdempotencyKeys(rows)
    requires forall i | i in rows && i.hub == k.hub :: rows[i].command.idempotencyKey != row.command.idempotencyKey
    ensures UniqueIdempotencyKeys(rows[k := row])
  {
  }

  /** One row replaced by a later version of itself. */
  lemma UpdateKeeps(t: Tables, history: set<Entry>, k: Key, row: Row)
    requires TablesOk(t, history)
    requires k in t.rows && RowLater(t.rows[k], row) && RowOk(k, row, history)
    ensures
      var t' := t.(rows := t.rows[k := row]);
      TablesOk(t', history) && Later(t, t')
  {
    var t' := t.(rows := t.rows[k := row]);
    forall e | e in history ensures Remembered(e, t') {
      assert Remembered(e, t);
    }
    UpdateKeepsUnique(t.rows, k, row);
  }

  lemma TransitionKeeps(t: Tables, history: set<Entry>, k: Key, status: Status, now: int)
    requires TablesOk(t, history) && !Terminal(status)
    ensures
      var r := Transition(t, k, status, now);
      TablesOk(r.tables, history) && Later(t, r.tables)
      && (r.result.Ok? <==> k in t.rows)
      && (r.result.Ok? ==> k in r.tables.rows && r.result.value == r.tables.rows[k] && Rank(status) <= Rank(r.result.value.status))
  {
    if k in t.rows {
      var row := t.rows[k];
      assert RowOk(k, row, history);
      if !Terminal(row.status) && Rank(status) >= Rank(row.status) {
        UpdateKeeps(t, history, k, row.(status := status, updatedAt := now));
      }
    }
  }

  lemma MarkTerminalKeeps(t: Tables, history: set<Entry>, k: Key, status: Status, outcome: Outcome, now: int)
    requires TablesOk(t, history) && Terminal(status)
    ensures
      var r := MarkTerminal(t, k, status, outcome, now);
      TablesOk(r.tables, history) && Later(t, r.tables)
      && (k in t.rows <==> k in r.tables.rows)
      && (k in t.rows ==> Terminal(r.tables.rows[k].status))
      && (r.result.Ok? ==> k in r.tables.rows && r.result.value == r.tables.rows[k])
  {
    if k in t.rows {
      var row := t.rows[k];
      assert RowOk(k, row, history);
      if !Terminal(row.status) {
        UpdateKeeps(t, history, k, row.(status := status, outcome := Some(outcome), updatedAt := now));
      }
    }
  }

  lemma ConfirmKeeps(t: Tables, history: set<Entry>, k: Key, status: Status, now: int)
    requires TablesOk(t, history)
    ensures
      var r := Confirm(t, k, status, now);
      TablesOk(r.tables, history) && Later(t, r.tables)
  {
    if k in t.rows {
      var row := t.rows[k];
      assert RowOk(k, row, history);
      if Confirm(t, k, status, now).result.Ok? {
        UpdateKeeps(t, history, k, row.(confirmedRank := Max(row.confirmedRank, Rank(status)), updatedAt := now));
      }
    }
  }

  lemma PurgeKeeps(t: Tables, history: set<Entry>, keys: set<Key>)
    requires TablesOk(t, history)
    requires forall k | k in keys && k in t.rows :: Purgeable(t.rows[k])
    ensures TablesOk(Purge(t, keys), history) && Later(t, Purge(t, keys))
  {
    forall e | e in history ensures Remembered(e, Purge(t, keys)) {
      assert Remembered(e, t);
    }
  }

  // ---------------------------------------------------------------- consequences

  /** A row is owed a confirmation exactly when the Hub has confirmed less than its status. */
  lemma AwaitsWhatIsUnconfirmed(row: Row)
    ensures AwaitsConfirmation(row) <==> row.confirmedRank < Rank(row.status)
  {
  }

  /** A row of the hub has this idempotency key. */
  ghost predicate KeyTaken(t: Tables, hub: string, key: string) {
    exists k :: k in t.rows && k.hub == hub && t.rows[k].command.idempotencyKey == key
  }

  /**
    Why a delivery is refused: its idempotency key belongs to another command, or its fence is not above the last one of
    its target, or its id is stored under another idempotency key. A refusal changes nothing.
   */
  lemma RefusedBecause(t: Tables, history: set<Entry>, e: Entry, now: int)
    requires TablesOk(t, history)
    ensures
      var taken := KeyTaken(t, e.hub, e.command.idempotencyKey);
      var known := EntryKey(e) in t.rows && RowEntry(t.rows[EntryKey(e)]) == e;
      var late := exists slot :: slot in t.fences && slot.hub == e.hub && slot.target == TargetKey(e.command.instance)
                                && e.command.fence <= t.fences[slot];
      var r := Receive(t, e, now);
      && (r.result == Err(Conflict) <==> taken && !known)
      && (r.result == Err(Stale) <==> !taken && late)
      && (r.result == Err(DuplicateId) <==> !taken && !late && EntryKey(e) in t.rows)
      && (r.result.Err? ==> r.result != Err(Contract) && r.tables == t)
  {
    ReceiveDuplicate(t, history, e, now);
    var existing := Existing(t.rows, e.hub, e.command.idempotencyKey);
    assert KeyTaken(t, e.hub, e.command.idempotencyKey) <==> existing.Some? by {
      if k :| k in t.rows && k.hub == e.hub && t.rows[k].command.idempotencyKey == e.command.idempotencyKey {
        assert HasIdempotencyKey(t.rows, e.hub, e.command.idempotencyKey, k);
      }
    }
    assert forall slot: Slot :: slot.hub == e.hub && slot.target == TargetKey(e.command.instance) <==> slot == EntrySlot(e);
    hide TablesOk, KeyTaken;
  }

  /** A new command is received, open, and its receipt is still owed to the Hub; its fence is the last of its slot. */
  lemma AcceptedIsOwed(t: Tables, e: Entry, now: int)
    requires Accepts(t, e)
    ensures
      var r := Receive(t, e, now);
      && r.result.Ok? && r.tables.rows == t.rows[EntryKey(e) := r.result.value]
      && r.tables.fences == t.fences[EntrySlot(e) := e.command.fence]
      && RowEntry(r.result.value) == e && r.result.value.status == Received && r.result.value.outcome == None
      && AwaitsConfirmation(r.result.value) && r.result.value.updatedAt == now
  {
  }

  /**
    A confirmation is taken exactly for the state a command is in or one it has passed. It only raises the confirmed rank,
    to no more than that of the state confirmed, and counts as an update of the row.
   */
  lemma ConfirmedExactlyWhen(t: Tables, k: Key, status: Status, now: int)
    ensures
      var r := Confirm(t, k, status, now);
      && (r.result.Ok? <==> k in t.rows && (t.rows[k].status == status || status.Received? || (status.Executing? && !t.rows[k].status.Received?)))
      && (r.result.Err? ==> r.tables == t && r.result.error == if k in t.rows then Conflict else Contract)
      && (r.result.Ok? ==>
            && r.tables == t.(rows := t.rows[k := r.result.value])
            && r.result.value == t.rows[k].(confirmedRank := r.result.value.confirmedRank, updatedAt := now)
            && r.result.value.confirmedRank >= t.rows[k].confirmedRank && r.result.value.confirmedRank >= Rank(status)
            && r.result.value.confirmedRank in {t.rows[k].confirmedRank, Rank(status)})
  {
  }

  /** A finished row is never rewritten, and only its own state may be given again. */
  lemma FinishedIsFinal(t: Tables, k: Key, status: Status, outcome: Outcome, now: int)
    requires Terminal(status) && k in t.rows && t.rows[k].status !in {Received, Executing}
    ensures MarkExecuting(t, k, now) == Receipt(t, Ok(t.rows[k]))
    ensures MarkTerminal(t, k, status, outcome, now) == Receipt(t, if status == t.rows[k].status then Ok(t.rows[k]) else Err(Conflict))
  {
  }

  /** Nothing can be done to a command that is not stored. */
  lemma UnknownIsRefused(t: Tables, k: Key, status: Status, outcome: Outcome, now: int)
    requires k !in t.rows
    ensures Transition(t, k, status, now) == MarkExecuting(t, k, now) == Confirm(t, k, status, now) == Receipt(t, Err(Contract))
    ensures Terminal(status) ==> MarkTerminal(t, k, status, outcome, now) == Receipt(t, Err(Contract))
    ensures SupersedingFence(t, k) == Err(Contract)
  {
  }

  /** A stored command is in neither query exactly when it is finished and its terminal state is confirmed. */
  lemma OutsideBothQueries(t: Tables, history: set<Entry>, k: Key)
    requires TablesOk(t, history) && k in t.rows
    ensures !AwaitsConfirmation(t.rows[k]) && !Incomplete(t.rows[k]) <==>
            Terminal(t.rows[k].status) && t.rows[k].confirmedRank == 2
    ensures Purgeable(t.rows[k]) ==> !AwaitsConfirmation(t.rows[k]) && !Incomplete(t.rows[k])
  {
    assert RowOk(k, t.rows[k], history);
  }

  /** An accepted command whose row is gone is refused as stale when delivered again, never accepted as new. */
  lemma PurgedIsStale(t: Tables, history: set<Entry>, e: Entry, now: int)
    requires TablesOk(t, history)
    requires e in history
    ensures !Accepts(t, e)
    ensures EntryKey(e) !in t.rows && Existing(t.rows, e.hub, e.command.idempotencyKey).None? ==>
              Receive(t, e, now) == Receipt(t, Err(Stale))
  {
    assert Remembered(e, t);
  }

  /** A new command is accepted exactly when its fence is above everything its slot has ever accepted. */
  lemma AcceptsOnlyHigherFences(t: Tables, history: set<Entry>, e: Entry)
    requires TablesOk(t, history) && Accepts(t, e)
    ensures forall x | x in history && EntrySlot(x) == EntrySlot(e) :: x.command.fence < e.command.fence
  {
    forall x | x in history && EntrySlot(x) == EntrySlot(e) ensures x.command.fence < e.command.fence {
      assert Remembered(x, t);
    }
  }
}
