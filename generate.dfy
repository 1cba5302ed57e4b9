/**
 * The `checklists:generate-repeats` console command: one sweep over the
 * completed, repeating checklists that creates the next instance of each one
 * whose limit is not reached, bumps its counter and copies its weekday rows.
 */
module GenerateRepeats {
  import opened Checklists
  import opened Store

  /** Carbon's `addMonth` and `addYear`, whose month-overflow rules belong to the library. */
  datatype Calendar = Calendar(addMonth: DateTime -> DateTime, addYear: DateTime -> DateTime)

  /** Whole days added to a timestamp keep its time of day. */
  function AddDays(t: DateTime, n: int): DateTime
  {
    DateTime(t.day + n, t.time)
  }

  predicate Later(a: DateTime, b: DateTime)
  {
    a.day > b.day || (a.day == b.day && a.time > b.time)
  }

  /** `calculateNextDueTime`: the due time one interval after the record's own. */
  function NextDueTime(c: Checklist, cal: Calendar): (r: Option<DateTime>)
    ensures r.None? <==> c.interval.Unlisted?
    ensures c.interval == Daily ==> r == Some(AddDays(c.dueTime, 1))
    ensures c.interval == ThreeDays ==> r == Some(AddDays(c.dueTime, 3))
    ensures c.interval == Weekly ==> r == Some(AddDays(c.dueTime, 7))
    ensures c.interval == Monthly ==> r == Some(cal.addMonth(c.dueTime))
    ensures c.interval == Yearly ==> r == Some(cal.addYear(c.dueTime))
  {
    match c.interval
    case Daily => Some(AddDays(c.dueTime, 1))
    case ThreeDays => Some(AddDays(c.dueTime, 3))
    case Weekly => Some(AddDays(c.dueTime, 7))
    case Monthly => Some(cal.addMonth(c.dueTime))
    case Yearly => Some(cal.addYear(c.dueTime))
    case Unlisted => None
  }

  /** For the day-based intervals the next due time is strictly later, at the same time of day. */
  lemma NextDueIsLater(c: Checklist, cal: Calendar)
    requires c.interval in {Daily, ThreeDays, Weekly}
    ensures NextDueTime(c, cal).Some?
    ensures Later(NextDueTime(c, cal).value, c.dueTime)
    ensures NextDueTime(c, cal).value.time == c.dueTime.time
  {
  }

  /** A record the command's query selects: completed, repeating, not soft-deleted. */
  predicate IsCandidate(c: Checklist)
  {
    c.isCompleted && c.repeatType != Never && c.deletedAt.None?
  }

  /** A selected record produces an instance when its limit is not reached and it has a next due time. */
  predicate Generates(c: Checklist, today: Date, cal: Calendar)
  {
    !HasReachedRepeatLimit(c, today) && NextDueTime(c, cal).Some?
  }

  /** The attributes of the instance generated from `source`, due at `next`. */
  function InstanceOf(source: Checklist, next: DateTime): NewChecklist
  {
    NewChecklist(None, Some(source.id), source.userId, source.title, next, source.interval,
                 source.repeatType, source.repeatEndDate, source.repeatMaxCount,
                 source.repeatCurrentCount + 1, false)
  }

  /** What one pass of the loop does to a selected record: advanced by one generation, or left alone. */
  function Advance(c: Checklist, today: Date, cal: Calendar): Checklist
  {
    if Generates(c, today, cal) then Incremented(c) else c
  }

  /**
   * One pass of the loop body for a source that generates: the instance is
   * created under `newId`, the stored counter of the source goes up by one, and
   * for a weekly source the rows filed under its parent id are copied under its id.
   */
  function Generate(t: Tables, source: Checklist, today: Date, cal: Calendar, newId: Id): Tables
    requires Generates(source, today, cal)
  {
    var instance := Creating(InstanceOf(source, NextDueTime(source, cal).value), newId);
    var withInstance := t.checklists[instance.id := instance];
    var records :=
      if source.id in withInstance
      then withInstance[source.id := Incremented(withInstance[source.id])]
      else withInstance;
    var rows :=
      if source.interval == Weekly
      then t.repeatDays + Keyed(source.id, DaysOf(t.repeatDays, source.parentId))
      else t.repeatDays;
    Tables(records, rows)
  }

  /** How many records of `batch` produce an instance. */
  function NumGenerated(batch: seq<Checklist>, today: Date, cal: Calendar): nat
  {
    if batch == [] then 0
    else NumGenerated(batch[..|batch| - 1], today, cal)
         + (if Generates(batch[|batch| - 1], today, cal) then 1 else 0)
  }

  /** The whole sweep over `batch`, in order; `ids` are the new UUIDs, one per instance created. */
  function GenerateAll(t: Tables, batch: seq<Checklist>, today: Date, cal: Calendar, ids: seq<Id>): Tables
    requires |ids| == NumGenerated(batch, today, cal)
    decreases |batch|
  {
    if batch == [] then t
    else
      var last := batch[|batch| - 1];
      if Generates(last, today, cal)
      then Generate(GenerateAll(t, batch[..|batch| - 1], today, cal, ids[..|ids| - 1]), last, today, cal, ids[|ids| - 1])
      else GenerateAll(t, batch[..|batch| - 1], today, cal, ids)
  }

  /** The ids of the records in `batch`. */
  function Ids(batch: seq<Checklist>): (r: set<Id>)
    ensures forall c :: c in batch ==> c.id in r
  {
    if batch == [] then {} else Ids(batch[..|batch| - 1]) + {batch[|batch| - 1].id}
  }

  /** Every entry of `batch` is the stored record under its id, and no id occurs twice. */
  ghost predicate BatchCurrent(records: map<Id, Checklist>, batch: seq<Checklist>)
  {
    if batch == [] then true
    else
      var last := batch[|batch| - 1];
      && BatchCurrent(records, batch[..|batch| - 1])
      && last.id !in Ids(batch[..|batch| - 1])
      && last.id in records && records[last.id] == last
  }

  /** What the query returns: every selected record exactly once, in some order. */
  ghost predicate IsQueryResult(records: map<Id, Checklist>, batch: seq<Checklist>)
  {
    && BatchCurrent(records, batch)
    && (forall c :: c in batch ==> IsCandidate(c))
    && (forall k :: k in records && IsCandidate(records[k]) ==> k in Ids(batch))
  }

  /** New ids: none is a stored id and none occurs twice. */
  ghost predicate FreshIds(records: map<Id, Checklist>, ids: seq<Id>)
  {
    && (forall x :: x in ids ==> x !in records)
    && (forall i, j :: 0 <= i < j < |ids| ==> ids[i] != ids[j])
  }

  /**
   * The query `where('is_completed', true)->where('repeat_type', '!=', 'never')->get()`,
   * taken once before the sweep; soft-deleted records are excluded by the model's scope.
   */
  method CompletedRepeating(db: Database) returns (batch: seq<Checklist>)
    requires db.Valid()
    ensures IsQueryResult(db.checklists, batch)
  {
    var records := db.checklists;
    assert forall k :: k in records ==> records[k].id == k;
    batch := [];
    var remaining := records.Keys;
    while remaining != {}
      invariant remaining <= records.Keys
      invariant BatchCurrent(records, batch)
      invariant forall c :: c in batch ==> IsCandidate(c)
      invariant Ids(batch) !! remaining
      invariant forall k :: k in records && k !in remaining && IsCandidate(records[k]) ==> k in Ids(batch)
      decreases remaining
    {
      var k :| k in remaining;
      if IsCandidate(records[k]) {
        var next := batch + [records[k]];
        assert next[..|batch|] == batch;
        batch := next;
      }
      remaining := remaining - {k};
    }
  }

  /**
   * One pass of `handle`'s loop for the selected record `original`: nothing
   * when its limit is reached or it has no next due time; otherwise the new
   * instance, the counter increment and, for a weekly record, the row copy.
   */
  method GenerateFor(db: Database, original: Checklist, today: Date, cal: Calendar) returns (created: Option<Id>)
    requires db.Valid() && original.id in db.checklists
    modifies db
    ensures db.Valid()
    ensures old(db.checklists).Keys <= db.checklists.Keys
    ensures created.Some? <==> Generates(original, today, cal)
    ensures created.None? ==> db.Contents() == old(db.Contents())
    ensures created.Some? ==>
      && created.value !in old(db.checklists) && created.value in db.checklists
      && db.Contents() == Generate(old(db.Contents()), original, today, cal, created.value)
  {
    created := None;
    if HasReachedRepeatLimit(original, today) {
      return;
    }
    var next := NextDueTime(original, cal);
    if next.None? {
      return;
    }
    ghost var before := db.Contents();
    var instance := db.Insert(InstanceOf(original, next.value));
    ghost var withInstance := db.checklists;
    db.Increment(original.id);
    assert db.checklists == withInstance[original.id := Incremented(withInstance[original.id])];
    assert db.repeatDays == before.repeatDays;
    if original.interval == Weekly {
      db.AddRepeatDays(original.id, DaysOf(db.repeatDays, original.parentId));
    }
    GenerateStep(before, original, today, cal, instance, db.Contents());
    created := Some(instance.id);
  }

  /**
   * `handle`: sweeps the query's result once. A record at its limit, or with
   * no next due time, is skipped; any other gets a new instance, its counter
   * incremented and, when weekly, its weekday rows copied.
   */
  method Handle(db: Database, today: Date, cal: Calendar) returns (batch: seq<Checklist>, created: seq<Id>)
    requires db.Valid()
    modifies db
    ensures db.Valid()
    ensures IsQueryResult(old(db.checklists), batch)
    ensures |created| == NumGenerated(batch, today, cal)
    ensures FreshIds(old(db.checklists), created)
    ensures db.Contents() == GenerateAll(old(db.Contents()), batch, today, cal, created)
    ensures CountsWithinLimit(old(db.checklists)) ==> CountsWithinLimit(db.checklists)
  {
    ghost var start := db.Contents();
    batch := CompletedRepeating(db);
    BatchStored(start.checklists, batch);
    created := Sweep(db, batch, today, cal);
    if CountsWithinLimit(start.checklists) {
      RunKeepsCountsWithinLimit(start, batch, today, cal, created);
    }
  }

  /** The `foreach` of `handle` over an already selected batch of stored records. */
  method Sweep(db: Database, batch: seq<Checklist>, today: Date, cal: Calendar) returns (created: seq<Id>)
    requires db.Valid()
    requires forall j :: 0 <= j < |batch| ==> batch[j].id in db.checklists
    modifies db
    ensures db.Valid()
    ensures |created| == NumGenerated(batch, today, cal)
    ensures FreshIds(old(db.checklists), created)
    ensures db.Contents() == GenerateAll(old(db.Contents()), batch, today, cal, created)
  {
    ghost var start := db.Contents();
    created := [];
    var i := 0;
    while i < |batch|
      invariant 0 <= i <= |batch|
      invariant db.Valid()
      invariant start.checklists.Keys <= db.checklists.Keys
      invariant |created| == NumGenerated(batch[..i], today, cal)
      invariant FreshIds(start.checklists, created)
      invariant forall x :: x in created ==> x in db.checklists
      invariant db.Contents() == GenerateAll(start, batch[..i], today, cal, created)
    {
      var made := GenerateFor(db, batch[i], today, cal);
      SweepStep(start, batch, i, today, cal, created, made);
      if made.Some? {
        FreshIdsGrow(start.checklists, created, made.value);
        created := created + [made.value];
      }
      i := i + 1;
    }
    assert batch[..i] == batch;
  }

  /** An id neither stored nor already drawn keeps the drawn ids fresh. */
  lemma FreshIdsGrow(records: map<Id, Checklist>, ids: seq<Id>, x: Id)
    requires FreshIds(records, ids) && x !in records && x !in ids
    ensures FreshIds(records, ids + [x])
  {
  }

  /** The whole-sweep definition grows by one loop pass at a time. */
  lemma SweepStep(t: Tables, batch: seq<Checklist>, i: nat, today: Date, cal: Calendar, ids: seq<Id>, made: Option<Id>)
    requires i < |batch| && |ids| == NumGenerated(batch[..i], today, cal)
    requires made.Some? <==> Generates(batch[i], today, cal)
    ensures var grown := if made.Some? then ids + [made.value] else ids;
      && |grown| == NumGenerated(batch[..i + 1], today, cal)
      && GenerateAll(t, batch[..i + 1], today, cal, grown) ==
         if made.Some?
         then Generate(GenerateAll(t, batch[..i], today, cal, ids), batch[i], today, cal, made.value)
         else GenerateAll(t, batch[..i], today, cal, ids)
  {
    assert batch[..i + 1][..i] == batch[..i];
    if made.Some? {
      assert (ids + [made.value])[..|ids|] == ids;
    }
  }

  /** Every entry of a current batch is stored. */
  lemma BatchStored(records: map<Id, Checklist>, batch: seq<Checklist>)
    requires BatchCurrent(records, batch)
    ensures forall j :: 0 <= j < |batch| ==> batch[j].id in records
  {
    forall j | 0 <= j < |batch|
      ensures batch[j].id in records
    {
      BatchEntryStored(records, batch, j);
    }
  }

  /** The three writes of one loop pass, taken together, are `Generate`. */
  lemma GenerateStep(before: Tables, source: Checklist, today: Date, cal: Calendar, instance: Checklist, after: Tables)
    requires Generates(source, today, cal)
    requires instance == Creating(InstanceOf(source, NextDueTime(source, cal).value), instance.id)
    requires var withInstance := before.checklists[instance.id := instance];
      && source.id in withInstance
      && after.checklists == withInstance[source.id := Incremented(withInstance[source.id])]
    requires after.repeatDays ==
      if source.interval == Weekly
      then before.repeatDays + Keyed(source.id, DaysOf(before.repeatDays, source.parentId))
      else before.repeatDays
    ensures after == Generate(before, source, today, cal, instance.id)
  {
  }

  /** One generating pass over the stored records: who is added, who changes, who does not. */
  lemma GenerateFrame(t: Tables, source: Checklist, today: Date, cal: Calendar, newId: Id)
    requires Generates(source, today, cal)
    requires source.id in t.checklists && newId !in t.checklists
    ensures var after := Generate(t, source, today, cal, newId).checklists;
      && after.Keys == t.checklists.Keys + {newId}
      && after[source.id] == Incremented(t.checklists[source.id])
      && after[newId] == Creating(InstanceOf(source, NextDueTime(source, cal).value), newId)
      && (forall k :: k in t.checklists && k != source.id ==> after[k] == t.checklists[k])
  {
  }

  /** The stored records after one sweep, entry by entry. */
  lemma {:induction false} RunEffect(t: Tables, batch: seq<Checklist>, today: Date, cal: Calendar, ids: seq<Id>)
    requires |ids| == NumGenerated(batch, today, cal)
    requires BatchCurrent(t.checklists, batch) && FreshIds(t.checklists, ids)
    ensures var after := GenerateAll(t, batch, today, cal, ids).checklists;
      && after.Keys == t.checklists.Keys + (set x | x in ids)
      && (forall c :: c in batch ==> c.id in after && after[c.id] == Advance(c, today, cal))
      && (forall k :: k in t.checklists && k !in Ids(batch) ==> after[k] == t.checklists[k])
      && (forall k :: k in after && k !in t.checklists ==>
            exists c :: c in batch && Generates(c, today, cal) &&
              after[k] == Creating(InstanceOf(c, NextDueTime(c, cal).value), k))
  {
    RunKeys(t, batch, today, cal, ids);
    RunUntouched(t, batch, today, cal, ids);
    RunAdvances(t, batch, today, cal, ids);
    RunInstances(t, batch, today, cal, ids);
  }

  /** A non-empty sweep is the sweep over all but its last entry, followed by one pass for the last. */
  lemma RunLast(t: Tables, batch: seq<Checklist>, today: Date, cal: Calendar, ids: seq<Id>)
    returns (init: seq<Checklist>, last: Checklist, initIds: seq<Id>)
    requires batch != [] && |ids| == NumGenerated(batch, today, cal)
    requires BatchCurrent(t.checklists, batch) && FreshIds(t.checklists, ids)
    ensures init == batch[..|batch| - 1] && last == batch[|batch| - 1] && batch == init + [last]
    ensures |initIds| == NumGenerated(init, today, cal)
    ensures BatchCurrent(t.checklists, init) && FreshIds(t.checklists, initIds)
    ensures last.id in t.checklists && t.checklists[last.id] == last && last.id !in Ids(init)
    ensures Ids(batch) == Ids(init) + {last.id}
    ensures !Generates(last, today, cal) ==>
      && ids == initIds
      && GenerateAll(t, batch, today, cal, ids) == GenerateAll(t, init, today, cal, initIds)
    ensures Generates(last, today, cal) ==>
      && ids == initIds + [ids[|ids| - 1]]
      && ids[|ids| - 1] !in initIds && ids[|ids| - 1] !in t.checklists
      && GenerateAll(t, batch, today, cal, ids) ==
         Generate(GenerateAll(t, init, today, cal, initIds), last, today, cal, ids[|ids| - 1])
  {
    var n := |batch| - 1;
    init, last := batch[..n], batch[n];
    assert batch == init + [last];
    initIds := if Generates(last, today, cal) then ids[..|ids| - 1] else ids;
    if Generates(last, today, cal) {
      assert ids == initIds + [ids[|ids| - 1]];
    }
  }

  /** A sweep adds exactly the drawn ids to the stored ones. */
  lemma {:induction false} RunKeys(t: Tables, batch: seq<Checklist>, today: Date, cal: Calendar, ids: seq<Id>)
    requires |ids| == NumGenerated(batch, today, cal)
    requires BatchCurrent(t.checklists, batch) && FreshIds(t.checklists, ids)
    ensures GenerateAll(t, batch, today, cal, ids).checklists.Keys == t.checklists.Keys + (set x | x in ids)
  {
    if batch != [] {
      var init, last, initIds := RunLast(t, batch, today, cal, ids);
      RunKeys(t, init, today, cal, initIds);
      if Generates(last, today, cal) {
        GenerateFrame(GenerateAll(t, init, today, cal, initIds), last, today, cal, ids[|ids| - 1]);
      }
    }
  }

  /** A stored record outside the batch is left as it was. */
  lemma {:induction false} RunUntouched(t: Tables, batch: seq<Checklist>, today: Date, cal: Calendar, ids: seq<Id>)
    requires |ids| == NumGenerated(batch, today, cal)
    requires BatchCurrent(t.checklists, batch) && FreshIds(t.checklists, ids)
    ensures var after := GenerateAll(t, batch, today, cal, ids).checklists;
      forall k :: k in t.checklists && k !in Ids(batch) ==> k in after && after[k] == t.checklists[k]
  {
    if batch != [] {
      var init, last, initIds := RunLast(t, batch, today, cal, ids);
      RunKeys(t, init, today, cal, initIds);
      RunUntouched(t, init, today, cal, initIds);
      if Generates(last, today, cal) {
        GenerateFrame(GenerateAll(t, init, today, cal, initIds), last, today, cal, ids[|ids| - 1]);
      }
    }
  }

  /** Each batch entry ends up advanced by its own pass, and by no other. */
  lemma {:induction false} RunAdvances(t: Tables, batch: seq<Checklist>, today: Date, cal: Calendar, ids: seq<Id>)
    requires |ids| == NumGenerated(batch, today, cal)
    requires BatchCurrent(t.checklists, batch) && FreshIds(t.checklists, ids)
    ensures var after := GenerateAll(t, batch, today, cal, ids).checklists;
      forall c :: c in batch ==> c.id in after && after[c.id] == Advance(c, today, cal)
  {
    if batch != [] {
      var init, last, initIds := RunLast(t, batch, today, cal, ids);
      RunKeys(t, init, today, cal, initIds);
      RunUntouched(t, init, today, cal, initIds);
      RunAdvances(t, init, today, cal, initIds);
      var mid := GenerateAll(t, init, today, cal, initIds);
      assert mid.checklists[last.id] == last;
      if Generates(last, today, cal) {
        GenerateFrame(mid, last, today, cal, ids[|ids| - 1]);
      }
    }
  }

  /** Every id the sweep adds holds the instance generated from some batch entry. */
  lemma {:induction false} RunInstances(t: Tables, batch: seq<Checklist>, today: Date, cal: Calendar, ids: seq<Id>)
    requires |ids| == NumGenerated(batch, today, cal)
    requires BatchCurrent(t.checklists, batch) && FreshIds(t.checklists, ids)
    ensures var after := GenerateAll(t, batch, today, cal, ids).checklists;
      forall k :: k in after && k !in t.checklists ==>
        exists c :: c in batch && Generates(c, today, cal) &&
          after[k] == Creating(InstanceOf(c, NextDueTime(c, cal).value), k)
  {
    if batch != [] {
      var init, last, initIds := RunLast(t, batch, today, cal, ids);
      RunKeys(t, init, today, cal, initIds);
      RunInstances(t, init, today, cal, initIds);
      if Generates(last, today, cal) {
        GenerateFrame(GenerateAll(t, init, today, cal, initIds), last, today, cal, ids[|ids| - 1]);
      }
    }
  }

  /**
   * Every record a sweep adds is an incomplete child of a batch entry that
   * generated, so the query the sweep started from could not have selected it.
   */
  lemma {:induction false} RunAddsIncompleteChildren(t: Tables, batch: seq<Checklist>, today: Date, cal: Calendar, ids: seq<Id>)
    requires |ids| == NumGenerated(batch, today, cal)
    requires BatchCurrent(t.checklists, batch) && FreshIds(t.checklists, ids)
    ensures var after := GenerateAll(t, batch, today, cal, ids).checklists;
      forall k :: k in after && k !in t.checklists ==>
        && !after[k].isCompleted && !IsCandidate(after[k])
        && after[k].parentId in Ids(batch)
  {
    RunInstances(t, batch, today, cal, ids);
  }

  /** An after-count record with a maximum has generated at most that many instances. */
  predicate WithinLimit(c: Checklist)
  {
    c.repeatType == AfterCount && c.repeatMaxCount.Some? ==> c.repeatCurrentCount <= c.repeatMaxCount.value
  }

  ghost predicate CountsWithinLimit(records: map<Id, Checklist>)
  {
    forall k :: k in records ==> WithinLimit(records[k])
  }

  /** One pass keeps its source within its limit, and the instance it creates starts within it. */
  lemma AdvanceWithinLimit(c: Checklist, today: Date, cal: Calendar, k: Id)
    requires WithinLimit(c)
    ensures WithinLimit(Advance(c, today, cal))
    ensures Generates(c, today, cal) ==> WithinLimit(Creating(InstanceOf(c, NextDueTime(c, cal).value), k))
  {
  }

  /** A sweep never takes an after-count record past its maximum. */
  lemma RunKeepsCountsWithinLimit(t: Tables, batch: seq<Checklist>, today: Date, cal: Calendar, ids: seq<Id>)
    requires |ids| == NumGenerated(batch, today, cal)
    requires BatchCurrent(t.checklists, batch) && FreshIds(t.checklists, ids)
    requires CountsWithinLimit(t.checklists)
    ensures CountsWithinLimit(GenerateAll(t, batch, today, cal, ids).checklists)
  {
    RunKeys(t, batch, today, cal, ids);
    RunUntouched(t, batch, today, cal, ids);
    RunAdvances(t, batch, today, cal, ids);
    RunInstances(t, batch, today, cal, ids);
    var after := GenerateAll(t, batch, today, cal, ids).checklists;
    forall k | k in after
      ensures WithinLimit(after[k])
    {
      if k !in t.checklists {
        var c :| c in batch && Generates(c, today, cal) &&
          after[k] == Creating(InstanceOf(c, NextDueTime(c, cal).value), k);
        BatchStoredEntry(t.checklists, batch, c);
        AdvanceWithinLimit(c, today, cal, k);
      } else if k in Ids(batch) {
        var c := BatchEntry(batch, k);
        BatchStoredEntry(t.checklists, batch, c);
        AdvanceWithinLimit(c, today, cal, k);
      }
    }
  }

  /** An entry of a current batch is the stored record under its id. */
  lemma BatchStoredEntry(records: map<Id, Checklist>, batch: seq<Checklist>, c: Checklist)
    requires BatchCurrent(records, batch) && c in batch
    ensures c.id in records && records[c.id] == c
  {
    var i :| 0 <= i < |batch| && batch[i] == c;
    BatchEntryStored(records, batch, i);
  }

  /** A current batch holds stored records only. */
  lemma {:induction false} BatchEntryStored(records: map<Id, Checklist>, batch: seq<Checklist>, i: nat)
    requires BatchCurrent(records, batch) && i < |batch|
    ensures batch[i].id in records && records[batch[i].id] == batch[i]
  {
    var n := |batch| - 1;
    if i < n {
      BatchEntryStored(records, batch[..n], i);
    }
  }

  /** The entry of `batch` with id `k`. */
  lemma {:induction false} BatchEntry(batch: seq<Checklist>, k: Id) returns (c: Checklist)
    requires k in Ids(batch)
    ensures c in batch && c.id == k
  {
    var n := |batch| - 1;
    if batch[n].id == k {
      c := batch[n];
    } else {
      c := BatchEntry(batch[..n], k);
    }
  }

  /** Each processed record's counter goes up by exactly one if it generated and stays otherwise; nothing else in it changes. */
  lemma RunCounters(t: Tables, batch: seq<Checklist>, today: Date, cal: Calendar, ids: seq<Id>)
    requires |ids| == NumGenerated(batch, today, cal)
    requires BatchCurrent(t.checklists, batch) && FreshIds(t.checklists, ids)
    ensures forall c :: c in batch ==>
      var after := GenerateAll(t, batch, today, cal, ids).checklists;
      && c.id in after
      && after[c.id].repeatCurrentCount == c.repeatCurrentCount + (if Generates(c, today, cal) then 1 else 0)
      && after[c.id].(repeatCurrentCount := c.repeatCurrentCount) == c
  {
    RunEffect(t, batch, today, cal, ids);
  }

  /** The instance created for one source, and the source's own record afterwards. */
  lemma GenerateEffect(t: Tables, source: Checklist, today: Date, cal: Calendar, newId: Id)
    requires Generates(source, today, cal)
    requires source.id in t.checklists && t.checklists[source.id] == source && newId !in t.checklists
    ensures var after := Generate(t, source, today, cal, newId).checklists;
      && after[source.id] == Incremented(source)
      && (IsCandidate(source) ==> IsCandidate(after[source.id]))
      && after[newId].id == newId
      && after[newId].parentId == source.id
      && after[newId].userId == source.userId
      && after[newId].title == source.title
      && after[newId].interval == source.interval
      && after[newId].repeatType == source.repeatType
      && after[newId].repeatEndDate == source.repeatEndDate
      && after[newId].repeatMaxCount == source.repeatMaxCount
      && after[newId].repeatCurrentCount == source.repeatCurrentCount + 1
      && !after[newId].isCompleted
      && after[newId].dueTime == NextDueTime(source, cal).value
  {
    GenerateFrame(t, source, today, cal, newId);
  }

  /**
   * A weekly source gets the rows of its parent id copied under its own id, and
   * no other id's rows change. For a root the two ids coincide, so every one of
   * its days is filed twice as often as before while the set of days stays the same.
   */
  lemma WeeklyDaysCopied(t: Tables, source: Checklist, today: Date, cal: Calendar, newId: Id)
    requires Generates(source, today, cal) && source.interval == Weekly
    ensures var rows := Generate(t, source, today, cal, newId).repeatDays;
      && DaysOf(rows, source.id) == DaysOf(t.repeatDays, source.id) + DaysOf(t.repeatDays, source.parentId)
      && (forall k :: k != source.id ==> DaysOf(rows, k) == DaysOf(t.repeatDays, k))
      && (IsRoot(source) ==> forall d ::
            multiset(DaysOf(rows, source.id))[d] == 2 * multiset(DaysOf(t.repeatDays, source.id))[d])
      && (IsRoot(source) ==> forall d :: d in DaysOf(rows, source.id) <==> d in DaysOf(t.repeatDays, source.id))
  {
    var copied := DaysOf(t.repeatDays, source.parentId);
    var rows := Generate(t, source, today, cal, newId).repeatDays;
    assert rows == t.repeatDays + Keyed(source.id, copied);
    forall k
      ensures DaysOf(rows, k) == DaysOf(t.repeatDays, k) + (if k == source.id then copied else [])
    {
      DaysOfAppend(t.repeatDays, Keyed(source.id, copied), k);
      DaysOfKeyed(source.id, copied, k);
    }
  }

  /** A whole sweep leaves the weekdays filed under any id outside the batch as they were. */
  lemma {:induction false} RunKeepsOtherDays(t: Tables, batch: seq<Checklist>, today: Date, cal: Calendar, ids: seq<Id>, k: Id)
    requires |ids| == NumGenerated(batch, today, cal)
    requires k !in Ids(batch)
    ensures DaysOf(GenerateAll(t, batch, today, cal, ids).repeatDays, k) == DaysOf(t.repeatDays, k)
    decreases |batch|
  {
    if batch != [] {
      var n := |batch| - 1;
      var last := batch[n];
      assert k !in Ids(batch[..n]) && k != last.id;
      if Generates(last, today, cal) {
        RunKeepsOtherDays(t, batch[..n], today, cal, ids[..|ids| - 1], k);
        var mid := GenerateAll(t, batch[..n], today, cal, ids[..|ids| - 1]);
        if last.interval == Weekly {
          WeeklyDaysCopied(mid, last, today, cal, ids[|ids| - 1]);
        }
      } else {
        RunKeepsOtherDays(t, batch[..n], today, cal, ids, k);
      }
    }
  }

  /** The source after one sweep on each of `days`, the same source taken by every sweep. */
  function AdvanceRuns(c: Checklist, days: seq<Date>, cal: Calendar): Checklist
    decreases |days|
  {
    if days == [] then c else AdvanceRuns(Advance(c, days[0], cal), days[1..], cal)
  }

  /**
   * Successive sweeps take an after-count record with a maximum and a listed
   * interval up to its maximum, one generation per sweep, and no further; it
   * stays completed, so every sweep selects it again.
   */
  lemma {:induction false} AfterCountRunsToMax(c: Checklist, days: seq<Date>, cal: Calendar)
    requires c.repeatType == AfterCount && c.repeatMaxCount.Some? && !c.interval.Unlisted?
    requires c.repeatCurrentCount <= c.repeatMaxCount.value
    ensures var r := AdvanceRuns(c, days, cal);
      && r.repeatCurrentCount == Min(c.repeatCurrentCount + |days|, c.repeatMaxCount.value)
      && r.(repeatCurrentCount := c.repeatCurrentCount) == c
    decreases |days|
  {
    if days != [] {
      AfterCountRunsToMax(Advance(c, days[0], cal), days[1..], cal);
    }
  }

  /**
   * Two successive runs of the command: a record the first run's query selects
   * is selected again by the second run's query, taken over the store the first
   * run left, and ends as two passes of `Advance`, one per run.
   */
  lemma SweepsCompose(t: Tables, batch1: seq<Checklist>, ids1: seq<Id>, day1: Date,
                      batch2: seq<Checklist>, ids2: seq<Id>, day2: Date, cal: Calendar, c: Checklist)
    requires IsQueryResult(t.checklists, batch1) && c in batch1
    requires |ids1| == NumGenerated(batch1, day1, cal) && FreshIds(t.checklists, ids1)
    requires var mid := GenerateAll(t, batch1, day1, cal, ids1);
      && IsQueryResult(mid.checklists, batch2)
      && |ids2| == NumGenerated(batch2, day2, cal) && FreshIds(mid.checklists, ids2)
    ensures var mid := GenerateAll(t, batch1, day1, cal, ids1);
      && Advance(c, day1, cal) in batch2
      && c.id in GenerateAll(mid, batch2, day2, cal, ids2).checklists
      && GenerateAll(mid, batch2, day2, cal, ids2).checklists[c.id] == AdvanceRuns(c, [day1, day2], cal)
  {
    var mid := GenerateAll(t, batch1, day1, cal, ids1);
    RunAdvances(t, batch1, day1, cal, ids1);
    var once := Advance(c, day1, cal);
    assert mid.checklists[c.id] == once && IsCandidate(once);
    var entry := BatchEntry(batch2, c.id);
    BatchStoredEntry(mid.checklists, batch2, entry);
    RunAdvances(mid, batch2, day2, cal, ids2);
    assert [day1, day2][1..] == [day2] && [day2][1..] == [];
    assert AdvanceRuns(once, [day2], cal) == AdvanceRuns(Advance(once, day2, cal), [], cal);
    assert AdvanceRuns(c, [day1, day2], cal) == AdvanceRuns(once, [day2], cal);
  }

  function Min(a: int, b: int): int
  {
    if a <= b then a else b
  }
}
