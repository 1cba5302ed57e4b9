/**
 * The checklist HTTP endpoints: listing, creating, showing, updating and
 * soft-deleting checklists, each behind the owner-or-admin guard, and the
 * weekday rows that `store` and `update` write.
 */
module ChecklistController {
  import opened Checklists
  import opened Store

  /** The authenticated user: their id and their role string. */
  datatype Actor = Actor(id: UserId, role: string)

  /** The guard's condition: admins see everything, anyone else only their own checklists. */
  predicate MayAccess(actor: Actor, c: Checklist)
  {
    actor.role == "admin" || c.userId == actor.id
  }

  /** 200, 403, 404 and 422. */
  datatype Status = Ok | Forbidden | NotFound | Unprocessable

  /** A checklist as rendered with its `repeatDays` relation loaded. */
  datatype Listed = Listed(checklist: Checklist, days: seq<Weekday>)

  /** What `show` sends back: a status and, on success, the checklist. */
  datatype Reply = Reply(status: Status, data: Option<Listed>)

  /**
   * One request field as the controller reads it, after the framework's
   * default middleware has trimmed strings and turned blank ones into null:
   * not sent, sent with a value its type rule refuses (`string`, `date`,
   * `array`, and null for the title, due time and interval), or sent with a
   * value of the right type. A null `repeat_days` passes `nullable` and is
   * read as not sent.
   */
  datatype Input<T> = Absent | Malformed | Given(value: T)

  /** The request body `store` and `update` read. */
  datatype Request = Request(
    title: Input<string>,
    dueTime: Input<DateTime>,
    repeatInterval: Input<string>,
    repeatDays: Input<seq<string>>)

  /** The checklist rendered with the weekday rows filed under its parent id. */
  function Render(rows: seq<RepeatDay>, c: Checklist): Listed
  {
    Listed(c, DaysOf(rows, c.parentId))
  }

  /**
   * `index`: every live checklist with its weekdays, narrowed to the actor's
   * own unless the actor is an admin. The list is keyed by id here; the query
   * fixes no order.
   */
  function Index(records: map<Id, Checklist>, rows: seq<RepeatDay>, actor: Actor): (r: map<Id, Listed>)
    ensures forall k :: k in r <==> Find(records, k).Some? && MayAccess(actor, records[k])
    ensures forall k :: k in r ==> k in records && r[k] == Render(rows, records[k])
  {
    if actor.role != "admin"
    then map k | k in records && records[k].deletedAt.None? && records[k].userId == actor.id :: Render(rows, records[k])
    else map k | k in records && records[k].deletedAt.None? :: Render(rows, records[k])
  }

  /** `findOrFail` followed by the owner-or-admin check that `show`, `update` and `destroy` share. */
  function Guard(records: map<Id, Checklist>, actor: Actor, id: Id): (r: Status)
    ensures r == NotFound <==> Find(records, id).None?
    ensures r == Forbidden <==> Find(records, id).Some? && !MayAccess(actor, records[id])
    ensures r == Ok <==> Find(records, id).Some? && MayAccess(actor, records[id])
    ensures r != Unprocessable
  {
    match Find(records, id)
    case None => NotFound
    case Some(c) => if actor.role != "admin" && c.userId != actor.id then Forbidden else Ok
  }

  /** `show`: the checklist with its weekdays, or the guard's refusal. */
  function Show(records: map<Id, Checklist>, rows: seq<RepeatDay>, actor: Actor, id: Id): (r: Reply)
    ensures r.status == Guard(records, actor, id)
    ensures r.data.Some? <==> r.status == Ok
  {
    var status := Guard(records, actor, id);
    if status == Ok then Reply(Ok, Some(Render(rows, records[id]))) else Reply(status, None)
  }

  /** `index` lists exactly what `show` would let the same actor see, rendered the same way. */
  lemma IndexAgreesWithShow(records: map<Id, Checklist>, rows: seq<RepeatDay>, actor: Actor, id: Id)
    ensures id in Index(records, rows, actor) <==> Show(records, rows, actor, id).status == Ok
    ensures id in Index(records, rows, actor) ==>
      Show(records, rows, actor, id).data == Some(Index(records, rows, actor)[id])
  {
  }

  /** An admin's list holds every live checklist; anyone else's holds exactly their own live ones. */
  lemma IndexByRole(records: map<Id, Checklist>, rows: seq<RepeatDay>, actor: Actor)
    ensures actor.role == "admin" ==>
      Index(records, rows, actor).Keys == set k | k in records && records[k].deletedAt.None?
    ensures actor.role != "admin" ==>
      Index(records, rows, actor).Keys == set k | k in records && records[k].deletedAt.None? && records[k].userId == actor.id
  {
  }

  /** The characters PHP's `trim` strips. */
  predicate TrimmedChar(ch: char)
  {
    ch == ' ' || ch == '\t' || ch == '\n' || ch == '\r' || ch == '\0' || ch == '\U{B}'
  }

  /** The `required` rule refuses a string that is empty once trimmed. */
  predicate Blank(s: string)
  {
    forall i :: 0 <= i < |s| ==> TrimmedChar(s[i])
  }

  /** The `nullable|array` and `repeat_days.*` rules: absent, or a list of weekday names. */
  predicate DaysAccepted(days: Input<seq<string>>)
  {
    days.Absent? || (days.Given? && ParseDays(days.value).Some?)
  }

  /** `store`'s rules: title, due time and a listed interval are required, and the days must pass. */
  predicate StoreAccepted(req: Request)
  {
    && req.title.Given? && !Blank(req.title.value)
    && req.dueTime.Given?
    && req.repeatInterval.Given? && ParseInterval(req.repeatInterval.value).Some?
    && DaysAccepted(req.repeatDays)
  }

  /**
   * `update`'s rules: every field is optional, but one that is sent must pass
   * its rule. A blank title arrives as null, which `string` refuses.
   */
  predicate UpdateAccepted(req: Request)
  {
    && !req.title.Malformed? && !(req.title.Given? && Blank(req.title.value))
    && !req.dueTime.Malformed?
    && (req.repeatInterval.Absent? || (req.repeatInterval.Given? && ParseInterval(req.repeatInterval.value).Some?))
    && DaysAccepted(req.repeatDays)
  }

  /** The attributes `store` hands to `Checklist::create`; the other columns take their defaults. */
  function StoredAttributes(actor: Actor, req: Request): NewChecklist
    requires StoreAccepted(req)
  {
    NewChecklist(None, None, actor.id, req.title.value, req.dueTime.value,
                 ParseInterval(req.repeatInterval.value).value, DefaultRepeatType, None, None,
                 DefaultCurrentCount, false)
  }

  /** The weekdays `store` and `update` file: the requested days when the interval sent is weekly, else none. */
  function RequestedDays(req: Request): seq<Weekday>
    requires DaysAccepted(req.repeatDays)
  {
    if req.repeatInterval == Given("weekly") && req.repeatDays.Given?
    then ParseDays(req.repeatDays.value).value
    else []
  }

  /** `$checklist->update($request->only('title', 'due_time', 'repeat_interval'))`. */
  function Patch(c: Checklist, req: Request): Checklist
    requires UpdateAccepted(req)
  {
    c.(title := if req.title.Given? then req.title.value else c.title,
       dueTime := if req.dueTime.Given? then req.dueTime.value else c.dueTime,
       interval := if req.repeatInterval.Given? then ParseInterval(req.repeatInterval.value).value else c.interval)
  }

  /**
   * `update`'s weekday rewrite: for a weekly request, the rows under the
   * record's parent id go and the requested days are filed under its id.
   */
  function RewriteDays(rows: seq<RepeatDay>, c: Checklist, req: Request): seq<RepeatDay>
    requires DaysAccepted(req.repeatDays)
  {
    if req.repeatInterval == Given("weekly")
    then WithoutKey(rows, c.parentId) + Keyed(c.id, RequestedDays(req))
    else rows
  }

  /** `destroy`'s soft delete: the record stays, stamped with the deletion time. */
  function SoftDelete(records: map<Id, Checklist>, id: Id, now: DateTime): map<Id, Checklist>
    requires id in records
  {
    records[id := records[id].(deletedAt := Some(now))]
  }

  /**
   * `store`: refuses a request that fails validation and changes nothing;
   * otherwise creates one root checklist owned by the actor and, for a weekly
   * request with days, one weekday row per requested day.
   */
  method StoreChecklist(db: Database, actor: Actor, req: Request) returns (status: Status, created: Option<Checklist>)
    requires db.Valid()
    modifies db
    ensures db.Valid()
    ensures status == Ok <==> StoreAccepted(req)
    ensures status != Ok ==> status == Unprocessable && created.None? && db.Contents() == old(db.Contents())
    ensures status == Ok ==>
      && created.Some?
      && created.value.id !in old(db.checklists)
      && created.value == Creating(StoredAttributes(actor, req), created.value.id)
      && db.checklists == old(db.checklists)[created.value.id := created.value]
      && db.repeatDays == old(db.repeatDays) + Keyed(created.value.id, RequestedDays(req))
  {
    if !StoreAccepted(req) {
      return Unprocessable, None;
    }
    var c := db.Insert(StoredAttributes(actor, req));
    if req.repeatInterval.value == "weekly" && req.repeatDays.Given? {
      db.AddRepeatDays(c.id, ParseDays(req.repeatDays.value).value);
    } else {
      assert Keyed(c.id, RequestedDays(req)) == [];
      assert db.repeatDays + [] == db.repeatDays;
    }
    return Ok, Some(c);
  }

  /**
   * `update`: 404 for a missing or deleted record, 403 for someone else's, 422
   * for a request that fails validation, all without change; otherwise the
   * three fields sent are written and a weekly request rewrites the weekday rows.
   */
  method UpdateChecklist(db: Database, actor: Actor, id: Id, req: Request) returns (status: Status)
    requires db.Valid()
    modifies db
    ensures db.Valid()
    ensures Guard(old(db.checklists), actor, id) != Ok ==> status == Guard(old(db.checklists), actor, id)
    ensures Guard(old(db.checklists), actor, id) == Ok ==>
      status == (if UpdateAccepted(req) then Ok else Unprocessable)
    ensures status != Ok ==> db.Contents() == old(db.Contents())
    ensures status == Ok ==>
      && db.checklists == old(db.checklists)[id := Patch(old(db.checklists)[id], req)]
      && db.repeatDays == RewriteDays(old(db.repeatDays), old(db.checklists)[id], req)
  {
    status := Guard(db.checklists, actor, id);
    if status != Ok {
      return;
    }
    if !UpdateAccepted(req) {
      return Unprocessable;
    }
    var c := db.checklists[id];
    db.Save(Patch(c, req));
    if req.repeatInterval == Given("weekly") {
      db.DeleteRepeatDays(c.parentId);
      db.AddRepeatDays(c.id, RequestedDays(req));
    }
  }

  /**
   * `destroy`: the guard's refusal without change, or the record soft-deleted
   * at `now`; its weekday rows stay.
   */
  method DestroyChecklist(db: Database, actor: Actor, id: Id, now: DateTime) returns (status: Status)
    requires db.Valid()
    modifies db
    ensures db.Valid()
    ensures status == Guard(old(db.checklists), actor, id)
    ensures status != Ok ==> db.Contents() == old(db.Contents())
    ensures status == Ok ==>
      && db.checklists == SoftDelete(old(db.checklists), id, now)
      && db.repeatDays == old(db.repeatDays)
  {
    status := Guard(db.checklists, actor, id);
    if status != Ok {
      return;
    }
    var c := db.checklists[id];
    db.Save(c.(deletedAt := Some(now)));
  }

  /**
   * A stored checklist belongs to the actor, carries what was sent, is an
   * incomplete root that never repeats, and so never reaches the sweep.
   */
  lemma StoredChecklist(actor: Actor, req: Request, newId: Id)
    requires StoreAccepted(req)
    ensures var c := Creating(StoredAttributes(actor, req), newId);
      && c.id == newId && IsRoot(c)
      && c.userId == actor.id
      && c.title == req.title.value
      && c.dueTime == req.dueTime.value
      && IntervalName(c.interval) == req.repeatInterval.value
      && !c.isCompleted && c.deletedAt.None?
      && c.repeatType == Never && c.repeatCurrentCount == 0
      && c.repeatEndDate.None? && c.repeatMaxCount.None?
      && forall today :: HasReachedRepeatLimit(c, today)
  {
  }

  /** A blank title is refused alike by `store`'s `required` and by `update`'s `string`. */
  lemma BlankTitleRefused(req: Request)
    requires req.title.Given? && Blank(req.title.value)
    ensures !StoreAccepted(req) && !UpdateAccepted(req)
  {
  }

  /**
   * The days a request files: the sent names, one for one and duplicates
   * included, for a weekly request with days; none for any other.
   */
  lemma RequestedDaysMatch(req: Request)
    requires DaysAccepted(req.repeatDays)
    ensures req.repeatInterval == Given("weekly") && req.repeatDays.Given? ==>
      && |RequestedDays(req)| == |req.repeatDays.value|
      && forall i :: 0 <= i < |req.repeatDays.value| ==> WeekdayName(RequestedDays(req)[i]) == req.repeatDays.value[i]
    ensures !(req.repeatInterval == Given("weekly") && req.repeatDays.Given?) ==> RequestedDays(req) == []
  {
  }

  /**
   * Filing `days` under an id no row uses yet makes them exactly that id's
   * weekdays and leaves every other id's as they were: what `store` does to a
   * new checklist.
   */
  lemma StoreDaysExact(rows: seq<RepeatDay>, key: Id, days: seq<Weekday>, other: Id)
    requires forall i :: 0 <= i < |rows| ==> rows[i].key != key
    ensures DaysOf(rows + Keyed(key, days), key) == days
    ensures other != key ==> DaysOf(rows + Keyed(key, days), other) == DaysOf(rows, other)
  {
    DaysOfAppend(rows, Keyed(key, days), key);
    DaysOfKeyed(key, days, key);
    DaysOfAbsentKey(rows, key);
    DaysOfAppend(rows, Keyed(key, days), other);
    DaysOfKeyed(key, days, other);
  }

  /**
   * What `store` creates is what `show` then gives its owner: the new root
   * checklist with exactly the weekdays the request filed.
   */
  lemma StoredIsShown(records: map<Id, Checklist>, rows: seq<RepeatDay>, actor: Actor, req: Request, newId: Id)
    requires StoreAccepted(req) && newId !in records
    requires forall i :: 0 <= i < |rows| ==> rows[i].key in records
    ensures var c := Creating(StoredAttributes(actor, req), newId);
      Show(records[newId := c], rows + Keyed(newId, RequestedDays(req)), actor, newId)
        == Reply(Ok, Some(Listed(c, RequestedDays(req))))
  {
    StoreDaysExact(rows, newId, RequestedDays(req), newId);
  }

  /**
   * A weekly update empties the rows filed under the record's parent id and
   * files the requested days (none when no days were sent) under its id; every
   * other id's weekdays stay. For a root the two ids coincide, so its weekdays
   * become exactly the requested ones. Any other update leaves the rows alone.
   */
  lemma UpdateDaysExact(rows: seq<RepeatDay>, c: Checklist, req: Request, other: Id)
    requires DaysAccepted(req.repeatDays)
    ensures req.repeatInterval == Given("weekly") ==>
      DaysOf(RewriteDays(rows, c, req), c.id) ==
        (if IsRoot(c) then [] else DaysOf(rows, c.id)) + RequestedDays(req)
    ensures req.repeatInterval == Given("weekly") && !IsRoot(c) ==>
      DaysOf(RewriteDays(rows, c, req), c.parentId) == []
    ensures other != c.id && other != c.parentId ==>
      DaysOf(RewriteDays(rows, c, req), other) == DaysOf(rows, other)
    ensures req.repeatInterval != Given("weekly") ==> RewriteDays(rows, c, req) == rows
  {
    if req.repeatInterval == Given("weekly") {
      var kept := WithoutKey(rows, c.parentId);
      var added := Keyed(c.id, RequestedDays(req));
      DaysOfWithoutKey(rows, c.parentId, c.id);
      DaysOfWithoutKey(rows, c.parentId, c.parentId);
      DaysOfWithoutKey(rows, c.parentId, other);
      DaysOfAppend(kept, added, c.id);
      DaysOfAppend(kept, added, c.parentId);
      DaysOfAppend(kept, added, other);
      DaysOfKeyed(c.id, RequestedDays(req), c.id);
      DaysOfKeyed(c.id, RequestedDays(req), c.parentId);
      DaysOfKeyed(c.id, RequestedDays(req), other);
    }
  }

  /**
   * After a successful update of a root checklist, `show` gives the patched
   * record with the requested weekdays for a weekly request, and with its old
   * weekdays otherwise.
   */
  lemma UpdatedIsShown(records: map<Id, Checklist>, rows: seq<RepeatDay>, actor: Actor, id: Id, req: Request)
    requires Guard(records, actor, id) == Ok && UpdateAccepted(req)
    requires records[id].id == id && IsRoot(records[id])
    ensures var c := records[id];
      Show(records[id := Patch(c, req)], RewriteDays(rows, c, req), actor, id)
        == Reply(Ok, Some(Listed(Patch(c, req),
             if req.repeatInterval == Given("weekly") then RequestedDays(req) else DaysOf(rows, id))))
  {
    var c := records[id];
    var after := records[id := Patch(c, req)];
    assert Find(after, id) == Some(Patch(c, req));
    assert Guard(after, actor, id) == Ok;
    UpdateDaysExact(rows, c, req, id);
    assert [] + RequestedDays(req) == RequestedDays(req);
  }

  /**
   * `update` writes the title, due time and interval that were sent and
   * nothing else: owner, ids, completion, repeat policy and counters stay.
   */
  lemma PatchChangesOnlySentFields(c: Checklist, req: Request)
    requires UpdateAccepted(req)
    ensures var p := Patch(c, req);
      && p.(title := c.title, dueTime := c.dueTime, interval := c.interval) == c
      && (req.title.Given? ==> p.title == req.title.value)
      && (!req.title.Given? ==> p.title == c.title)
      && (req.dueTime.Given? ==> p.dueTime == req.dueTime.value)
      && (!req.dueTime.Given? ==> p.dueTime == c.dueTime)
      && (req.repeatInterval.Given? ==> IntervalName(p.interval) == req.repeatInterval.value)
      && (!req.repeatInterval.Given? ==> p.interval == c.interval)
  {
  }

  /**
   * After a soft delete the record is still stored but `findOrFail`, `show`
   * and `index` no longer see it; every other record is seen as before.
   */
  lemma SoftDeleteHides(records: map<Id, Checklist>, rows: seq<RepeatDay>, actor: Actor, id: Id, now: DateTime)
    requires id in records
    ensures var after := SoftDelete(records, id, now);
      && id in after && after[id].deletedAt == Some(now)
      && Find(after, id).None?
      && Show(after, rows, actor, id).status == NotFound
      && id !in Index(after, rows, actor)
      && (forall k :: k != id ==> Find(after, k) == Find(records, k))
  {
  }
}
