/**
 * The database the core works on: the checklists table, keyed by id, and the
 * repeat-days table in insertion order, with the record operations the core
 * performs through the ORM (create with the creating hook, increment, update,
 * insert and delete of weekday rows).
 */
module Store {
  import opened Checklists

  /** The contents of both tables at one moment. */
  datatype Tables = Tables(checklists: map<Id, Checklist>, repeatDays: seq<RepeatDay>)

  /**
   * Every record is filed under its own id and names a stored parent, and every
   * weekday row is filed under a stored checklist (its foreign key).
   */
  ghost predicate WellFormed(t: Tables)
  {
    && (forall k {:trigger t.checklists[k]} :: k in t.checklists ==> t.checklists[k].id == k)
    && (forall c :: c in t.checklists.Values ==> c.parentId in t.checklists)
    && (forall i :: 0 <= i < |t.repeatDays| ==> t.repeatDays[i].key in t.checklists)
  }

  /** Whatever ids are in use, a larger one is not. */
  lemma {:induction false} IdBound(ids: set<Id>) returns (bound: Id)
    ensures forall k :: k in ids ==> k < bound
  {
    if ids == {} {
      bound := 0;
    } else {
      var x :| x in ids;
      var rest := IdBound(ids - {x});
      bound := if rest > x then rest else x + 1;
      forall k | k in ids
        ensures k < bound
      {
        if k != x {
          assert k in ids - {x};
        }
      }
    }
  }

  /** Writing a record whose parent is stored, or is itself, keeps every parent stored. */
  lemma ParentsStoredAfterWrite(records: map<Id, Checklist>, c: Checklist)
    requires forall r :: r in records.Values ==> r.parentId in records
    requires c.parentId in records || c.parentId == c.id
    ensures forall r :: r in records[c.id := c].Values ==> r.parentId in records[c.id := c]
  {
    var after := records[c.id := c];
    forall r | r in after.Values
      ensures r.parentId in after
    {
      var k :| k in after && after[k] == r;
      if k != c.id {
        assert records[k] in records.Values;
      }
    }
  }

  class Database {
    var checklists: map<Id, Checklist>
    var repeatDays: seq<RepeatDay>

    function Contents(): Tables
      reads this
    {
      Tables(checklists, repeatDays)
    }

    ghost predicate Valid()
      reads this
    {
      WellFormed(Contents())
    }

    constructor ()
      ensures Valid() && Contents() == Tables(map[], [])
    {
      checklists := map[];
      repeatDays := [];
    }

    /**
     * `Checklist::create`: runs the creating hook, drawing a new UUID (an id no
     * stored record has) when none is given, and stores the record.
     */
    method Insert(n: NewChecklist) returns (c: Checklist)
      requires Valid()
      requires n.id.None? || n.id.value !in checklists
      requires n.parentId.None? || n.parentId.value in checklists
      modifies this
      ensures Valid()
      ensures c == Creating(n, c.id)
      ensures c.id !in old(checklists)
      ensures checklists == old(checklists)[c.id := c]
      ensures repeatDays == old(repeatDays)
    {
      var newId: Id;
      if n.id.None? {
        ghost var bound := IdBound(checklists.Keys);
        assert bound !in checklists;
        newId :| newId !in checklists;
      } else {
        newId := n.id.value;
      }
      c := Creating(n, newId);
      ParentsStoredAfterWrite(checklists, c);
      checklists := checklists[c.id := c];
    }

    /** `increment('repeat_current_count')`: adds one to the stored counter of `id`. */
    method Increment(id: Id)
      requires Valid()
      modifies this
      ensures Valid()
      ensures id in old(checklists) ==> checklists == old(checklists)[id := Incremented(old(checklists)[id])]
      ensures id !in old(checklists) ==> checklists == old(checklists)
      ensures repeatDays == old(repeatDays)
    {
      if id in checklists {
        var c := checklists[id];
        assert c in checklists.Values;
        ParentsStoredAfterWrite(checklists, Incremented(c));
        checklists := checklists[id := Incremented(c)];
      }
    }

    /** Writes back a changed record (`update`, and the soft delete's `deleted_at`). */
    method Save(c: Checklist)
      requires Valid()
      requires c.id in checklists && c.parentId == checklists[c.id].parentId
      modifies this
      ensures Valid()
      ensures checklists == old(checklists)[c.id := c]
      ensures repeatDays == old(repeatDays)
    {
      assert checklists[c.id] in checklists.Values;
      ParentsStoredAfterWrite(checklists, c);
      checklists := checklists[c.id := c];
    }

    /** `ChecklistRepeatDay::create`: appends one weekday row filed under a stored checklist. */
    method AddRepeatDay(key: Id, day: Weekday)
      requires Valid() && key in checklists
      modifies this
      ensures Valid()
      ensures checklists == old(checklists)
      ensures repeatDays == old(repeatDays) + [RepeatDay(key, day)]
    {
      repeatDays := repeatDays + [RepeatDay(key, day)];
    }

    /** A `foreach` of `ChecklistRepeatDay::create`: one row per element of `days`, in order, all filed under `key`. */
    method AddRepeatDays(key: Id, days: seq<Weekday>)
      requires Valid() && key in checklists
      modifies this
      ensures Valid()
      ensures checklists == old(checklists)
      ensures repeatDays == old(repeatDays) + Keyed(key, days)
    {
      var j := 0;
      while j < |days|
        invariant 0 <= j <= |days|
        invariant Valid()
        invariant checklists == old(checklists)
        invariant repeatDays == old(repeatDays) + Keyed(key, days[..j])
      {
        AddRepeatDay(key, days[j]);
        assert Keyed(key, days[..j + 1]) == Keyed(key, days[..j]) + [RepeatDay(key, days[j])];
        j := j + 1;
      }
      assert days[..j] == days;
    }

    /** `repeatDays()->delete()`: removes every weekday row filed under `key`. */
    method DeleteRepeatDays(key: Id)
      requires Valid()
      modifies this
      ensures Valid()
      ensures checklists == old(checklists)
      ensures repeatDays == WithoutKey(old(repeatDays), key)
    {
      repeatDays := WithoutKey(repeatDays, key);
    }
  }
}
