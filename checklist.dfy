/**
 * The checklist record, the weekday rows attached to it, and the rules the
 * Checklist model adds to them: the creating hook that makes a new record its
 * own family root, the repeat-limit predicate and the lookup of a record's
 * original.
 */
module Checklists {

  datatype Option<T> = None | Some(value: T)

  /** Checklist identifiers (UUID strings in the database). */
  type Id = nat
  /** User identifiers. */
  type UserId = nat
  /** A calendar date as a day number: `repeat_end_date`, and today's date. */
  type Date = int

  /** A point in time: the calendar day and the time of day, which date arithmetic carries along. */
  datatype DateTime = DateTime(day: Date, time: int)

  /** `repeat_interval`. `Unlisted` is a stored value outside the five the column lists. */
  datatype Interval = Daily | ThreeDays | Weekly | Monthly | Yearly | Unlisted

  /** `repeat_type`. `UnlistedType` is a stored value outside the three the column lists. */
  datatype RepeatType = Never | UntilDate | AfterCount | UnlistedType

  datatype Weekday = Monday | Tuesday | Wednesday | Thursday | Friday | Saturday | Sunday

  /** One row of the checklists table. */
  datatype Checklist = Checklist(
    id: Id,
    userId: UserId,
    parentId: Id,
    title: string,
    dueTime: DateTime,
    interval: Interval,
    repeatType: RepeatType,
    repeatEndDate: Option<Date>,
    repeatMaxCount: Option<int>,
    repeatCurrentCount: int,
    isCompleted: bool,
    deletedAt: Option<DateTime>)

  /** The attributes handed to `Checklist::create`, before the creating hook has run. */
  datatype NewChecklist = NewChecklist(
    id: Option<Id>,
    parentId: Option<Id>,
    userId: UserId,
    title: string,
    dueTime: DateTime,
    interval: Interval,
    repeatType: RepeatType,
    repeatEndDate: Option<Date>,
    repeatMaxCount: Option<int>,
    repeatCurrentCount: int,
    isCompleted: bool)

  /** One row of the repeat-days table: a weekday filed under a checklist id. */
  datatype RepeatDay = RepeatDay(key: Id, day: Weekday)

  // Column defaults of the checklists table.
  const DefaultRepeatType: RepeatType := Never
  const DefaultCurrentCount: int := 0

  function IntervalName(i: Interval): string
  {
    match i
    case Daily => "daily"
    case ThreeDays => "3_days"
    case Weekly => "weekly"
    case Monthly => "monthly"
    case Yearly => "yearly"
    case Unlisted => ""
  }

  /** The `in:daily,3_days,weekly,monthly,yearly` validation rule, read as a parser. */
  function ParseInterval(s: string): (r: Option<Interval>)
    ensures r.Some? ==> !r.value.Unlisted? && IntervalName(r.value) == s
  {
    if s == "daily" then Some(Daily)
    else if s == "3_days" then Some(ThreeDays)
    else if s == "weekly" then Some(Weekly)
    else if s == "monthly" then Some(Monthly)
    else if s == "yearly" then Some(Yearly)
    else None
  }

  /** Every listed interval's name is accepted and parses back to it. */
  lemma ParseIntervalName(i: Interval)
    requires !i.Unlisted?
    ensures ParseInterval(IntervalName(i)) == Some(i)
  {
  }

  function WeekdayName(d: Weekday): string
  {
    match d
    case Monday => "monday"
    case Tuesday => "tuesday"
    case Wednesday => "wednesday"
    case Thursday => "thursday"
    case Friday => "friday"
    case Saturday => "saturday"
    case Sunday => "sunday"
  }

  /** The `in:monday,...,sunday` validation rule for one repeat day, read as a parser. */
  function ParseWeekday(s: string): (r: Option<Weekday>)
    ensures r.Some? ==> WeekdayName(r.value) == s
  {
    if s == "monday" then Some(Monday)
    else if s == "tuesday" then Some(Tuesday)
    else if s == "wednesday" then Some(Wednesday)
    else if s == "thursday" then Some(Thursday)
    else if s == "friday" then Some(Friday)
    else if s == "saturday" then Some(Saturday)
    else if s == "sunday" then Some(Sunday)
    else None
  }

  lemma ParseWeekdayName(d: Weekday)
    ensures ParseWeekday(WeekdayName(d)) == Some(d)
  {
  }

  /** The `repeat_days.*` rule over a whole list: every element must name a weekday. */
  function ParseDays(names: seq<string>): (r: Option<seq<Weekday>>)
    ensures r.Some? <==> forall i :: 0 <= i < |names| ==> ParseWeekday(names[i]).Some?
    ensures r.Some? ==> |r.value| == |names|
    ensures r.Some? ==> forall i :: 0 <= i < |names| ==> WeekdayName(r.value[i]) == names[i]
  {
    if names == [] then Some([])
    else
      match (ParseWeekday(names[0]), ParseDays(names[1..]))
      case (Some(d), Some(ds)) => Some([d] + ds)
      case _ => None
  }

  /** Every list of weekdays, written out by name, passes the rule and parses back to itself. */
  lemma {:induction false} ParseDaysNames(ds: seq<Weekday>)
    ensures ParseDays(seq(|ds|, i requires 0 <= i < |ds| => WeekdayName(ds[i]))) == Some(ds)
  {
    var names := seq(|ds|, i requires 0 <= i < |ds| => WeekdayName(ds[i]));
    if ds != [] {
      ParseWeekdayName(ds[0]);
      var tail := seq(|ds| - 1, i requires 0 <= i < |ds| - 1 => WeekdayName(ds[1..][i]));
      assert names[1..] == tail;
      ParseDaysNames(ds[1..]);
      assert [ds[0]] + ds[1..] == ds;
    }
  }

  /** The record with its generation counter one higher (`increment('repeat_current_count')`). */
  function Incremented(c: Checklist): Checklist
  {
    c.(repeatCurrentCount := c.repeatCurrentCount + 1)
  }

  /** A family root: the record whose parent id is its own id. */
  predicate IsRoot(c: Checklist)
  {
    c.parentId == c.id
  }

  /**
   * The creating hook: a record without an id gets `newId` (a new UUID), and a
   * record without a parent id becomes its own parent, whatever its id is.
   */
  function Creating(n: NewChecklist, newId: Id): (c: Checklist)
    ensures n.id.Some? ==> c.id == n.id.value
    ensures n.id.None? ==> c.id == newId
    ensures n.parentId.Some? ==> c.parentId == n.parentId.value
    ensures n.parentId.None? ==> IsRoot(c)
    ensures c.deletedAt.None?
    ensures Attributes(c) == n.(id := Some(c.id), parentId := Some(c.parentId))
  {
    var id := if n.id.Some? then n.id.value else newId;
    var parentId := if n.parentId.Some? then n.parentId.value else id;
    Checklist(id, n.userId, parentId, n.title, n.dueTime, n.interval, n.repeatType,
              n.repeatEndDate, n.repeatMaxCount, n.repeatCurrentCount, n.isCompleted, None)
  }

  /** The attributes of a stored record, as they would be handed to `Checklist::create`. */
  function Attributes(c: Checklist): NewChecklist
  {
    NewChecklist(Some(c.id), Some(c.parentId), c.userId, c.title, c.dueTime, c.interval,
                 c.repeatType, c.repeatEndDate, c.repeatMaxCount, c.repeatCurrentCount,
                 c.isCompleted)
  }

  /** The hook changes nothing in a live record that already carries both ids. */
  lemma CreatingKeepsCompleteRecord(c: Checklist, newId: Id)
    requires c.deletedAt.None?
    ensures Creating(Attributes(c), newId) == c
  {
  }

  /**
   * `hasReachedRepeatLimit`, with `today` standing for `now()->toDateString()`.
   * An until-date record without an end date, and an after-count record without
   * a maximum, count as reached: that is how the comparisons with null come out.
   */
  function HasReachedRepeatLimit(c: Checklist, today: Date): (r: bool)
    ensures c.repeatType == Never ==> r
    ensures c.repeatType == UntilDate ==>
      (r <==> c.repeatEndDate.None? || today > c.repeatEndDate.value)
    ensures c.repeatType == AfterCount ==>
      (r <==> c.repeatMaxCount.None? || c.repeatCurrentCount >= c.repeatMaxCount.value)
    ensures c.repeatType == UnlistedType ==> !r
  {
    match c.repeatType
    case Never => true
    case UntilDate => c.repeatEndDate.None? || today > c.repeatEndDate.value
    case AfterCount => c.repeatMaxCount.None? || c.repeatCurrentCount >= c.repeatMaxCount.value
    case UnlistedType => false
  }

  /** Once reached, a limit stays reached on every later day and at every higher count. */
  lemma LimitStaysReached(c: Checklist, today: Date, later: Date, count: int)
    requires HasReachedRepeatLimit(c, today)
    requires today <= later && c.repeatCurrentCount <= count
    ensures HasReachedRepeatLimit(c.(repeatCurrentCount := count), later)
  {
  }

  /** `Checklist::find` / `findOrFail`: a stored record that is not soft-deleted. */
  function Find(records: map<Id, Checklist>, id: Id): (r: Option<Checklist>)
    ensures r.Some? <==> id in records && records[id].deletedAt.None?
    ensures r.Some? ==> r.value == records[id]
  {
    if id in records && records[id].deletedAt.None? then Some(records[id]) else None
  }

  /**
   * `getOriginalChecklist`: the live record whose id is this record's parent id,
   * or the record itself when there is none. It only reads the store.
   */
  function OriginalChecklist(records: map<Id, Checklist>, c: Checklist): (r: Checklist)
    ensures Find(records, c.parentId).Some? ==> r == records[c.parentId]
    ensures Find(records, c.parentId).None? ==> r == c
  {
    match Find(records, c.parentId)
    case Some(parent) => parent
    case None => c
  }

  /** A live root filed under its own id is its own original. */
  lemma RootIsOwnOriginal(records: map<Id, Checklist>, c: Checklist)
    requires IsRoot(c) && c.id in records && records[c.id] == c && c.deletedAt.None?
    ensures OriginalChecklist(records, c) == c
  {
  }

  /**
   * The weekdays filed under `key`: the `repeatDays` relation. The model keeps
   * rows in insertion order; the relation's query fixes no order, so only the
   * multiset of days per key is what the database promises.
   */
  function DaysOf(rows: seq<RepeatDay>, key: Id): seq<Weekday>
  {
    if rows == [] then []
    else (if rows[0].key == key then [rows[0].day] else []) + DaysOf(rows[1..], key)
  }

  /** The rows created by one `foreach` over `days`, all filed under `key`. */
  function Keyed(key: Id, days: seq<Weekday>): (rows: seq<RepeatDay>)
    ensures |rows| == |days|
    ensures forall i :: 0 <= i < |days| ==> rows[i] == RepeatDay(key, days[i])
  {
    seq(|days|, i requires 0 <= i < |days| => RepeatDay(key, days[i]))
  }

  /** The rows left after deleting every row filed under `key`. */
  function WithoutKey(rows: seq<RepeatDay>, key: Id): (r: seq<RepeatDay>)
    ensures forall i :: 0 <= i < |r| ==> r[i].key != key && r[i] in rows
    ensures forall i :: 0 <= i < |rows| && rows[i].key != key ==> rows[i] in r
  {
    if rows == [] then []
    else (if rows[0].key == key then [] else [rows[0]]) + WithoutKey(rows[1..], key)
  }

  lemma {:induction false} DaysOfAppend(a: seq<RepeatDay>, b: seq<RepeatDay>, key: Id)
    ensures DaysOf(a + b, key) == DaysOf(a, key) + DaysOf(b, key)
  {
    if a != [] {
      assert (a + b)[1..] == a[1..] + b;
      DaysOfAppend(a[1..], b, key);
    } else {
      assert a + b == b;
    }
  }

  lemma {:induction false} DaysOfKeyed(key: Id, days: seq<Weekday>, other: Id)
    ensures DaysOf(Keyed(key, days), other) == if key == other then days else []
  {
    if days != [] {
      assert Keyed(key, days)[1..] == Keyed(key, days[1..]);
      DaysOfKeyed(key, days[1..], other);
      assert [days[0]] + days[1..] == days;
    }
  }

  /** Rows none of which is filed under `key` hold no weekday for it. */
  lemma {:induction false} DaysOfAbsentKey(rows: seq<RepeatDay>, key: Id)
    requires forall i :: 0 <= i < |rows| ==> rows[i].key != key
    ensures DaysOf(rows, key) == []
  {
    if rows != [] {
      DaysOfAbsentKey(rows[1..], key);
    }
  }

  /** Deleting the rows of `key` empties its weekdays and leaves every other key's as they were. */
  lemma {:induction false} DaysOfWithoutKey(rows: seq<RepeatDay>, key: Id, other: Id)
    ensures DaysOf(WithoutKey(rows, key), other) == if key == other then [] else DaysOf(rows, other)
  {
    if rows != [] {
      DaysOfWithoutKey(rows[1..], key, other);
      var head := if rows[0].key == key then [] else [rows[0]];
      DaysOfAppend(head, WithoutKey(rows[1..], key), other);
      if head != [] {
        assert head[1..] == [];
      }
    }
  }
}
