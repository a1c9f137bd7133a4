/**
 * The periodic-task admin form of the dashboard: the periodic-task picker shows only
 * periodic tasks, the form opens with a schedule type and an expiration type
 * read off the periodic task, and `clean` keeps only the schedule and the expiry the
 * user selected.
 *
 * Schedules are referred to by their ids.  What the base form of the Celery
 * beat library checks in its own `clean` is not part of this model: `clean`
 * starts from the data it returns.
 */
module PeriodicTaskForm {
  import opened Wrappers
  import opened Text

  const PeriodicSuffix := "_periodic_task"

  // ----- the periodic-task picker -----------------------------------------------------

  /** An entry of the picker: the registered task name and its label. */
  datatype Choice = Choice(name: string, caption: string)

  /** The blank entry and every task whose name ends with `_periodic_task`. */
  predicate Offered(c: Choice) {
    c.name == "" || EndsWith(c.name, PeriodicSuffix)
  }

  /** `UnfoldTaskSelectWidget.tasks_as_choices` over the base widget's entries. */
  function TasksAsChoices(choices: seq<Choice>): (r: seq<Choice>)
    ensures |r| <= |choices|
    ensures forall c :: c in r <==> c in choices && Offered(c)
  {
    if choices == [] then []
    else (if Offered(choices[0]) then [choices[0]] else []) + TasksAsChoices(choices[1..])
  }

  /** Filtering keeps the order of the entries: filtering a list made of two
      parts lists the kept entries of the first part before those of the second. */
  lemma {:induction false} TasksAsChoicesKeepsOrder(first: seq<Choice>, second: seq<Choice>)
    ensures TasksAsChoices(first + second) == TasksAsChoices(first) + TasksAsChoices(second)
  {
    if first != [] {
      assert (first + second)[0] == first[0];
      assert (first + second)[1..] == first[1..] + second;
      TasksAsChoicesKeepsOrder(first[1..], second);
    } else {
      assert first + second == second;
    }
  }

  /** Filtering twice is filtering once. */
  lemma {:induction false} TasksAsChoicesIdempotent(choices: seq<Choice>)
    ensures TasksAsChoices(TasksAsChoices(choices)) == TasksAsChoices(choices)
  {
    if choices != [] {
      var head := if Offered(choices[0]) then [choices[0]] else [];
      var rest := TasksAsChoices(choices[1..]);
      TasksAsChoicesIdempotent(choices[1..]);
      TasksAsChoicesKeepsOrder(head, rest);
      if Offered(choices[0]) {
        assert head[1..] == [];
        assert TasksAsChoices(head) == head + TasksAsChoices([]);
      } else {
        assert TasksAsChoices(head) == [];
      }
    }
  }

  // ----- initial values -----------------------------------------------------------

  /** The fields of a periodic task the form reads. */
  datatype TaskInstance = TaskInstance(
    task: string,
    interval: Option<nat>,
    crontab: Option<nat>,
    solar: Option<nat>,
    clocked: Option<nat>,
    expires: Option<int>,
    expireSeconds: Option<nat>)

  /** The initial schedule type: the first schedule that is set, in the order
      interval, crontab, solar, clocked; "none" when there is none. */
  function InitialScheduleType(t: TaskInstance): (r: string)
    ensures r == "none" <==> t.interval.None? && t.crontab.None? && t.solar.None? && t.clocked.None?
    ensures r == "interval" <==> t.interval.Some?
    ensures r == "crontab" <==> t.interval.None? && t.crontab.Some?
    ensures r == "solar" <==> t.interval.None? && t.crontab.None? && t.solar.Some?
    ensures r == "clocked" <==> t.interval.None? && t.crontab.None? && t.solar.None? && t.clocked.Some?
  {
    if t.interval.Some? then "interval"
    else if t.crontab.Some? then "crontab"
    else if t.solar.Some? then "solar"
    else if t.clocked.Some? then "clocked"
    else "none"
  }

  /** The initial expiration type: an expiry date wins over a number of seconds. */
  function InitialExpirationType(t: TaskInstance): (r: string)
    ensures r == "expire_at" <==> t.expires.Some?
    ensures r == "expire_seconds" <==> t.expires.None? && t.expireSeconds.Some?
    ensures r == "none" <==> t.expires.None? && t.expireSeconds.None?
  {
    if t.expires.Some? then "expire_at"
    else if t.expireSeconds.Some? then "expire_seconds"
    else "none"
  }

  // ----- clean ----------------------------------------------------------------------

  /** The cleaned data of the form, as far as `clean` touches it. */
  datatype FormData = FormData(
    scheduleType: Option<string>,
    expirationType: Option<string>,
    interval: Option<nat>,
    crontab: Option<nat>,
    solar: Option<nat>,
    clocked: Option<nat>,
    expires: Option<int>,
    expireSeconds: Option<nat>)

  /** How many schedules `d` sets. */
  function SchedulesSet(d: FormData): nat {
    (if d.interval.Some? then 1 else 0) + (if d.crontab.Some? then 1 else 0)
    + (if d.solar.Some? then 1 else 0) + (if d.clocked.Some? then 1 else 0)
  }

  /** The data after `clean`: the selected schedule and expiry are kept, every
      other schedule and expiry field is null. */
  function Cleaned(d: FormData): (r: FormData)
    ensures SchedulesSet(r) <= 1
    ensures !(r.expires.Some? && r.expireSeconds.Some?)
    ensures r.scheduleType == d.scheduleType && r.expirationType == d.expirationType
    ensures d.scheduleType == Some("interval") ==> r.interval == d.interval
    ensures d.scheduleType == Some("crontab") ==> r.crontab == d.crontab
    ensures d.scheduleType == Some("solar") ==> r.solar == d.solar
    ensures d.scheduleType == Some("clocked") ==> r.clocked == d.clocked
    ensures d.expirationType == Some("expire_at") ==> r.expires == d.expires
    ensures d.expirationType == Some("expire_seconds") ==> r.expireSeconds == d.expireSeconds
    ensures d.scheduleType !in {Some("interval"), Some("crontab"), Some("solar"), Some("clocked")} ==> SchedulesSet(r) == 0
    ensures d.expirationType !in {Some("expire_at"), Some("expire_seconds")} ==> r.expires.None? && r.expireSeconds.None?
  {
    d.(interval := if d.scheduleType == Some("interval") then d.interval else None,
       crontab := if d.scheduleType == Some("crontab") then d.crontab else None,
       solar := if d.scheduleType == Some("solar") then d.solar else None,
       clocked := if d.scheduleType == Some("clocked") then d.clocked else None,
       expires := if d.expirationType == Some("expire_at") then d.expires else None,
       expireSeconds := if d.expirationType == Some("expire_seconds") then d.expireSeconds else None)
  }

  /** Cleaning cleaned data changes nothing. */
  lemma CleanIdempotent(d: FormData)
    ensures Cleaned(Cleaned(d)) == Cleaned(d)
  {
  }

  /** A form opened on a task and submitted unchanged keeps the schedule and
      expiry the periodic task had when it had at most one of each. */
  lemma OpenedFormKeepsTask(t: TaskInstance)
    requires SchedulesSet(FormData(None, None, t.interval, t.crontab, t.solar, t.clocked, t.expires, t.expireSeconds)) <= 1
    requires !(t.expires.Some? && t.expireSeconds.Some?)
    ensures var d := FormData(Some(InitialScheduleType(t)), Some(InitialExpirationType(t)),
                              t.interval, t.crontab, t.solar, t.clocked, t.expires, t.expireSeconds);
            Cleaned(d) == d
  {
  }

  /** The periodic-task form: its initial values and its cleaned data. */
  class TaskForm {
    var scheduleTypeInitial: string
    var expirationTypeInitial: string
    var regtaskInitial: Option<string>
    var data: FormData

    /** `UnfoldPeriodicTaskForm.__init__` for `instance`, with the data the
        base form has cleaned. */
    constructor (instance: TaskInstance, data: FormData)
      ensures scheduleTypeInitial == InitialScheduleType(instance)
      ensures expirationTypeInitial == InitialExpirationType(instance)
      ensures regtaskInitial == (if instance.task != "" then Some(instance.task) else None)
      ensures this.data == data
    {
      if instance.interval.Some? {
        scheduleTypeInitial := "interval";
      } else if instance.crontab.Some? {
        scheduleTypeInitial := "crontab";
      } else if instance.solar.Some? {
        scheduleTypeInitial := "solar";
      } else if instance.clocked.Some? {
        scheduleTypeInitial := "clocked";
      } else {
        scheduleTypeInitial := "none";
      }
      if instance.expires.Some? {
        expirationTypeInitial := "expire_at";
      } else if instance.expireSeconds.Some? {
        expirationTypeInitial := "expire_seconds";
      } else {
        expirationTypeInitial := "none";
      }
      regtaskInitial := if instance.task != "" then Some(instance.task) else None;
      this.data := data;
    }

    /** `UnfoldPeriodicTaskForm.clean`: rewrites the data dict entry by entry. */
    method Clean() returns (r: FormData)
      modifies this
      ensures data == Cleaned(old(data)) && r == data
      ensures unchanged(this`scheduleTypeInitial, this`expirationTypeInitial, this`regtaskInitial)
    {
      var scheduleType := data.scheduleType;
      var expirationType := data.expirationType;
      data := data.(interval := if scheduleType != Some("interval") then None else data.interval);
      data := data.(crontab := if scheduleType != Some("crontab") then None else data.crontab);
      data := data.(solar := if scheduleType != Some("solar") then None else data.solar);
      data := data.(clocked := if scheduleType != Some("clocked") then None else data.clocked);
      data := data.(expires := if expirationType != Some("expire_at") then None else data.expires);
      data := data.(expireSeconds := if expirationType != Some("expire_seconds") then None else data.expireSeconds);
      r := data;
    }
  }
}
