/**
 * The filters of the employees' customer list: membership status (ACTIVE,
 * FUTURE, INACTIVE), workout schedule and meal plan.  A queryset of customer
 * enrollments is a set of enrollment ids.
 *
 * Which memberships are paid for (`payment_active`) and which are running or
 * yet to start at the current time in the organization's time zone
 * (`time_active`, `time_future`) are computed by the membership queryset,
 * which is not part of this model: they are given as sets.
 */
module CustomerFilters {
  import Database

  const ActiveStatus := "ACTIVE"
  const InactiveStatus := "INACTIVE"
  const FutureStatus := "FUTURE"

  datatype MembershipFacts = MembershipFacts(
    owner: map<Database.MembershipId, Database.EnrollmentId>,   // the customer of each membership
    paymentActive: set<Database.MembershipId>,
    timeActive: set<Database.MembershipId>,
    timeFuture: set<Database.MembershipId>)

  /** `active_mem_ids`: paid for and running now. */
  function ActiveMemberships(f: MembershipFacts): (r: set<Database.MembershipId>)
    ensures r <= f.paymentActive
    ensures forall m :: m in r <==> m in f.paymentActive && m in f.timeActive
  {
    f.paymentActive * f.timeActive
  }

  /** `future_mem_ids`: paid for and starting later. */
  function FutureMemberships(f: MembershipFacts): (r: set<Database.MembershipId>)
    ensures r <= f.paymentActive
    ensures forall m :: m in r <==> m in f.paymentActive && m in f.timeFuture
  {
    f.paymentActive * f.timeFuture
  }

  /** The customer owns one of the memberships `ids`. */
  predicate OwnsOneOf(f: MembershipFacts, e: Database.EnrollmentId, ids: set<Database.MembershipId>) {
    exists m :: m in ids && m in f.owner && f.owner[m] == e
  }

  /** `CustomerEnrollmentEmployeeFilterSet.membership_status_filter`. */
  function MembershipStatusFilter(queryset: set<Database.EnrollmentId>, value: string, f: MembershipFacts)
    : (r: set<Database.EnrollmentId>)
    ensures value == "" ==> r == queryset
    ensures value != "" && value != ActiveStatus && value != InactiveStatus && value != FutureStatus ==> r == {}
    ensures r <= queryset
  {
    if value == "" then queryset
    else
      var active, future := ActiveMemberships(f), FutureMemberships(f);
      if value == ActiveStatus then set e | e in queryset && OwnsOneOf(f, e, active)
      else if value == InactiveStatus then set e | e in queryset && !OwnsOneOf(f, e, active) && !OwnsOneOf(f, e, future)
      else if value == FutureStatus then set e | e in queryset && !OwnsOneOf(f, e, active) && OwnsOneOf(f, e, future)
      else {}
  }

  /** The three statuses split any queryset into three disjoint parts: a
      customer is ACTIVE with a running paid membership, otherwise FUTURE with
      a paid membership yet to start, otherwise INACTIVE. */
  lemma StatusesPartition(queryset: set<Database.EnrollmentId>, f: MembershipFacts)
    ensures var a := MembershipStatusFilter(queryset, ActiveStatus, f);
            var fu := MembershipStatusFilter(queryset, FutureStatus, f);
            var i := MembershipStatusFilter(queryset, InactiveStatus, f);
            && a * fu == {} && a * i == {} && fu * i == {}
            && a + fu + i == queryset
    ensures forall e :: e in MembershipStatusFilter(queryset, ActiveStatus, f) <==>
              e in queryset && OwnsOneOf(f, e, ActiveMemberships(f))
    ensures forall e :: e in MembershipStatusFilter(queryset, FutureStatus, f) <==>
              e in queryset && !OwnsOneOf(f, e, ActiveMemberships(f)) && OwnsOneOf(f, e, FutureMemberships(f))
  {
  }

  /** A row of the workout-schedule or meal-plan assignment table. */
  datatype Assignment = Assignment(customer: Database.EnrollmentId, target: nat, isActive: bool)

  /** `workout_schedule_filter` and `meal_plan_filter`: the customers with an
      active assignment to `target`, each once. */
  function AssignedFilter(queryset: set<Database.EnrollmentId>, assignments: seq<Assignment>, target: nat)
    : (r: set<Database.EnrollmentId>)
    ensures forall e :: e in r <==>
              e in queryset && exists k :: 0 <= k < |assignments| && assignments[k] == Assignment(e, target, true)
  {
    set e, k | e in queryset && 0 <= k < |assignments| && assignments[k] == Assignment(e, target, true) :: e
  }

  /** Deactivating an assignment can only shrink the filter's result. */
  lemma DeactivationShrinks(queryset: set<Database.EnrollmentId>, assignments: seq<Assignment>, target: nat, k: nat)
    requires k < |assignments|
    ensures AssignedFilter(queryset, assignments[k := assignments[k].(isActive := false)], target)
            <= AssignedFilter(queryset, assignments, target)
  {
    var after := assignments[k := assignments[k].(isActive := false)];
    forall e | e in AssignedFilter(queryset, after, target)
      ensures e in AssignedFilter(queryset, assignments, target)
    {
      var j :| 0 <= j < |after| && after[j] == Assignment(e, target, true);
      assert assignments[j] == after[j];
    }
  }
}
