/**
 * The customer's own `enroll` action: a customer joins a branch.  The
 * enrollment of the customer at that branch is looked up with `get`; an
 * active one is refused, an inactive one is switched back on, and a missing
 * one is created.  In every successful case the welcome notification is
 * scheduled for the enrollment once the transaction commits.
 */
module CustomerViews {
  import opened Wrappers
  import opened Database

  const AlreadyEnrolledMessage := "You are already enrolled to this branch"
  const AlreadyEnrolledCode := "already_enrolled"

  datatype EnrollError =
    | AlreadyEnrolled(message: string, code: string)   // the `ValidationError`
    | MultipleEnrollments                               // `get` finds several rows

  /** The enrollments of `user` at `branch`: what `get(user=..., branch=...)` sees. */
  function Matching(enrollments: map<EnrollmentId, CustomerEnrollment>, user: UserId, branch: BranchId)
    : (m: set<EnrollmentId>)
    ensures forall id :: id in m <==> id in enrollments && enrollments[id].user == user && enrollments[id].branch == branch
  {
    set id | id in enrollments && enrollments[id].user == user && enrollments[id].branch == branch
  }

  /** What `enroll` does with the enrollments as they are. */
  datatype Step = Refuse(error: EnrollError) | Reactivate(id: EnrollmentId) | Insert

  function Plan(enrollments: map<EnrollmentId, CustomerEnrollment>, user: UserId, branch: BranchId): (s: Step)
    ensures s.Insert? <==> Matching(enrollments, user, branch) == {}
    ensures s.Reactivate? <==>
              exists id :: Matching(enrollments, user, branch) == {id} && !enrollments[id].isActive
    ensures s.Reactivate? ==> Matching(enrollments, user, branch) == {s.id}
    ensures s == Refuse(AlreadyEnrolled(AlreadyEnrolledMessage, AlreadyEnrolledCode)) <==>
              exists id :: Matching(enrollments, user, branch) == {id} && enrollments[id].isActive
    ensures s == Refuse(MultipleEnrollments) <==> |Matching(enrollments, user, branch)| > 1
  {
    var m := Matching(enrollments, user, branch);
    if |m| == 0 then Insert
    else if |m| > 1 then
      assert forall id :: m != {id};
      Refuse(MultipleEnrollments)
    else
      var id :| id in m;
      assert m == {id} by { SingletonSet(m, id); }
      if enrollments[id].isActive then Refuse(AlreadyEnrolled(AlreadyEnrolledMessage, AlreadyEnrolledCode))
      else Reactivate(id)
  }

  /** A set of one element is that element's singleton. */
  lemma SingletonSet<T>(m: set<T>, x: T)
    requires |m| == 1 && x in m
    ensures m == {x}
  {
    var rest := m - {x};
    assert m == rest + {x};
    assert |rest| == 0;
  }

  /** The enrollments after a successful `enroll`, with `newId` the key a
      newly created row receives. */
  function EnrolledTables(enrollments: map<EnrollmentId, CustomerEnrollment>, user: UserId, branch: BranchId,
                          newId: EnrollmentId): map<EnrollmentId, CustomerEnrollment>
  {
    match Plan(enrollments, user, branch)
    case Reactivate(id) => enrollments[id := enrollments[id].(isActive := true)]
    case Insert => enrollments[newId := CustomerEnrollment(user, branch, true)]
    case Refuse(_) => enrollments
  }

  /** `CustomerViewSet.enroll` for the customer `user` (the object of the
      request) and the validated `branch`.  On success the result is the
      enrollment the welcome notification is scheduled for. */
  method Enroll(db: Db, user: UserId, branch: BranchId) returns (r: Result<EnrollmentId, EnrollError>)
    requires db.Valid()
    modifies db
    ensures db.Valid()
    ensures Plan(old(db.enrollments), user, branch).Refuse? ==>
              r == Err(Plan(old(db.enrollments), user, branch).error) && db.Snapshot() == old(db.Snapshot())
    ensures Plan(old(db.enrollments), user, branch).Reactivate? ==>
              && r == Ok(Plan(old(db.enrollments), user, branch).id)
              && db.Snapshot() == old(db.Snapshot()).(enrollments := EnrolledTables(old(db.enrollments), user, branch, old(db.nextId)))
    ensures Plan(old(db.enrollments), user, branch).Insert? ==>
              && r == Ok(old(db.nextId)) && r.value !in old(db.enrollments)
              && db.Snapshot() == old(db.Snapshot()).(enrollments := EnrolledTables(old(db.enrollments), user, branch, r.value),
                                                     nextId := old(db.nextId) + 1)
  {
    var m := set id | id in db.enrollments && db.enrollments[id].user == user && db.enrollments[id].branch == branch;
    assert m == Matching(db.enrollments, user, branch);
    if |m| > 1 {
      return Err(MultipleEnrollments);
    }
    if |m| == 1 {
      var id :| id in m;
      SingletonSet(m, id);
      if db.enrollments[id].isActive {
        return Err(AlreadyEnrolled(AlreadyEnrolledMessage, AlreadyEnrolledCode));
      }
      assert Plan(db.enrollments, user, branch) == Reactivate(id);
      db.ReactivateEnrollment(id);
      return Ok(id);
    }
    assert Plan(db.enrollments, user, branch) == Insert;
    var id := db.CreateEnrollment(CustomerEnrollment(user, branch, true));
    assert db.enrollments == EnrolledTables(old(db.enrollments), user, branch, id);
    return Ok(id);
  }

  // ----- what enrolling guarantees ---------------------------------------------------

  /** After a successful `enroll` the customer has exactly one enrollment at
      the branch, it is active, and enrolling again is refused as already
      enrolled. */
  lemma EnrollingAgainRefused(enrollments: map<EnrollmentId, CustomerEnrollment>, user: UserId, branch: BranchId,
                              newId: EnrollmentId)
    requires newId !in enrollments
    requires !Plan(enrollments, user, branch).Refuse?
    ensures var after := EnrolledTables(enrollments, user, branch, newId);
            && (exists id :: Matching(after, user, branch) == {id} && after[id].isActive)
            && Plan(after, user, branch) == Refuse(AlreadyEnrolled(AlreadyEnrolledMessage, AlreadyEnrolledCode))
  {
    var after := EnrolledTables(enrollments, user, branch, newId);
    var id := if Plan(enrollments, user, branch).Insert? then newId else Plan(enrollments, user, branch).id;
    assert Matching(after, user, branch) == {id};
  }

  /** `enroll` touches no enrollment of another customer or another branch. */
  lemma OtherEnrollmentsUntouched(enrollments: map<EnrollmentId, CustomerEnrollment>, user: UserId, branch: BranchId,
                                  newId: EnrollmentId, other: EnrollmentId)
    requires newId !in enrollments && other in enrollments
    requires enrollments[other].user != user || enrollments[other].branch != branch
    ensures var after := EnrolledTables(enrollments, user, branch, newId);
            other in after && after[other] == enrollments[other]
  {
  }
}
