/**
 * The `superuser` management command: creates the administrator account
 * non-interactively, unless some superuser exists already or the username is
 * taken; an e-mail another user already has makes the insert raise.  The account is made the way `create_superuser` makes it: staff,
 * superuser, no user type, no phone number, the password stored hashed.
 */
module SuperuserCommand {
  import opened Wrappers
  import opened Hashers
  import opened Database

  const AlreadySuperadmin := "There is already a superadmin"

  /** The error for a taken username. */
  function UsernameExists(username: string): string {
    "Username \"" + username + "\" already exists"
  }

  /** Some user is a superuser. */
  predicate AnySuperuser(users: map<UserId, User>) {
    exists id :: id in users && users[id].isSuperuser
  }

  /** What the command does with the tables as they are. */
  datatype Decision = Warn | Refuse | Create

  function Decide(users: map<UserId, User>, username: string): (d: Decision)
    ensures d == Create <==> !AnySuperuser(users) && !UsernameTaken(users, username)
    ensures d == Warn <==> AnySuperuser(users)
  {
    if AnySuperuser(users) then Warn
    else if UsernameTaken(users, username) then Refuse
    else Create
  }

  /** The account `create_superuser` makes. */
  function Superadmin(username: string, email: string, password: string, salt: nat): User {
    User(username, email, "", Unset, true, true, Some(MakePassword(password, salt)))
  }

  const EmailColumn := "email"

  /** The command's output; `Raised` is the `IntegrityError` of a unique
      column, which ends the command. */
  datatype Output = Warning(text: string) | Error(text: string) | Created(id: UserId) | Raised(column: string)

  /** `Command.handle`; `salt` is the random salt `make_password` draws. */
  method Handle(db: Db, username: string, email: string, password: string, salt: nat) returns (out: Output)
    requires db.Valid()
    modifies db
    ensures db.Valid()
    ensures Decide(old(db.users), username) == Warn ==>
              out == Warning(AlreadySuperadmin) && db.Snapshot() == old(db.Snapshot())
    ensures Decide(old(db.users), username) == Refuse ==>
              out == Error(UsernameExists(username)) && db.Snapshot() == old(db.Snapshot())
    ensures Decide(old(db.users), username) == Create && EmailTaken(old(db.users), email) ==>
              out == Raised(EmailColumn) && db.Snapshot() == old(db.Snapshot())
    ensures Decide(old(db.users), username) == Create && !EmailTaken(old(db.users), email) ==>
              && out.Created? && out.id !in old(db.users)
              && db.users == old(db.users)[out.id := Superadmin(username, email, password, salt)]
              && db.Snapshot().(users := old(db.users), nextId := old(db.nextId)) == old(db.Snapshot())
  {
    if exists id :: id in db.users && db.users[id].isSuperuser {
      return Warning(AlreadySuperadmin);
    } else if exists id :: id in db.users && db.users[id].username == username {
      return Error(UsernameExists(username));
    } else if exists id :: id in db.users && db.users[id].email == email {
      return Raised(EmailColumn);
    }
    var id := db.CreateUser(Superadmin(username, email, password, salt));
    out := Created(id);
  }

  // ----- what the command guarantees ------------------------------------------------

  /** After the command creates the account, it is the only superuser, it
      logs in with the given password, and running the command again only
      warns. */
  lemma CreatedIsOnlySuperuser(users: map<UserId, User>, id: UserId, username: string, email: string,
                               password: string, salt: nat)
    requires Decide(users, username) == Create && id !in users
    ensures var after := users[id := Superadmin(username, email, password, salt)];
            && (forall other :: other in after && after[other].isSuperuser ==> other == id)
            && CheckPassword(password, after[id].password.value)
            && Decide(after, username) == Warn
  {
    var after := users[id := Superadmin(username, email, password, salt)];
    assert after[id].isSuperuser;
    CheckMatchesOnlyOwnSecret(password, password, salt);
  }

  /** The command never leaves two superusers where there was at most one. */
  lemma NeverASecondSuperuser(users: map<UserId, User>, id: UserId, username: string, email: string,
                              password: string, salt: nat)
    requires id !in users
    requires forall a, b :: a in users && b in users && users[a].isSuperuser && users[b].isSuperuser ==> a == b
    ensures var after := if Decide(users, username) == Create
                         then users[id := Superadmin(username, email, password, salt)] else users;
            forall a, b :: a in after && b in after && after[a].isSuperuser && after[b].isSuperuser ==> a == b
  {
  }
}
