/**
 * The command-line script that creates an administrator from four arguments: name, email,
 * password and phone number. The process exit code is the observable result; the console
 * lines are left out. Hashing is the parameter `hash`.
 */
module CreateAdmin {
  import opened Wrappers
  import opened Text
  import opened Database
  import AuthRoutes

  /** How a run of the script ends. */
  datatype Outcome =
    | Usage          // fewer than four arguments
    | AlreadyExists  // a user already holds the email
    | Failed         // the save was refused: a required field is empty or a unique key is taken
    | Created(id: Id)
  {
    /** The process exit code. */
    function ExitCode(): nat {
      if Created? then 0 else 1
    }
  }

  /** The user store after the run, and how the run ended. */
  datatype ScriptRun = ScriptRun(users: map<Id, User>, outcome: Outcome)

  /**
   * The administrator the script builds: the email doubles as the username; the name is split
   * at its first space without trimming; no phone number is stored.
   */
  function AdminUser(name: string, email: string, password: string, hash: string -> Digest): (u: User)
    ensures u.username == email && u.email == email && u.role == Admin && u.phoneNumber.None?
    ensures u.firstName.Some? && u.lastName.Some? && ' ' !in u.firstName.value
    ensures ' ' in name ==> name == u.firstName.value + " " + u.lastName.value
    ensures ' ' !in name ==> u.firstName == Some(name) && u.lastName == Some("")
  {
    var parts := NameParts(name);
    User(email, hash(password), Admin, email, Some(parts.0), Some(parts.1), None)
  }

  /** The schema refuses to save `u`: an empty required string, or a username or email already stored. */
  predicate SaveRefused(users: map<Id, User>, u: User) {
    u.username == "" || u.email == "" || u.password == ""
    || UsernameTaken(users, u.username) || EmailTaken(users, u.email)
  }

  /**
   * One run of the script on its arguments. The store changes only when the run ends with
   * exit code 0, and then by exactly the new administrator.
   */
  function CreateAdmin(users: map<Id, User>, args: seq<string>, hash: string -> Digest, newId: Id): (r: ScriptRun)
    requires newId !in users
    ensures r.outcome.Created? <==> r.outcome.ExitCode() == 0
    ensures !r.outcome.Created? ==> r.users == users
    ensures |args| < 4 ==> r.outcome == Usage
    ensures |args| >= 4 && EmailTaken(users, args[1]) ==> r.outcome == AlreadyExists
    ensures r.outcome.Created? <==>
      && |args| >= 4 && args[1] != "" && hash(args[2]) != ""
      && !EmailTaken(users, args[1]) && !UsernameTaken(users, args[1])
    ensures r.outcome.Created? ==>
      && r.outcome.id == newId
      && r.users == users[newId := AdminUser(args[0], args[1], args[2], hash)]
  {
    if |args| < 4 then ScriptRun(users, Usage)
    else
      var name, email, password := args[0], args[1], args[2];
      if FindByEmail(users, email).Some? then ScriptRun(users, AlreadyExists)
      else
        var admin := AdminUser(name, email, password, hash);
        if SaveRefused(users, admin) then ScriptRun(users, Failed)
        else ScriptRun(users[newId := admin], Created(newId))
  }

  /** The script keeps emails and usernames unique. */
  lemma CreateAdminPreservesWellFormed(users: map<Id, User>, args: seq<string>, hash: string -> Digest, newId: Id)
    requires newId !in users && UsersWellFormed(users)
    ensures UsersWellFormed(CreateAdmin(users, args, hash, newId).users)
  {
    var r := CreateAdmin(users, args, hash, newId);
    if r.outcome.Created? {
      forall a, b | a in r.users && b in r.users && a != b
        ensures r.users[a].email != r.users[b].email && r.users[a].username != r.users[b].username
      {
        if a == newId {
          assert b in users;
        } else if b == newId {
          assert a in users;
        }
      }
    }
  }

  /**
   * The administrator the script creates can log in through `POST /login` with the email and
   * password given on the command line, and is reported with the admin role.
   */
  lemma CreatedAdminCanLogIn(
    users: map<Id, User>, args: seq<string>, hash: string -> Digest, matches: (string, Digest) -> bool,
    sign: (Id, string, Role) -> string, newId: Id)
    requires newId !in users && UsersWellFormed(users)
    requires forall p :: matches(p, hash(p))
    requires CreateAdmin(users, args, hash, newId).outcome.Created?
    requires args[2] != ""
    ensures var s := CreateAdmin(users, args, hash, newId).users;
      var r := AuthRoutes.Login(s, Some(args[1]), Some(args[2]), matches, sign);
      r.Ok? && r.value.user == AuthRoutes.AuthUser(newId, args[1], args[1], Admin)
  {
    var s := CreateAdmin(users, args, hash, newId).users;
    CreateAdminPreservesWellFormed(users, args, hash, newId);
    FindByEmailUnique(s, args[1], newId);
  }

  /**
   * Unlike registration, the script does not trim the name: a name that starts with a blank
   * gives an empty first name and keeps the whole rest as the last name.
   */
  lemma LeadingBlankKept(name: string, email: string, password: string, hash: string -> Digest)
    requires |name| > 0 && name[0] == ' '
    ensures AdminUser(name, email, password, hash).firstName == Some("")
    ensures AdminUser(name, email, password, hash).lastName == Some(name[1..])
  {
    assert name == "" + " " + name[1..];
    NamePartsOf("", name[1..]);
  }
}
