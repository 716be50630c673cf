/**
 * The `POST /login` route of the courtroom backend (backend/app.py): a
 * decision from the request body to a status code and a JSON answer.
 *
 * The database and bcrypt are reached only through their answers: `clerks`
 * and `judges` map a matricule to the account stored under it, and
 * `checkpw` says whether a password matches a stored hash. An uncaught
 * exception (a body that is not a dictionary, a matricule or password that
 * is not a string) is a `Crash`, which Flask answers with 500.
 */
module Login {
  import opened Wrappers
  import opened Text
  import opened Json
  import opened Http

  /** An account document: the fields the route reads. */
  datatype Account = Account(name: Value, matricule: Value, passwordHash: string)

  datatype Role = Clerk | Judge

  function RoleName(r: Role): string
  {
    match r
    case Clerk => "clerk"
    case Judge => "judge"
  }

  /** The role a matricule names by its upper-cased prefix; `CLERK` is tried first. */
  function RoleOf(matricule: string): Option<Role>
  {
    var up := AsciiUpper(matricule);
    if StartsWith(up, "CLERK") then Some(Clerk)
    else if StartsWith(up, "JUDGE") then Some(Judge)
    else None
  }

  const MissingFields := "Please provide both matricule and password"
  const BadFormat := "Invalid matricule format"
  const NotFound := "Account not found"
  const WrongPassword := "Incorrect password"

  function Failure(message: string): Value
  {
    Obj([Member("success", Bool(false)), Member("message", Str(message))])
  }

  function Welcome(role: Role, account: Account): Value
  {
    Obj([Member("success", Bool(true)), Member("role", Str(RoleName(role))),
         Member("user", Obj([Member("name", account.name), Member("matricule", account.matricule)]))])
  }

  /** `login`: the body must be a dictionary; its two fields decide the rest. */
  function LoginSpec(data: Value, clerks: string -> Option<Account>, judges: string -> Option<Account>,
                     checkpw: (string, string) -> bool): Reply
  {
    if !data.Obj? then Crash
    else Decide(Get(data.members, "matricule").GetOr(Null), Get(data.members, "password").GetOr(Null),
                clerks, judges, checkpw)
  }

  /**
   * Both fields must be truthy; the matricule's prefix picks the role and the
   * collection, where the account is looked up under the matricule as sent;
   * the password is then checked against the stored hash.
   */
  function Decide(matricule: Value, password: Value, clerks: string -> Option<Account>,
                  judges: string -> Option<Account>, checkpw: (string, string) -> bool): Reply
  {
    if !Truthy(matricule) || !Truthy(password) then Reply(400, Failure(MissingFields))
    else if !matricule.Str? then Crash
    else
      var role := RoleOf(matricule.s);
      if role.None? then Reply(400, Failure(BadFormat))
      else
        var account := Lookup(role.value, matricule.s, clerks, judges);
        if account.None? then Reply(404, Failure(NotFound))
        else if !password.Str? then Crash
        else if checkpw(password.s, account.value.passwordHash) then Reply(200, Welcome(role.value, account.value))
        else Reply(401, Failure(WrongPassword))
  }

  /** `db.clerks.find_one` for a clerk, `db.judges.find_one` for a judge. */
  function Lookup(role: Role, matricule: string, clerks: string -> Option<Account>,
                  judges: string -> Option<Account>): Option<Account>
  {
    if role == Clerk then clerks(matricule) else judges(matricule)
  }

  // ---------------------------------------------------------------------------
  // Properties

  /**
   * A matricule is a clerk's exactly when its upper-cased form starts with
   * `CLERK`, and a judge's exactly when it starts with `JUDGE` and not
   * `CLERK`; case does not matter.
   */
  lemma RoleByPrefix(matricule: string)
    ensures RoleOf(matricule) == Some(Clerk) <==> StartsWith(AsciiUpper(matricule), "CLERK")
    ensures RoleOf(matricule) == Some(Judge) <==>
              !StartsWith(AsciiUpper(matricule), "CLERK") && StartsWith(AsciiUpper(matricule), "JUDGE")
    ensures RoleOf(AsciiUpper(matricule)) == RoleOf(matricule)
  {
    AsciiUpperIdempotent(matricule);
  }

  /** A missing or empty field is refused with 400 whatever the database holds. */
  lemma MissingFieldRefused(matricule: Value, password: Value, clerks: string -> Option<Account>,
                            judges: string -> Option<Account>, checkpw: (string, string) -> bool)
    requires !Truthy(matricule) || !Truthy(password)
    ensures Decide(matricule, password, clerks, judges, checkpw) == Reply(400, Failure(MissingFields))
  {
  }

  /** With both fields present, a matricule naming neither role is refused with 400, before any lookup. */
  lemma BadFormatRefused(matricule: string, password: Value, clerks: string -> Option<Account>,
                         judges: string -> Option<Account>, checkpw: (string, string) -> bool)
    requires matricule != "" && Truthy(password)
    ensures Decide(Str(matricule), password, clerks, judges, checkpw) == Reply(400, Failure(BadFormat))
            <==> RoleOf(matricule).None?
  {
  }

  /**
   * The route answers 200 exactly when both fields are non-empty strings, the
   * matricule names a role, the role's collection holds an account under the
   * matricule, and the password matches its hash; the answer then carries
   * the role and the account's name and matricule.
   */
  lemma LoginSucceeds(matricule: Value, password: Value, clerks: string -> Option<Account>,
                      judges: string -> Option<Account>, checkpw: (string, string) -> bool)
    ensures var r := Decide(matricule, password, clerks, judges, checkpw);
      r.Reply? && r.status == 200 <==>
        matricule.Str? && matricule.s != "" && password.Str? && password.s != "" && RoleOf(matricule.s).Some?
        && var a := Lookup(RoleOf(matricule.s).value, matricule.s, clerks, judges);
           a.Some? && checkpw(password.s, a.value.passwordHash)
           && r == Reply(200, Welcome(RoleOf(matricule.s).value, a.value))
  {
  }

  /**
   * Every answer is a crash or one of 200, 400, 401 and 404, and `success`
   * is true exactly in the 200 answer; 404 means the role's collection has
   * no account under the matricule, 401 that it has one whose hash does not
   * match.
   */
  lemma LoginOutcomes(matricule: Value, password: Value, clerks: string -> Option<Account>,
                      judges: string -> Option<Account>, checkpw: (string, string) -> bool)
    ensures var r := Decide(matricule, password, clerks, judges, checkpw);
      r.Reply? ==>
        (r.status == 200 || r.status == 400 || r.status == 401 || r.status == 404)
        && r.body.Obj? && |r.body.members| >= 2 && r.body.members[0] == Member("success", Bool(r.status == 200))
        && (r.status == 404 || r.status == 401 ==>
              matricule.Str? && RoleOf(matricule.s).Some?
              && (r.status == 404 <==> Lookup(RoleOf(matricule.s).value, matricule.s, clerks, judges).None?))
  {
  }

  /** A clerk's matricule is looked up among the clerks only: the judges' collection plays no part. */
  lemma LookupByRole(matricule: string, password: Value, clerks: string -> Option<Account>,
                     judges: string -> Option<Account>, otherJudges: string -> Option<Account>,
                     checkpw: (string, string) -> bool)
    requires RoleOf(matricule) == Some(Clerk)
    ensures Decide(Str(matricule), password, clerks, judges, checkpw)
            == Decide(Str(matricule), password, clerks, otherJudges, checkpw)
  {
  }
}
