/** The user-administration endpoint: listing users and creating one. Both
    check the session and the "users" permission first; creation validates
    the body and keeps e-mail addresses unique. The user table is a value
    the operations read and return. */
module UsersRoute {
  import opened Common
  import opened Folds
  import opened AuthTypes
  import opened AuthUtils

  /** A row of the user table. */
  datatype UserRow = UserRow(id: string, name: Option<string>, email: string, password: string,
                             role: Role, department: Option<string>, isActive: bool, createdAt: int)

  /** The columns the endpoint selects: everything but the password. */
  datatype PublicUser = PublicUser(id: string, name: Option<string>, email: string, role: Role,
                                   department: Option<string>, isActive: bool, createdAt: int)

  /** The JSON body of a creation request, each field possibly missing;
      the role is the string the client sent. */
  datatype NewUser = NewUser(name: Option<string>, email: Option<string>, password: Option<string>,
                             role: Option<string>, department: Option<string>)

  datatype Reply =
    | Unauthorized        // 401
    | Forbidden           // 403
    | MissingFields       // 400
    | EmailTaken          // 409
    | ServerError         // 500
    | Listing(users: seq<PublicUser>)   // 200
    | Created(user: PublicUser)         // 201

  function Status(r: Reply): int {
    match r
    case Unauthorized => 401
    case Forbidden => 403
    case MissingFields => 400
    case EmailTaken => 409
    case ServerError => 500
    case Listing(_) => 200
    case Created(_) => 201
  }

  function Public(u: UserRow): PublicUser {
    PublicUser(u.id, u.name, u.email, u.role, u.department, u.isActive, u.createdAt)
  }

  function CreatedAt(u: UserRow): int {
    u.createdAt
  }

  function MapPublic(rows: seq<UserRow>): (r: seq<PublicUser>)
    ensures |r| == |rows|
    ensures forall i :: 0 <= i < |rows| ==> r[i] == Public(rows[i])
  {
    if rows == [] then [] else [Public(rows[0])] + MapPublic(rows[1..])
  }

  /** The session role, when there is a session user. */
  type Session = Option<Role>

  /** GET: 401 without a session, 403 without users:read, 500 when the query
      fails, else the users newest first, without passwords. */
  function GetUsers(session: Session, table: seq<UserRow>, queryFails: bool): (r: Reply)
    ensures r.Listing? ==> |r.users| == |table|
    ensures r.Listing? ==> forall p :: p in r.users ==> exists u :: u in table && p == Public(u)
  {
    if session.None? then Unauthorized
    else if !HasPermission(session.value, "users", "read") then Forbidden
    else if queryFails then ServerError
    else
      var sorted := SortDesc(table, CreatedAt);
      SortDescProps(table, CreatedAt);
      forall p | p in MapPublic(sorted) ensures exists u :: u in table && p == Public(u) {
        var k :| 0 <= k < |sorted| && MapPublic(sorted)[k] == p;
        assert multiset(sorted)[sorted[k]] > 0;
      }
      Listing(MapPublic(sorted))
  }

  predicate EmailsUnique(table: seq<UserRow>) {
    forall i, j :: 0 <= i < j < |table| ==> table[i].email != table[j].email
  }

  predicate EmailUsed(table: seq<UserRow>, email: string) {
    exists i :: 0 <= i < |table| && table[i].email == email
  }

  datatype PostResult = PostResult(reply: Reply, table: seq<UserRow>)

  /** POST. The body is None when it is not JSON (the parse throws inside
      the try, so 500). A role string outside the enumeration makes the
      insert fail, also 500. hash stands for bcrypt, newId and now for the
      values the database assigns. */
  function PostUser(session: Session, body: Option<NewUser>, table: seq<UserRow>,
                    hash: string -> string, newId: string, now: int): (r: PostResult)
    ensures r.table == table || r.reply.Created?
    ensures r.reply.Created? ==> |r.table| == |table| + 1 && r.table[..|table|] == table
                                 && Public(r.table[|table|]) == r.reply.user
  {
    if session.None? then PostResult(Unauthorized, table)
    else if !HasPermission(session.value, "users", "create") then PostResult(Forbidden, table)
    else if body.None? then PostResult(ServerError, table)
    else
      var b := body.value;
      if !TruthyStr(b.email) || !TruthyStr(b.password) || !TruthyStr(b.role) then PostResult(MissingFields, table)
      else if EmailUsed(table, b.email.value) then PostResult(EmailTaken, table)
      else match ParseRole(b.role.value)
        case None => PostResult(ServerError, table)
        case Some(role) =>
          var row := UserRow(newId, b.name, b.email.value, hash(b.password.value), role, b.department, true, now);
          PostResult(Created(Public(row)), table + [row])
  }

  /** Creating a user never breaks e-mail uniqueness. */
  lemma PostKeepsEmailsUnique(session: Session, body: Option<NewUser>, table: seq<UserRow>,
                              hash: string -> string, newId: string, now: int)
    requires EmailsUnique(table)
    ensures EmailsUnique(PostUser(session, body, table, hash, newId, now).table)
  {
    var r := PostUser(session, body, table, hash, newId, now);
    if r.reply.Created? {
      var t := r.table;
      forall i, j | 0 <= i < j < |t| ensures t[i].email != t[j].email {
        if j == |table| {
          assert t[i] == table[i];
          assert !EmailUsed(table, body.value.email.value);
        } else {
          assert t[i] == table[i] && t[j] == table[j];
        }
      }
    }
  }

  /** A user is created only for a session that may create users (so only
      SUPER_ADMIN or ADMIN), a body with e-mail, password and role, an unused
      e-mail and a known role; the new row is active and stores the hash. */
  lemma PostCreatesOnlyWhenAllowed(session: Session, body: Option<NewUser>, table: seq<UserRow>,
                                   hash: string -> string, newId: string, now: int)
    ensures var r := PostUser(session, body, table, hash, newId, now);
      r.reply.Created? <==>
        session.Some? && HasPermission(session.value, "users", "create") && body.Some?
        && TruthyStr(body.value.email) && TruthyStr(body.value.password) && TruthyStr(body.value.role)
        && !EmailUsed(table, body.value.email.value) && ParseRole(body.value.role.value).Some?
    ensures var r := PostUser(session, body, table, hash, newId, now);
      r.reply.Created? ==>
        (session.value == SuperAdmin || session.value == Admin)
        && r.table[|table|].isActive && r.table[|table|].email == body.value.email.value
        && r.table[|table|].password == hash(body.value.password.value)
  {
    if session.Some? {
      RestrictedPermissions(session.value, "create");
    }
  }

  /** A request whose e-mail is already present gets 409 and changes nothing. */
  lemma DuplicateEmailIs409(role: Role, body: NewUser, table: seq<UserRow>,
                            hash: string -> string, newId: string, now: int)
    requires HasPermission(role, "users", "create")
    requires TruthyStr(body.email) && TruthyStr(body.password) && TruthyStr(body.role)
    requires EmailUsed(table, body.email.value)
    ensures PostUser(Some(role), Some(body), table, hash, newId, now) == PostResult(EmailTaken, table)
  {
  }

  /** A listing is answered only to SUPER_ADMIN and ADMIN sessions, and
      only when the query succeeds. */
  lemma ListingOnlyForAdmins(session: Session, table: seq<UserRow>, queryFails: bool)
    ensures GetUsers(session, table, queryFails).Listing? <==>
      session.Some? && (session.value == SuperAdmin || session.value == Admin) && !queryFails
  {
    if session.Some? {
      RestrictedPermissions(session.value, "read");
    }
  }

  /** Whatever session it is answered to, a listing holds every row once,
      newest first. */
  lemma ListingIsTableNewestFirst(session: Session, table: seq<UserRow>, queryFails: bool)
    requires GetUsers(session, table, queryFails).Listing?
    ensures var l := GetUsers(session, table, queryFails).users;
      |l| == |table|
      && (forall i, j :: 0 <= i < j < |l| ==> l[i].createdAt >= l[j].createdAt)
      && (forall u :: u in table ==> Public(u) in l)
  {
    NewestFirst(table);
  }

  /** Both verbs answer 401 without a session user, and creation then
      changes nothing. */
  lemma NoSessionIs401(table: seq<UserRow>, queryFails: bool, body: Option<NewUser>,
                       hash: string -> string, newId: string, now: int)
    ensures Status(GetUsers(None, table, queryFails)) == 401
    ensures PostUser(None, body, table, hash, newId, now) == PostResult(Unauthorized, table)
  {
  }

  /** Every role but SUPER_ADMIN and ADMIN gets 403 from both verbs, and
      creation then changes nothing. */
  lemma OtherRolesAre403(role: Role, table: seq<UserRow>, queryFails: bool, body: Option<NewUser>,
                         hash: string -> string, newId: string, now: int)
    requires role != SuperAdmin && role != Admin
    ensures Status(GetUsers(Some(role), table, queryFails)) == 403
    ensures PostUser(Some(role), body, table, hash, newId, now) == PostResult(Forbidden, table)
  {
    RestrictedPermissions(role, "read");
    RestrictedPermissions(role, "create");
  }

  /** A permitted creation whose body lacks e-mail, password or role gets
      400 and changes nothing. */
  lemma MissingFieldsAre400(role: Role, body: NewUser, table: seq<UserRow>,
                            hash: string -> string, newId: string, now: int)
    requires HasPermission(role, "users", "create")
    requires !TruthyStr(body.email) || !TruthyStr(body.password) || !TruthyStr(body.role)
    ensures PostUser(Some(role), Some(body), table, hash, newId, now) == PostResult(MissingFields, table)
  {
  }

  /** The listing's rows: every user once, newest first. */
  lemma NewestFirst(table: seq<UserRow>)
    ensures var l := MapPublic(SortDesc(table, CreatedAt));
      |l| == |table|
      && (forall i, j :: 0 <= i < j < |l| ==> l[i].createdAt >= l[j].createdAt)
      && (forall u :: u in table ==> Public(u) in l)
  {
    var s := SortDesc(table, CreatedAt);
    SortDescProps(table, CreatedAt);
    var l := MapPublic(s);
    assert forall i :: 0 <= i < |l| ==> l[i].createdAt == CreatedAt(s[i]);
    forall u | u in table ensures Public(u) in l {
      assert multiset(s)[u] > 0;
      var k :| 0 <= k < |s| && s[k] == u;
      assert l[k] == Public(u);
    }
  }
}
