/** The owner account controller: signup with its checks in order, login with its session
    effect, the profile read, and the partial profile update over four columns. */
module OwnerController {
  import opened Wrappers
  import opened Text
  import opened Http
  import opened Auth
  import opened Validation
  import opened SetLists
  import opened Accounts

  const MinPasswordLength: nat := 6

  /** The signup form: `name`, `email` and `password` as the request body carries them. */
  datatype Credentials = Credentials(name: Option<string>, email: Option<string>, password: Option<string>)

  datatype AccountView = AccountView(id: nat, name: Option<string>, email: string)

  predicate Supplied(body: Credentials) {
    Truthy(body.name) && Truthy(body.email) && Truthy(body.password)
  }

  predicate SignupAccepted(rows: seq<Owner>, body: Credentials) {
    Supplied(body) && IsValidEmail(body.email.value) && |body.password.value| >= MinPasswordLength
    && !OwnerEmailTaken(rows, body.email.value)
  }

  function NewOwner(id: nat, body: Credentials, hashed: string): Owner
    requires Supplied(body)
  {
    Owner(id, body.name, body.email.value, Some(hashed), None, None, None)
  }

  /** `signup`: required fields, email format, password length, registered email, in that
      order; the first that fails decides the answer and nothing is written. */
  method Signup(table: OwnerTable, body: Credentials, hashed: string) returns (r: Reply<AccountView>)
    requires table.Valid()
    modifies table
    ensures table.Valid()
    ensures !Supplied(body) ==> r == Fail(400, "Name, email, and password are required")
    ensures Supplied(body) && !IsValidEmail(body.email.value) ==> r == Fail(400, "Invalid email format")
    ensures Supplied(body) && IsValidEmail(body.email.value) && |body.password.value| < MinPasswordLength ==>
      r == Fail(400, "Password must be at least 6 characters long")
    ensures Supplied(body) && IsValidEmail(body.email.value) && |body.password.value| >= MinPasswordLength
            && OwnerEmailTaken(old(table.rows), body.email.value) ==>
      r == Fail(400, "Email already exists")
    ensures r.Ok? <==> SignupAccepted(old(table.rows), body)
    ensures r.Fail? ==> table.rows == old(table.rows)
    ensures r.Ok? ==>
      var id := |old(table.rows)| + 1;
      && table.rows == old(table.rows) + [NewOwner(id, body, hashed)]
      && r == Ok(201, AccountView(id, body.name, body.email.value))
  {
    if !Truthy(body.name) || !Truthy(body.email) || !Truthy(body.password) {
      return Fail(400, "Name, email, and password are required");
    }
    var email, password := body.email.value, body.password.value;
    if !IsValidEmail(email) {
      return Fail(400, "Invalid email format");
    }
    if |password| < MinPasswordLength {
      return Fail(400, "Password must be at least 6 characters long");
    }
    if OwnerByEmail(table.rows, email).Some? {
      return Fail(400, "Email already exists");
    }
    var id := |table.rows| + 1;
    table.rows := table.rows + [NewOwner(id, body, hashed)];
    r := Ok(201, AccountView(id, body.name, email));
  }

  /** `login`: 400 without email or password, the same 401 for an unknown email and for a
      password `compare` rejects; on success the session holds the owner's id and type
      `owner`, and the answer is the row without its password. */
  function Login(rows: seq<Owner>, session: Session, email: Option<string>, password: Option<string>,
                 compare: (string, string) -> bool): (r: (Reply<Owner>, Session))
    ensures !(Truthy(email) && Truthy(password)) ==> r.0 == Fail(400, "Email and password are required")
    ensures (Truthy(email) && Truthy(password) && !OwnerEmailTaken(rows, email.value)) ==>
      r.0 == Fail(401, InvalidCredentials)
    ensures (Truthy(email) && Truthy(password) && OwnerEmailTaken(rows, email.value)
             && !compare(password.value, OwnerHash(OwnerByEmail(rows, email.value).value))) ==>
      r.0 == Fail(401, InvalidCredentials)
    ensures r.0.Fail? ==> r.1 == session
    ensures r.0.Ok? <==>
      Truthy(email) && Truthy(password) && OwnerEmailTaken(rows, email.value)
      && compare(password.value, OwnerHash(OwnerByEmail(rows, email.value).value))
    ensures r.0.Ok? ==>
      && var o := OwnerByEmail(rows, email.value).value;
      && r.0 == Ok(200, o.(password := None))
      && r.1 == session.(ownerId := Some(o.id), userType := Some(OwnerType))
  {
    if !Truthy(email) || !Truthy(password) then (Fail(400, "Email and password are required"), session)
    else match OwnerByEmail(rows, email.value)
      case None => (Fail(401, InvalidCredentials), session)
      case Some(o) =>
        if !compare(password.value, OwnerHash(o)) then (Fail(401, InvalidCredentials), session)
        else (Ok(200, o.(password := None)), session.(ownerId := Some(o.id), userType := Some(OwnerType)))
  }

  /** A successful owner login passes the owner guard, and leaves the traveler guard as it
      was. */
  lemma LoginPassesOwnerGuard(rows: seq<Owner>, session: Session, email: Option<string>, password: Option<string>,
                              compare: (string, string) -> bool)
    requires OwnerRowsOk(rows)
    requires Login(rows, session, email, password, compare).0.Ok?
    ensures RequireOwnerAuth(Login(rows, session, email, password, compare).1).Pass?
    ensures RequireTravelerAuth(Login(rows, session, email, password, compare).1) == RequireTravelerAuth(session)
  {
    var o := OwnerByEmail(rows, email.value).value;
    var i :| 0 <= i < |rows| && rows[i] == o;
    assert o.id == i + 1;
  }

  /** The columns `getProfile` and `updateProfile` read back (timestamps are not part of this
      model). */
  datatype OwnerRecord = OwnerRecord(
    id: nat,
    name: Option<string>,
    email: string,
    phone: Option<string>,
    profilePicture: Option<string>,
    about: Option<string>)

  function RecordOf(o: Owner): OwnerRecord {
    OwnerRecord(o.id, o.name, o.email, o.phone, o.profilePicture, o.about)
  }

  /** `getProfile`: the session owner's row, 404 when no row has the id (an undefined id
      matches none). */
  function GetProfile(rows: seq<Owner>, ownerId: Option<nat>): (r: Reply<OwnerRecord>)
    requires OwnerRowsOk(rows)
    ensures r.Fail? <==> ownerId.None? || OwnerById(rows, ownerId.value).None?
    ensures r.Fail? ==> r == Fail(404, "Owner not found")
    ensures r.Ok? ==> r.body.id == ownerId.value && r.body == RecordOf(rows[ownerId.value - 1])
  {
    if ownerId.None? then Fail(404, "Owner not found")
    else match OwnerById(rows, ownerId.value)
      case None => Fail(404, "Owner not found")
      case Some(o) => Ok(200, RecordOf(o))
  }

  /** The request body of `updateProfile`; None is a field the body leaves undefined. */
  datatype ProfilePatch = ProfilePatch(
    name: Option<string>,
    phone: Option<string>,
    profilePicture: Option<string>,
    about: Option<string>)

  function PatchFields(p: ProfilePatch): (r: seq<Option<string>>)
    ensures |r| == 4
  {
    [p.name, p.phone, p.profilePicture, p.about]
  }

  predicate NothingDefined(p: ProfilePatch) {
    forall c :: 0 <= c < 4 ==> PatchFields(p)[c].None?
  }

  /** The four `if (field !== undefined)` pushes. */
  method BuildUpdates(p: ProfilePatch) returns (updates: seq<Write>)
    ensures updates == Expected(PatchFields(p), 4)
  {
    ghost var fields := PatchFields(p);
    updates := [];
    if p.name.Some? { updates := updates + [Write(0, p.name.value)]; }
    assert updates == Expected(fields, 1);
    if p.phone.Some? { updates := updates + [Write(1, p.phone.value)]; }
    assert updates == Expected(fields, 2);
    if p.profilePicture.Some? { updates := updates + [Write(2, p.profilePicture.value)]; }
    assert updates == Expected(fields, 3);
    if p.about.Some? { updates := updates + [Write(3, p.about.value)]; }
  }

  predicate Targets(rows: seq<Owner>, ownerId: Option<nat>) {
    ownerId.Some? && 1 <= ownerId.value <= |rows|
  }

  /** The UPDATE itself: row `i` takes the SET list; emails are untouched. */
  method WriteRow(table: OwnerTable, i: nat, updates: seq<Write>)
    requires table.Valid() && i < |table.rows|
    modifies table
    ensures table.Valid()
    ensures table.rows == old(table.rows)[i := ApplyOwnerWrites(old(table.rows)[i], updates)]
  {
    ghost var before := table.rows;
    OwnerWritesKeepIdentity(table.rows[i], updates);
    table.rows := table.rows[i := ApplyOwnerWrites(table.rows[i], updates)];
    forall a, b | 0 <= a < b < |table.rows| ensures table.rows[a].email != table.rows[b].email {
      assert table.rows[a].email == before[a].email && table.rows[b].email == before[b].email;
    }
  }

  /** `updateProfile`: only name, phone, profilePicture and about are considered; none of
      them defined gives 400 and no write; otherwise the SET list holds exactly the defined
      ones in that order, the session owner's row (if any) gets exactly those columns and
      keeps the rest, and the answer is the row as read back. */
  method UpdateProfile(table: OwnerTable, ownerId: Option<nat>, p: ProfilePatch)
    returns (r: Reply<Option<OwnerRecord>>, statement: seq<Write>)
    requires table.Valid()
    modifies table
    ensures table.Valid()
    ensures r.Fail? <==> NothingDefined(p)
    ensures r.Fail? ==> r == Fail(400, "No fields to update") && table.rows == old(table.rows) && statement == []
    ensures r.Ok? ==>
      && r.status == 200
      && Ascending(statement)
      && (forall w :: w in statement <==> w.column < 4 && PatchFields(p)[w.column] == Some(w.value))
    ensures r.Ok? && !Targets(old(table.rows), ownerId) ==> table.rows == old(table.rows) && r.body.None?
    ensures r.Ok? && Targets(old(table.rows), ownerId) ==>
      var i := ownerId.value - 1;
      var o := ApplyOwnerWrites(old(table.rows)[i], statement);
      && table.rows == old(table.rows)[i := o]
      && r.body == Some(RecordOf(o))
      && o.(name := old(table.rows)[i].name, phone := old(table.rows)[i].phone,
            profilePicture := old(table.rows)[i].profilePicture, about := old(table.rows)[i].about) == old(table.rows)[i]
      && (forall c :: 0 <= c < 4 ==>
            OwnerColumn(o, c) == if PatchFields(p)[c].Some? then PatchFields(p)[c] else OwnerColumn(old(table.rows)[i], c))
  {
    var updates := BuildUpdates(p);
    ExpectedEmpty(PatchFields(p), 4);
    if updates == [] {
      return Fail(400, "No fields to update"), [];
    }
    ExpectedOrdered(PatchFields(p), 4);
    ExpectedExact(PatchFields(p), 4);
    statement := updates;
    if Targets(table.rows, ownerId) {
      var i := ownerId.value - 1;
      OwnerWritesEffect(table.rows[i], PatchFields(p), 4);
      WriteRow(table, i, updates);
      r := Ok(200, Some(RecordOf(table.rows[i])));
    } else {
      r := Ok(200, None);
    }
  }

  /** Updating only the phone and reading the profile back shows the new phone and the old
      name, picture and about. */
  method UpdatePhoneThenGet(table: OwnerTable, id: nat, phone: string) returns (profile: Reply<OwnerRecord>)
    requires table.Valid() && 1 <= id <= |table.rows|
    modifies table
    ensures var before := old(table.rows[id - 1]);
      profile == Ok(200, OwnerRecord(id, before.name, before.email, Some(phone), before.profilePicture, before.about))
  {
    ghost var before := table.rows[id - 1];
    var p := ProfilePatch(None, Some(phone), None, None);
    assert !NothingDefined(p) by {
      assert PatchFields(p)[1].Some?;
    }
    var r, statement := UpdateProfile(table, Some(id), p);
    assert OwnerColumn(table.rows[id - 1], 1) == Some(phone);
    assert OwnerColumn(table.rows[id - 1], 0) == before.name;
    profile := GetProfile(table.rows, Some(id));
    assert profile == Ok(200, OwnerRecord(id, before.name, before.email, Some(phone), before.profilePicture, before.about));
  }
}
