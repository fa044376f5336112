/** The traveler account controller: signup with its checks in order, login with its session
    effect, and the partial profile update whose SET list grows one supplied field at a time. */
module TravelerController {
  import opened Wrappers
  import opened Text
  import opened Http
  import opened Auth
  import opened Validation
  import opened SetLists
  import opened Accounts

  const MinPasswordLength: nat := 6
  const InvalidStateCode := "Invalid state code. Must be 2 letters."
  const NoFieldsToUpdate := "No fields to update"

  /** The signup form: `name`, `email` and `password` as the request body carries them. */
  datatype Credentials = Credentials(name: Option<string>, email: Option<string>, password: Option<string>)

  /** The `id, name, email` a signup answers with (`created_at` is not part of this model). */
  datatype AccountView = AccountView(id: nat, name: Option<string>, email: string)

  predicate Supplied(body: Credentials) {
    Truthy(body.name) && Truthy(body.email) && Truthy(body.password)
  }

  /** Every signup check passes: all three fields, a well-formed email, a long enough
      password and an email nobody has registered. */
  predicate SignupAccepted(rows: seq<Traveler>, body: Credentials) {
    Supplied(body) && IsValidEmail(body.email.value) && |body.password.value| >= MinPasswordLength
    && !TravelerEmailTaken(rows, body.email.value)
  }

  /** The inserted row: name, email and the hash; every other column NULL. */
  function NewTraveler(id: nat, body: Credentials, hashed: string): Traveler
    requires Supplied(body)
  {
    Traveler(id, body.name, body.email.value, Some(hashed), None, None, None, None, None, None, None, None, None)
  }

  /** `signup`: the checks run in the order required fields, email format, password length,
      registered email; the first that fails decides the answer and nothing is written. The
      session is not touched. `hashed` is what `bcrypt.hash` made of the password. */
  method Signup(table: TravelerTable, body: Credentials, hashed: string) returns (r: Reply<AccountView>)
    requires table.Valid()
    modifies table
    ensures table.Valid()
    ensures !Supplied(body) ==> r == Fail(400, "Name, email, and password are required")
    ensures Supplied(body) && !IsValidEmail(body.email.value) ==> r == Fail(400, "Invalid email format")
    ensures Supplied(body) && IsValidEmail(body.email.value) && |body.password.value| < MinPasswordLength ==>
      r == Fail(400, "Password must be at least 6 characters long")
    ensures Supplied(body) && IsValidEmail(body.email.value) && |body.password.value| >= MinPasswordLength
            && TravelerEmailTaken(old(table.rows), body.email.value) ==>
      r == Fail(400, "Email already exists")
    ensures r.Ok? <==> SignupAccepted(old(table.rows), body)
    ensures r.Fail? ==> table.rows == old(table.rows)
    ensures r.Ok? ==>
      var id := |old(table.rows)| + 1;
      && table.rows == old(table.rows) + [NewTraveler(id, body, hashed)]
      && r == Ok(201, AccountView(id, body.name, body.email.value))
  {
    if !Truthy(body.name) || !Truthy(body.email) || !Truthy(body.password) {
      return Fail(400, "Name, email, and password are required");
    }
    var email, password := body.email.value, body.password.value;
    if !IsValidEmail(email) {
      return Fail(400, "Invalid email format");
    }
    if |password| < MinPasswordLength {
      return Fail(400, "Password must be at least 6 characters long");
    }
    if TravelerByEmail(table.rows, email).Some? {
      return Fail(400, "Email already exists");
    }
    var id := |table.rows| + 1;
    table.rows := table.rows + [NewTraveler(id, body, hashed)];
    r := Ok(201, AccountView(id, body.name, email));
  }

  /** `login`: 400 without email or password, the same 401 for an unknown email and for a
      password `compare` rejects; on success the session is signed in as a traveler and the
      answer is the whole row with its password removed. */
  function Login(rows: seq<Traveler>, session: Session, email: Option<string>, password: Option<string>,
                 compare: (string, string) -> bool): (r: (Reply<Traveler>, Session))
    ensures !(Truthy(email) && Truthy(password)) ==> r.0 == Fail(400, "Email and password are required")
    ensures (Truthy(email) && Truthy(password) && !TravelerEmailTaken(rows, email.value)) ==>
      r.0 == Fail(401, InvalidCredentials)
    ensures (Truthy(email) && Truthy(password) && TravelerEmailTaken(rows, email.value)
             && !compare(password.value, TravelerHash(TravelerByEmail(rows, email.value).value))) ==>
      r.0 == Fail(401, InvalidCredentials)
    ensures r.0.Fail? ==> r.1 == session
    ensures r.0.Ok? <==>
      Truthy(email) && Truthy(password) && TravelerEmailTaken(rows, email.value)
      && compare(password.value, TravelerHash(TravelerByEmail(rows, email.value).value))
    ensures r.0.Ok? ==>
      && var t := TravelerByEmail(rows, email.value).value;
      && r.0 == Ok(200, t.(password := None))
      && r.1 == session.(travelerId := Some(t.id), userType := Some(TravelerType))
  {
    if !Truthy(email) || !Truthy(password) then (Fail(400, "Email and password are required"), session)
    else match TravelerByEmail(rows, email.value)
      case None => (Fail(401, InvalidCredentials), session)
      case Some(t) =>
        if !compare(password.value, TravelerHash(t)) then (Fail(401, InvalidCredentials), session)
        else (Ok(200, t.(password := None)), session.(travelerId := Some(t.id), userType := Some(TravelerType)))
  }

  /** The request body of `updateProfile`; None is a field the body leaves undefined. */
  datatype ProfilePatch = ProfilePatch(
    name: Option<string>,
    phone: Option<string>,
    profilePicture: Option<string>,
    city: Option<string>,
    state: Option<string>,
    country: Option<string>,
    about: Option<string>,
    languages: Option<string>,
    gender: Option<string>)

  /** The patch's fields in the handler's column order. */
  function PatchFields(p: ProfilePatch): (r: seq<Option<string>>)
    ensures |r| == 9
  {
    [p.name, p.phone, p.profilePicture, p.city, p.state, p.country, p.about, p.languages, p.gender]
  }

  /** The columns `updateProfile` reads back (`created_at` and `updated_at` are not part of
      this model). */
  datatype TravelerRecord = TravelerRecord(
    id: nat,
    name: Option<string>,
    email: string,
    phone: Option<string>,
    profilePicture: Option<string>,
    city: Option<string>,
    state: Option<string>,
    country: Option<string>,
    about: Option<string>,
    languages: Option<string>,
    gender: Option<string>)

  function RecordOf(t: Traveler): TravelerRecord {
    TravelerRecord(t.id, t.name, t.email, t.phone, t.profilePicture, t.city, t.state, t.country,
                   t.about, t.languages, t.gender)
  }

  /** The pushes for name, phone and profile picture. */
  method PushContact(p: ProfilePatch) returns (updates: seq<Write>)
    ensures updates == Expected(PatchFields(p), 3)
  {
    ghost var fields := PatchFields(p);
    updates := [];
    if p.name.Some? { updates := updates + [Write(0, p.name.value)]; }
    assert updates == Expected(fields, 1);
    if p.phone.Some? { updates := updates + [Write(1, p.phone.value)]; }
    assert updates == Expected(fields, 2);
    if p.profilePicture.Some? { updates := updates + [Write(2, p.profilePicture.value)]; }
  }

  /** The pushes for city, state and country, after the first three columns. */
  method PushPlace(p: ProfilePatch, before: seq<Write>) returns (updates: seq<Write>)
    requires before == Expected(PatchFields(p), 3)
    ensures updates == Expected(PatchFields(p), 6)
  {
    ghost var fields := PatchFields(p);
    updates := before;
    if p.city.Some? { updates := updates + [Write(3, p.city.value)]; }
    assert updates == Expected(fields, 4);
    if p.state.Some? { updates := updates + [Write(4, p.state.value)]; }
    assert updates == Expected(fields, 5);
    if p.country.Some? { updates := updates + [Write(5, p.country.value)]; }
  }

  /** The pushes for about, languages and gender, after the first six columns. */
  method PushPersonal(p: ProfilePatch, before: seq<Write>) returns (updates: seq<Write>)
    requires before == Expected(PatchFields(p), 6)
    ensures updates == Expected(PatchFields(p), 9)
  {
    ghost var fields := PatchFields(p);
    updates := before;
    if p.about.Some? { updates := updates + [Write(6, p.about.value)]; }
    assert updates == Expected(fields, 7);
    if p.languages.Some? { updates := updates + [Write(7, p.languages.value)]; }
    assert updates == Expected(fields, 8);
    if p.gender.Some? { updates := updates + [Write(8, p.gender.value)]; }
  }

  /** The nine `if (field !== undefined)` pushes: the SET list holds one item per supplied
      field, in column order. */
  method BuildUpdates(p: ProfilePatch) returns (updates: seq<Write>)
    ensures updates == Expected(PatchFields(p), 9)
  {
    updates := PushContact(p);
    updates := PushPlace(p, updates);
    updates := PushPersonal(p, updates);
  }

  /** Does the `WHERE id = ?` of the session's traveler id match a row? An undefined id
      matches none. */
  predicate Targets(rows: seq<Traveler>, travelerId: Option<nat>) {
    travelerId.Some? && 1 <= travelerId.value <= |rows|
  }

  predicate NothingDefined(p: ProfilePatch) {
    forall c :: 0 <= c < 9 ==> PatchFields(p)[c].None?
  }

  predicate BadState(p: ProfilePatch) {
    Truthy(p.state) && !IsValidStateCode(p.state.value)
  }

  /** The UPDATE itself: row `i` takes the SET list; emails, and with them the table's
      invariant, are untouched. */
  method WriteRow(table: TravelerTable, i: nat, updates: seq<Write>)
    requires table.Valid() && i < |table.rows|
    modifies table
    ensures table.Valid()
    ensures table.rows == old(table.rows)[i := ApplyTravelerWrites(old(table.rows)[i], updates)]
  {
    ghost var before := table.rows;
    TravelerWritesKeepIdentity(table.rows[i], updates);
    table.rows := table.rows[i := ApplyTravelerWrites(table.rows[i], updates)];
    forall a, b | 0 <= a < b < |table.rows| ensures table.rows[a].email != table.rows[b].email {
      assert table.rows[a].email == before[a].email && table.rows[b].email == before[b].email;
    }
  }

  /** The UPDATE of a patch's SET list on row `i`: the row takes exactly the supplied columns,
      keeps its identity, and `record` is the row as read back. */
  method WritePatch(table: TravelerTable, i: nat, p: ProfilePatch, updates: seq<Write>)
    returns (record: TravelerRecord)
    requires table.Valid() && i < |table.rows|
    requires updates == Expected(PatchFields(p), 9)
    modifies table
    ensures table.Valid()
    ensures
      var t := ApplyTravelerWrites(old(table.rows)[i], updates);
      && table.rows == old(table.rows)[i := t]
      && record == RecordOf(t)
      && SameTravelerIdentity(t, old(table.rows)[i])
      && (forall c :: 0 <= c < 9 ==>
            TravelerColumn(t, c) == if PatchFields(p)[c].Some? then PatchFields(p)[c] else TravelerColumn(old(table.rows)[i], c))
  {
    TravelerWritesKeepIdentity(table.rows[i], updates);
    TravelerWritesEffect(table.rows[i], PatchFields(p), 9);
    WriteRow(table, i, updates);
    record := RecordOf(table.rows[i]);
  }

  /** `updateProfile`: a supplied state that is non-empty and not two letters is refused
      before anything is written; a patch with no field defined is refused; otherwise the SET
      list holds exactly the defined fields in column order, the session's row (if any) gets
      exactly those columns, and the answer is the row as read back. `statement` is the SET
      list, empty when no statement is issued. */
  method UpdateProfile(table: TravelerTable, travelerId: Option<nat>, p: ProfilePatch)
    returns (r: Reply<Option<TravelerRecord>>, statement: seq<Write>)
    requires table.Valid()
    modifies table
    ensures table.Valid()
    ensures BadState(p) ==> r == Fail(400, InvalidStateCode)
    ensures !BadState(p) && NothingDefined(p) ==> r == Fail(400, NoFieldsToUpdate)
    ensures r.Ok? <==> !BadState(p) && !NothingDefined(p)
    ensures r.Fail? ==> table.rows == old(table.rows) && statement == []
    ensures r.Ok? ==>
      && r.status == 200 && statement != []
      && Ascending(statement)
      && (forall w :: w in statement <==> w.column < 9 && PatchFields(p)[w.column] == Some(w.value))
    ensures r.Ok? && !Targets(old(table.rows), travelerId) ==> table.rows == old(table.rows) && r.body.None?
    ensures r.Ok? && Targets(old(table.rows), travelerId) ==>
      var i := travelerId.value - 1;
      var t := ApplyTravelerWrites(old(table.rows)[i], statement);
      && table.rows == old(table.rows)[i := t]
      && r.body == Some(RecordOf(t))
      && SameTravelerIdentity(t, old(table.rows)[i])
      && (forall c :: 0 <= c < 9 ==>
            TravelerColumn(t, c) == if PatchFields(p)[c].Some? then PatchFields(p)[c] else TravelerColumn(old(table.rows)[i], c))
  {
    statement := [];
    if Truthy(p.state) && !IsValidStateCode(p.state.value) {
      return Fail(400, InvalidStateCode), [];
    }
    var updates := BuildUpdates(p);
    ExpectedEmpty(PatchFields(p), 9);
    if updates == [] {
      return Fail(400, NoFieldsToUpdate), [];
    }
    ExpectedOrdered(PatchFields(p), 9);
    ExpectedExact(PatchFields(p), 9);
    statement := updates;
    if Targets(table.rows, travelerId) {
      var record := WritePatch(table, travelerId.value - 1, p, updates);
      r := Ok(200, Some(record));
    } else {
      r := Ok(200, None);
    }
  }

  /** An empty-string state is not validated but is still written. */
  method EmptyStateIsWritten(table: TravelerTable, id: nat)
    requires table.Valid() && 1 <= id <= |table.rows|
    modifies table
    ensures |table.rows| == |old(table.rows)| && table.rows[id - 1].state == Some("")
  {
    var p := ProfilePatch(None, None, None, None, Some(""), None, None, None, None);
    assert !NothingDefined(p) by {
      assert PatchFields(p)[4].Some?;
    }
    var r, statement := UpdateProfile(table, Some(id), p);
    assert TravelerColumn(table.rows[id - 1], 4) == Some("");
    assert table.rows[id - 1].state == Some("");
  }
}
