/** The traveler router that the server mounts: its own session guard, signup and login with
    their session effects, the profile read and overwrite, and the profile-image upload and
    removal. Its JSON answers carry the text under `error`; `Reply.message` holds it. */
module TravelerRoutes {
  import opened Wrappers
  import opened Text
  import opened Http
  import opened Auth
  import opened Accounts

  const AuthenticationRequired := "Authentication required"

  /** The router's guard: it passes exactly when the session carries a traveler id. */
  function RequireTravelerAuth(session: Session): (g: Guard)
    ensures g.Pass? <==> IsSet(session.travelerId)
    ensures g.Reject? ==> g == Reject(401, AuthenticationRequired)
  {
    if !IsSet(session.travelerId) then Reject(401, AuthenticationRequired) else Pass
  }

  /** The session of a signed-in traveler. */
  function SignedIn(session: Session, id: nat): Session {
    session.(travelerId := Some(id), userType := Some(TravelerType))
  }

  datatype SignupBody = SignupBody(
    name: Option<string>,
    email: Option<string>,
    password: Option<string>,
    city: Option<string>,
    state: Option<string>,
    country: Option<string>)

  /** The row the router inserts for a signup; `hashed` is what `bcrypt.hash` made of the
      password. Columns the form does not send stay NULL. */
  function SignupRow(id: nat, body: SignupBody, hashed: string): Traveler
    requires Truthy(body.email)
  {
    Traveler(id, body.name, body.email.value, Some(hashed), None, None,
             body.city, body.state, body.country, None, None, None, None)
  }

  /** `POST /signup`: 400 when name, email or password is missing, 400 for a registered email;
      otherwise the new row, its id in the answer (201) and the session signed in. No email
      format or password length is checked here. */
  method Signup(table: TravelerTable, session: Session, body: SignupBody, hashed: string)
    returns (r: Reply<nat>, after: Session)
    requires table.Valid()
    modifies table
    ensures table.Valid()
    ensures !(Truthy(body.name) && Truthy(body.email) && Truthy(body.password)) ==>
      r == Fail(400, "Name, email, and password are required")
    ensures (Truthy(body.name) && Truthy(body.email) && Truthy(body.password)
             && TravelerEmailTaken(old(table.rows), body.email.value)) ==>
      r == Fail(400, "Email already registered")
    ensures r.Ok? <==>
      Truthy(body.name) && Truthy(body.email) && Truthy(body.password)
      && !TravelerEmailTaken(old(table.rows), body.email.value)
    ensures r.Fail? ==> table.rows == old(table.rows) && after == session
    ensures r.Ok? ==>
      && r.status == 201 && r.body == |old(table.rows)| + 1
      && table.rows == old(table.rows) + [SignupRow(r.body, body, hashed)]
      && after == SignedIn(session, r.body)
  {
    if !Truthy(body.name) || !Truthy(body.email) || !Truthy(body.password) {
      return Fail(400, "Name, email, and password are required"), session;
    }
    if TravelerByEmail(table.rows, body.email.value).Some? {
      return Fail(400, "Email already registered"), session;
    }
    var id := |table.rows| + 1;
    table.rows := table.rows + [SignupRow(id, body, hashed)];
    r, after := Ok(201, id), SignedIn(session, id);
  }

  /** What the router's login answers with. */
  datatype TravelerSummary = TravelerSummary(id: nat, name: Option<string>, email: string)

  function Summary(t: Traveler): TravelerSummary {
    TravelerSummary(t.id, t.name, t.email)
  }

  /** `POST /login`: 400 without email or password; an unknown email and a wrong password
      both give 401 with one text; otherwise the session is signed in. `compare` is
      `bcrypt.compare`. */
  function Login(rows: seq<Traveler>, session: Session, email: Option<string>, password: Option<string>,
                 compare: (string, string) -> bool): (r: (Reply<TravelerSummary>, Session))
    ensures !(Truthy(email) && Truthy(password)) ==> r.0 == Fail(400, "Email and password are required")
    ensures (Truthy(email) && Truthy(password) && !TravelerEmailTaken(rows, email.value)) ==>
      r.0 == Fail(401, InvalidCredentials)
    ensures (Truthy(email) && Truthy(password) && TravelerEmailTaken(rows, email.value)
             && !compare(password.value, TravelerHash(TravelerByEmail(rows, email.value).value))) ==>
      r.0 == Fail(401, InvalidCredentials)
    ensures r.0.Fail? ==> r.1 == session
    ensures r.0.Ok? <==>
      Truthy(email) && Truthy(password) && TravelerEmailTaken(rows, email.value)
      && compare(password.value, TravelerHash(TravelerByEmail(rows, email.value).value))
    ensures r.0.Ok? ==>
      && var t := TravelerByEmail(rows, email.value).value;
      && r.0 == Ok(200, Summary(t)) && r.0.body.email == email.value
      && r.1 == SignedIn(session, t.id)
  {
    if !Truthy(email) || !Truthy(password) then (Fail(400, "Email and password are required"), session)
    else match TravelerByEmail(rows, email.value)
      case None => (Fail(401, InvalidCredentials), session)
      case Some(t) =>
        if !compare(password.value, TravelerHash(t)) then (Fail(401, InvalidCredentials), session)
        else (Ok(200, Summary(t)), SignedIn(session, t.id))
  }

  /** `POST /logout`: behind the guard, the session is destroyed. */
  function Logout(session: Session): (r: (Reply<()>, Session))
    ensures r.0.Ok? <==> IsSet(session.travelerId)
    ensures r.0.Ok? ==> r.1 == EmptySession
    ensures r.0.Fail? ==> r == (Fail(401, AuthenticationRequired), session)
  {
    match RequireTravelerAuth(session)
    case Reject(status, message) => (Fail(status, message), session)
    case Pass => (Ok(200, ()), EmptySession)
  }

  /** The columns `GET /profile` selects (`created_at` is not part of this model). */
  datatype TravelerProfile = TravelerProfile(
    id: nat,
    name: Option<string>,
    email: string,
    city: Option<string>,
    state: Option<string>,
    country: Option<string>,
    about: Option<string>,
    languages: Option<string>,
    profileImage: Option<string>)

  function ProfileOf(t: Traveler): TravelerProfile {
    TravelerProfile(t.id, t.name, t.email, t.city, t.state, t.country, t.about, t.languages, t.profileImage)
  }

  /** `GET /profile`: the signed-in traveler's selected columns, 404 if no row has the id. */
  function GetProfile(rows: seq<Traveler>, session: Session): (r: Reply<TravelerProfile>)
    requires TravelerRowsOk(rows)
    ensures !IsSet(session.travelerId) ==> r == Fail(401, AuthenticationRequired)
    ensures IsSet(session.travelerId) && TravelerById(rows, session.travelerId.value).None? ==>
      r == Fail(404, "Traveler not found")
    ensures r.Ok? <==> IsSet(session.travelerId) && TravelerById(rows, session.travelerId.value).Some?
    ensures r.Ok? ==>
      && IsSet(session.travelerId) && 1 <= session.travelerId.value <= |rows|
      && var t := rows[session.travelerId.value - 1];
      && r.body.id == session.travelerId.value && r.body.email == t.email && r.body.name == t.name
      && r.body.city == t.city && r.body.state == t.state && r.body.country == t.country
      && r.body.about == t.about && r.body.languages == t.languages && r.body.profileImage == t.profileImage
  {
    match RequireTravelerAuth(session)
    case Reject(status, message) => Fail(status, message)
    case Pass =>
      match TravelerById(rows, session.travelerId.value)
      case None => Fail(404, "Traveler not found")
      case Some(t) => Ok(200, ProfileOf(t))
  }

  /** Overwriting the profile and reading it back gives the six written columns as sent. */
  lemma UpdateThenGetProfile(rows: seq<Traveler>, session: Session, body: ProfileBody)
    requires TravelerRowsOk(rows)
    requires IsSet(session.travelerId) && session.travelerId.value <= |rows|
    ensures var id := session.travelerId.value;
      var after := rows[id - 1 := Overwritten(rows[id - 1], body)];
      TravelerRowsOk(after) &&
      GetProfile(after, session) == Ok(200, ProfileOf(rows[id - 1]).(name := body.name, city := body.city,
        state := body.state, country := body.country, about := body.about, languages := body.languages))
  {
    var id := session.travelerId.value;
    var after := rows[id - 1 := Overwritten(rows[id - 1], body)];
    assert TravelerRowsOk(after) by {
      forall i, j | 0 <= i < j < |after| ensures after[i].email != after[j].email {
        assert after[i].email == rows[i].email && after[j].email == rows[j].email;
      }
    }
  }

  datatype ProfileBody = ProfileBody(
    name: Option<string>,
    city: Option<string>,
    state: Option<string>,
    country: Option<string>,
    about: Option<string>,
    languages: Option<string>)

  /** The row after the router's profile statement: all six columns are written, and a field
      the body leaves out is written as NULL. */
  function Overwritten(t: Traveler, body: ProfileBody): Traveler {
    t.(name := body.name, city := body.city, state := body.state, country := body.country,
       about := body.about, languages := body.languages)
  }

  /** `PUT /profile`: behind the guard, the six columns are overwritten; the answer is 200 even
      when no row carries the session's id. */
  method UpdateProfile(table: TravelerTable, session: Session, body: ProfileBody) returns (r: Reply<()>)
    requires table.Valid()
    modifies table
    ensures table.Valid()
    ensures !IsSet(session.travelerId) ==> r == Fail(401, AuthenticationRequired) && table.rows == old(table.rows)
    ensures IsSet(session.travelerId) ==> r == Ok(200, ())
    ensures IsSet(session.travelerId) ==>
      var id := session.travelerId.value;
      if 1 <= id <= |old(table.rows)| then
        table.rows == old(table.rows)[id - 1 := Overwritten(old(table.rows)[id - 1], body)]
      else table.rows == old(table.rows)
  {
    if !IsSet(session.travelerId) {
      return Fail(401, AuthenticationRequired);
    }
    var id := session.travelerId.value;
    if 1 <= id <= |table.rows| {
      table.rows := table.rows[id - 1 := Overwritten(table.rows[id - 1], body)];
    }
    r := Ok(200, ());
  }

  /** The upload limit on the data-URI text: 2 MiB of base64. */
  const MaxImageLength: nat := 2 * 1024 * 1024

  const ImageTypes: seq<string> := ["jpeg", "jpg", "png", "gif", "webp"]

  /** `/^data:image\/(jpeg|jpg|png|gif|webp);base64,/`: the text starts with the data-URI
      header of one of the five image types. */
  predicate IsImageDataUri(s: string) {
    exists i :: 0 <= i < |ImageTypes| && StartsWith(s, DataUriHeader(ImageTypes[i]))
  }

  function DataUriHeader(kind: string): string {
    "data:image/" + kind + ";base64,"
  }

  /** A PNG header is accepted; an SVG header, or a header without `;base64,`, is not. */
  lemma ImageDataUriExamples()
    ensures IsImageDataUri("data:image/png;base64,iVBOR")
    ensures !IsImageDataUri("data:image/svg+xml;base64,PHN2Zz")
    ensures !IsImageDataUri("data:image/png,iVBOR")
  {
    assert StartsWith("data:image/png;base64,iVBOR", DataUriHeader(ImageTypes[2]));
    forall i | 0 <= i < |ImageTypes|
      ensures !StartsWith("data:image/svg+xml;base64,PHN2Zz", DataUriHeader(ImageTypes[i]))
      ensures !StartsWith("data:image/png,iVBOR", DataUriHeader(ImageTypes[i]))
    {
      var h := DataUriHeader(ImageTypes[i]);
      assert "data:image/svg+xml;base64,PHN2Zz"[11] != h[11];
      if i == 2 {
        assert "data:image/png,iVBOR"[14] != h[14];
      } else {
        assert "data:image/png,iVBOR"[11] != h[11];
      }
    }
  }

  /** `POST /profile/image`: behind the guard, 400 for missing data, for text that is not an
      image data URI, and for text longer than the limit, in that order; otherwise the text is
      stored unchanged and echoed back. */
  method UploadImage(table: TravelerTable, session: Session, imageData: Option<string>) returns (r: Reply<string>)
    requires table.Valid()
    modifies table
    ensures table.Valid()
    ensures !IsSet(session.travelerId) ==> r == Fail(401, AuthenticationRequired)
    ensures IsSet(session.travelerId) && !Truthy(imageData) ==> r == Fail(400, "No image data provided")
    ensures IsSet(session.travelerId) && Truthy(imageData) && !IsImageDataUri(imageData.value) ==>
      r == Fail(400, "Invalid image format. Please upload JPEG, PNG, GIF, or WebP")
    ensures IsSet(session.travelerId) && Truthy(imageData) && IsImageDataUri(imageData.value)
            && |imageData.value| > MaxImageLength ==>
      r == Fail(400, "Image too large. Maximum size is 1.5MB")
    ensures r.Ok? <==>
      IsSet(session.travelerId) && Truthy(imageData) && IsImageDataUri(imageData.value)
      && |imageData.value| <= MaxImageLength
    ensures r.Fail? ==> table.rows == old(table.rows)
    ensures r.Ok? ==> r == Ok(200, imageData.value)
    ensures r.Ok? ==>
      var id := session.travelerId.value;
      if 1 <= id <= |old(table.rows)| then
        table.rows == old(table.rows)[id - 1 := old(table.rows)[id - 1].(profileImage := imageData)]
      else table.rows == old(table.rows)
  {
    if !IsSet(session.travelerId) {
      return Fail(401, AuthenticationRequired);
    }
    if !Truthy(imageData) {
      return Fail(400, "No image data provided");
    }
    var data := imageData.value;
    if !IsImageDataUri(data) {
      return Fail(400, "Invalid image format. Please upload JPEG, PNG, GIF, or WebP");
    }
    if |data| > MaxImageLength {
      return Fail(400, "Image too large. Maximum size is 1.5MB");
    }
    var id := session.travelerId.value;
    if 1 <= id <= |table.rows| {
      table.rows := table.rows[id - 1 := table.rows[id - 1].(profileImage := Some(data))];
    }
    r := Ok(200, data);
  }

  /** `DELETE /profile/image`: behind the guard, the profile image becomes NULL. */
  method DeleteImage(table: TravelerTable, session: Session) returns (r: Reply<()>)
    requires table.Valid()
    modifies table
    ensures table.Valid()
    ensures r.Ok? <==> IsSet(session.travelerId)
    ensures r.Fail? ==> r == Fail(401, AuthenticationRequired) && table.rows == old(table.rows)
    ensures r.Ok? ==>
      var id := session.travelerId.value;
      if 1 <= id <= |old(table.rows)| then
        table.rows == old(table.rows)[id - 1 := old(table.rows)[id - 1].(profileImage := None)]
      else table.rows == old(table.rows)
  {
    if !IsSet(session.travelerId) {
      return Fail(401, AuthenticationRequired);
    }
    var id := session.travelerId.value;
    if 1 <= id <= |table.rows| {
      table.rows := table.rows[id - 1 := table.rows[id - 1].(profileImage := None)];
    }
    r := Ok(200, ());
  }

  /** `GET /check-auth`: authenticated exactly when the guard passes and the session's id
      names a row. */
  function CheckAuth(rows: seq<Traveler>, session: Session): (r: Reply<TravelerSummary>)
    requires TravelerRowsOk(rows)
    ensures r.Ok? <==> IsSet(session.travelerId) && TravelerById(rows, session.travelerId.value).Some?
    ensures r.Ok? ==> r.body == Summary(rows[session.travelerId.value - 1])
    ensures r.Fail? ==> r.status == 401
  {
    match RequireTravelerAuth(session)
    case Reject(status, message) => Fail(status, message)
    case Pass =>
      match TravelerById(rows, session.travelerId.value)
      case None => Fail(401, "")
      case Some(t) => Ok(200, Summary(t))
  }

  /** Signing up and then logging in with the same password (as `compare` judges it) signs the
      new traveler in. */
  method SignupThenLogin(table: TravelerTable, body: SignupBody, hashed: string, compare: (string, string) -> bool)
    returns (id: nat, login: (Reply<TravelerSummary>, Session))
    requires table.Valid()
    requires Truthy(body.name) && Truthy(body.email) && Truthy(body.password)
    requires !TravelerEmailTaken(table.rows, body.email.value)
    requires compare(body.password.value, hashed)
    modifies table
    ensures id == |old(table.rows)| + 1
    ensures login.0 == Ok(200, TravelerSummary(id, body.name, body.email.value))
    ensures login.1 == SignedIn(EmptySession, id)
  {
    var r, s := Signup(table, EmptySession, body, hashed);
    id := r.body;
    assert r.Ok? && s.travelerId == Some(r.body);
    assert table.rows[r.body - 1] == SignupRow(r.body, body, hashed);
    login := Login(table.rows, EmptySession, body.email, body.password, compare);
    assert TravelerByEmail(table.rows, body.email.value) == Some(table.rows[r.body - 1]);
    assert login.0 == Ok(200, TravelerSummary(r.body, body.name, body.email.value));
    assert login.1 == s;
  }
}
