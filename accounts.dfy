/** The travelers and owners tables that the account handlers read and write. Ids are
    auto-increment: the row at index i carries id i + 1. */
module Accounts {
  import opened Wrappers
  import opened SetLists

  /** A row of the travelers table. `password` holds the bcrypt hash; it is None only in a
      record that a handler has stripped for its response. */
  datatype Traveler = Traveler(
    id: nat,
    name: Option<string>,
    email: string,
    password: Option<string>,
    phone: Option<string>,
    profilePicture: Option<string>,
    city: Option<string>,
    state: Option<string>,
    country: Option<string>,
    about: Option<string>,
    languages: Option<string>,
    gender: Option<string>,
    profileImage: Option<string>)

  /** A row of the owners table. */
  datatype Owner = Owner(
    id: nat,
    name: Option<string>,
    email: string,
    password: Option<string>,
    phone: Option<string>,
    profilePicture: Option<string>,
    about: Option<string>)

  /** The `userType` values a login stores in the session, and the text of a refused login. */
  const TravelerType := "traveler"
  const OwnerType := "owner"
  const InvalidCredentials := "Invalid email or password"

  /** The stored hash `bcrypt.compare` is given. */
  function TravelerHash(t: Traveler): string {
    t.password.GetOr("")
  }

  function OwnerHash(o: Owner): string {
    o.password.GetOr("")
  }

  // ---------------------------------------------------------------------------------------
  // travelers
  // ---------------------------------------------------------------------------------------

  predicate TravelerEmailTaken(rows: seq<Traveler>, email: string) {
    exists i :: 0 <= i < |rows| && rows[i].email == email
  }

  /** `SELECT * FROM travelers WHERE email = ?`, first row. */
  function TravelerByEmail(rows: seq<Traveler>, email: string): (r: Option<Traveler>)
    ensures r.Some? <==> TravelerEmailTaken(rows, email)
    ensures r.Some? ==> r.value in rows && r.value.email == email
  {
    if rows == [] then None
    else if rows[0].email == email then Some(rows[0])
    else
      var rest := TravelerByEmail(rows[1..], email);
      assert TravelerEmailTaken(rows, email) ==> TravelerEmailTaken(rows[1..], email) by {
        if TravelerEmailTaken(rows, email) {
          var i :| 0 <= i < |rows| && rows[i].email == email;
          assert i > 0 && rows[1..][i - 1].email == email;
        }
      }
      rest
  }

  /** The table's ids follow the row positions, and no email is registered twice. */
  predicate TravelerRowsOk(rows: seq<Traveler>) {
    (forall i :: 0 <= i < |rows| ==> rows[i].id == i + 1 && rows[i].password.Some?)
    && (forall i, j :: 0 <= i < j < |rows| ==> rows[i].email != rows[j].email)
  }

  /** `SELECT ... FROM travelers WHERE id = ?`. */
  function TravelerById(rows: seq<Traveler>, id: nat): (r: Option<Traveler>)
    requires TravelerRowsOk(rows)
    ensures r.Some? <==> 1 <= id <= |rows|
    ensures r.Some? ==> r.value == rows[id - 1] && r.value.id == id
  {
    if 1 <= id <= |rows| then Some(rows[id - 1]) else None
  }

  class TravelerTable {
    var rows: seq<Traveler>

    ghost predicate Valid()
      reads this
    {
      TravelerRowsOk(rows)
    }

    constructor ()
      ensures Valid() && rows == []
    {
      rows := [];
    }
  }

  /** Writing a SET item of the traveler profile update into a row. Columns in order: name,
      phone, profile_picture, city, state, country, about, languages, gender. */
  function ApplyTravelerWrite(t: Traveler, w: Write): Traveler {
    match w.column
    case 0 => t.(name := Some(w.value))
    case 1 => t.(phone := Some(w.value))
    case 2 => t.(profilePicture := Some(w.value))
    case 3 => t.(city := Some(w.value))
    case 4 => t.(state := Some(w.value))
    case 5 => t.(country := Some(w.value))
    case 6 => t.(about := Some(w.value))
    case 7 => t.(languages := Some(w.value))
    case 8 => t.(gender := Some(w.value))
    case _ => t
  }

  function ApplyTravelerWrites(t: Traveler, list: seq<Write>): Traveler
    decreases |list|
  {
    if list == [] then t else ApplyTravelerWrite(ApplyTravelerWrites(t, list[..|list| - 1]), list[|list| - 1])
  }

  /** The profile column at position `c` of the update's order. */
  function TravelerColumn(t: Traveler, c: nat): Option<string>
    requires c < 9
  {
    match c
    case 0 => t.name
    case 1 => t.phone
    case 2 => t.profilePicture
    case 3 => t.city
    case 4 => t.state
    case 5 => t.country
    case 6 => t.about
    case 7 => t.languages
    case 8 => t.gender
  }

  /** One write sets its own column and no other. */
  lemma TravelerWriteEffect(t: Traveler, w: Write)
    requires w.column < 9
    ensures SameTravelerIdentity(ApplyTravelerWrite(t, w), t)
    ensures forall c :: 0 <= c < 9 ==>
      TravelerColumn(ApplyTravelerWrite(t, w), c) == if c == w.column then Some(w.value) else TravelerColumn(t, c)
  {
  }

  /** The columns outside the profile update. */
  predicate SameTravelerIdentity(a: Traveler, b: Traveler) {
    a.id == b.id && a.email == b.email && a.password == b.password && a.profileImage == b.profileImage
  }

  /** No SET list touches id, email, password or profile image. */
  lemma {:induction false} TravelerWritesKeepIdentity(t: Traveler, list: seq<Write>)
    ensures SameTravelerIdentity(ApplyTravelerWrites(t, list), t)
    decreases |list|
  {
    if list != [] {
      TravelerWritesKeepIdentity(t, list[..|list| - 1]);
    }
  }

  /** Writing the list the handler builds replaces exactly the supplied columns and keeps
      every other column, including id, email, password and profile image. */
  lemma {:induction false} TravelerWritesEffect(t: Traveler, fields: seq<Option<string>>, k: nat)
    requires |fields| == 9 && k <= 9
    ensures SameTravelerIdentity(ApplyTravelerWrites(t, Expected(fields, k)), t)
    ensures forall c :: 0 <= c < 9 ==>
      TravelerColumn(ApplyTravelerWrites(t, Expected(fields, k)), c)
        == if c < k && fields[c].Some? then fields[c] else TravelerColumn(t, c)
  {
    if k > 0 {
      TravelerWritesEffect(t, fields, k - 1);
      var before := Expected(fields, k - 1);
      if fields[k - 1].Some? {
        var w := Write(k - 1, fields[k - 1].value);
        var list := before + [w];
        assert list[..|list| - 1] == before;
        assert Expected(fields, k) == list;
        assert ApplyTravelerWrites(t, list) == ApplyTravelerWrite(ApplyTravelerWrites(t, before), w);
        TravelerWriteEffect(ApplyTravelerWrites(t, before), w);
      } else {
        assert Expected(fields, k) == before;
      }
    }
  }

  // ---------------------------------------------------------------------------------------
  // owners
  // ---------------------------------------------------------------------------------------

  predicate OwnerEmailTaken(rows: seq<Owner>, email: string) {
    exists i :: 0 <= i < |rows| && rows[i].email == email
  }

  function OwnerByEmail(rows: seq<Owner>, email: string): (r: Option<Owner>)
    ensures r.Some? <==> OwnerEmailTaken(rows, email)
    ensures r.Some? ==> r.value in rows && r.value.email == email
  {
    if rows == [] then None
    else if rows[0].email == email then Some(rows[0])
    else
      var rest := OwnerByEmail(rows[1..], email);
      assert OwnerEmailTaken(rows, email) ==> OwnerEmailTaken(rows[1..], email) by {
        if OwnerEmailTaken(rows, email) {
          var i :| 0 <= i < |rows| && rows[i].email == email;
          assert i > 0 && rows[1..][i - 1].email == email;
        }
      }
      rest
  }

  predicate OwnerRowsOk(rows: seq<Owner>) {
    (forall i :: 0 <= i < |rows| ==> rows[i].id == i + 1 && rows[i].password.Some?)
    && (forall i, j :: 0 <= i < j < |rows| ==> rows[i].email != rows[j].email)
  }

  function OwnerById(rows: seq<Owner>, id: nat): (r: Option<Owner>)
    requires OwnerRowsOk(rows)
    ensures r.Some? <==> 1 <= id <= |rows|
    ensures r.Some? ==> r.value == rows[id - 1] && r.value.id == id
  {
    if 1 <= id <= |rows| then Some(rows[id - 1]) else None
  }

  class OwnerTable {
    var rows: seq<Owner>

    ghost predicate Valid()
      reads this
    {
      OwnerRowsOk(rows)
    }

    constructor ()
      ensures Valid() && rows == []
    {
      rows := [];
    }
  }

  /** Columns of the owner profile update, in order: name, phone, profile_picture, about. */
  function ApplyOwnerWrite(o: Owner, w: Write): Owner {
    match w.column
    case 0 => o.(name := Some(w.value))
    case 1 => o.(phone := Some(w.value))
    case 2 => o.(profilePicture := Some(w.value))
    case 3 => o.(about := Some(w.value))
    case _ => o
  }

  function ApplyOwnerWrites(o: Owner, list: seq<Write>): Owner
    decreases |list|
  {
    if list == [] then o else ApplyOwnerWrite(ApplyOwnerWrites(o, list[..|list| - 1]), list[|list| - 1])
  }

  function OwnerColumn(o: Owner, c: nat): Option<string>
    requires c < 4
  {
    match c
    case 0 => o.name
    case 1 => o.phone
    case 2 => o.profilePicture
    case 3 => o.about
  }

  lemma OwnerWriteEffect(o: Owner, w: Write)
    requires w.column < 4
    ensures ApplyOwnerWrite(o, w).(name := o.name, phone := o.phone, profilePicture := o.profilePicture, about := o.about) == o
    ensures forall c :: 0 <= c < 4 ==>
      OwnerColumn(ApplyOwnerWrite(o, w), c) == if c == w.column then Some(w.value) else OwnerColumn(o, c)
  {
  }

  /** No SET list touches an owner's id, email or password. */
  lemma {:induction false} OwnerWritesKeepIdentity(o: Owner, list: seq<Write>)
    ensures var u := ApplyOwnerWrites(o, list); u.id == o.id && u.email == o.email && u.password == o.password
    decreases |list|
  {
    if list != [] {
      OwnerWritesKeepIdentity(o, list[..|list| - 1]);
    }
  }

  lemma {:induction false} OwnerWritesEffect(o: Owner, fields: seq<Option<string>>, k: nat)
    requires |fields| == 4 && k <= 4
    ensures ApplyOwnerWrites(o, Expected(fields, k)).(name := o.name, phone := o.phone,
      profilePicture := o.profilePicture, about := o.about) == o
    ensures forall c :: 0 <= c < 4 ==>
      OwnerColumn(ApplyOwnerWrites(o, Expected(fields, k)), c)
        == if c < k && fields[c].Some? then fields[c] else OwnerColumn(o, c)
  {
    if k > 0 {
      OwnerWritesEffect(o, fields, k - 1);
      var before := Expected(fields, k - 1);
      if fields[k - 1].Some? {
        var w := Write(k - 1, fields[k - 1].value);
        var list := before + [w];
        assert list[..|list| - 1] == before;
        assert Expected(fields, k) == list;
        assert ApplyOwnerWrites(o, list) == ApplyOwnerWrite(ApplyOwnerWrites(o, before), w);
        OwnerWriteEffect(ApplyOwnerWrites(o, before), w);
      } else {
        assert Expected(fields, k) == before;
      }
    }
  }
}
