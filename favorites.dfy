/** The favourites table: which traveler has marked which property, and the four handlers of
    the favourites router, all of which run behind the traveler guard. */
module Favorites {
  import opened Wrappers
  import opened Text
  import opened Http
  import opened PropertyController

  /** A row of the favourites table; a larger id is a later insert. */
  datatype Favorite = Favorite(id: nat, travelerId: nat, propertyId: nat)

  /** A favourite as `getFavorites` lists it: the property's row and when it was marked. */
  datatype FavoriteView = FavoriteView(property: Property, favoritedAt: nat)

  predicate IsPair(f: Favorite, travelerId: nat, propertyId: nat) {
    f.travelerId == travelerId && f.propertyId == propertyId
  }

  /** Is the pair stored somewhere in `favs`? */
  predicate HasPair(favs: seq<Favorite>, travelerId: nat, propertyId: nat) {
    exists i :: 0 <= i < |favs| && IsPair(favs[i], travelerId, propertyId)
  }

  /** No pair is stored twice, and ids decrease along the rows (newest first) below `bound`. */
  predicate WellKept(favs: seq<Favorite>, bound: nat) {
    (forall i, j :: 0 <= i < j < |favs| ==> favs[i].id > favs[j].id)
    && (forall i :: 0 <= i < |favs| ==> favs[i].id < bound)
    && (forall i, j :: 0 <= i < j < |favs| ==>
          !(favs[i].travelerId == favs[j].travelerId && favs[i].propertyId == favs[j].propertyId))
  }

  /** The rows other than the pair's, in their order. */
  function WithoutPair(favs: seq<Favorite>, travelerId: nat, propertyId: nat): (r: seq<Favorite>)
    ensures !HasPair(r, travelerId, propertyId)
    ensures forall f :: f in r <==> f in favs && !IsPair(f, travelerId, propertyId)
  {
    var r := Filter(favs, (f: Favorite) => !IsPair(f, travelerId, propertyId));
    assert !HasPair(r, travelerId, propertyId) by {
      forall i | 0 <= i < |r| ensures !IsPair(r[i], travelerId, propertyId) {
        assert r[i] in r;
      }
    }
    r
  }

  /** A row older rows may follow: its id below the bound and above theirs, its pair not
      among theirs. */
  lemma ConsWellKept(f: Favorite, rest: seq<Favorite>, bound: nat)
    requires WellKept(rest, bound) && f.id < bound
    requires forall j :: 0 <= j < |rest| ==> f.id > rest[j].id
    requires forall j :: 0 <= j < |rest| ==> !(f.travelerId == rest[j].travelerId && f.propertyId == rest[j].propertyId)
    ensures WellKept([f] + rest, bound)
  {
    var r := [f] + rest;
    assert forall j :: 1 <= j < |r| ==> r[j] == rest[j - 1];
  }

  lemma {:induction false} FilterKeepsWellKept(favs: seq<Favorite>, bound: nat, keep: Favorite -> bool)
    requires WellKept(favs, bound)
    ensures WellKept(Filter(favs, keep), bound)
  {
    if favs != [] {
      var tail := favs[1..];
      assert WellKept(tail, bound);
      FilterKeepsWellKept(tail, bound, keep);
      var rest := Filter(tail, keep);
      if keep(favs[0]) {
        forall j | 0 <= j < |rest|
          ensures favs[0].id > rest[j].id
          ensures !(favs[0].travelerId == rest[j].travelerId && favs[0].propertyId == rest[j].propertyId)
        {
          assert rest[j] in tail;
          var k :| 0 <= k < |tail| && tail[k] == rest[j];
          assert favs[k + 1] == tail[k];
        }
        ConsWellKept(favs[0], rest, bound);
      }
    }
  }

  /** The traveler's favourites joined with their properties, newest first; a favourite whose
      property is gone drops out of the join. */
  function Joined(favs: seq<Favorite>, travelerId: nat, rows: seq<Property>): (r: seq<FavoriteView>)
    ensures |r| <= |favs|
  {
    if favs == [] then []
    else
      var f := favs[0];
      var rest := Joined(favs[1..], travelerId, rows);
      if f.travelerId == travelerId && HasId(rows, f.propertyId) then
        [FavoriteView(Find(rows, f.propertyId).value, f.id)] + rest
      else rest
  }

  /** The join holds exactly the traveler's favourites whose property exists, each with that
      property's row and the favourite's id. */
  lemma {:induction false} JoinedMembers(favs: seq<Favorite>, travelerId: nat, rows: seq<Property>)
    ensures forall v :: v in Joined(favs, travelerId, rows) ==>
      v.property in rows
      && (exists f :: f in favs && f.travelerId == travelerId && f.propertyId == v.property.id && f.id == v.favoritedAt)
    ensures forall f :: f in favs && f.travelerId == travelerId && HasId(rows, f.propertyId) ==>
      FavoriteView(Find(rows, f.propertyId).value, f.id) in Joined(favs, travelerId, rows)
  {
    if favs != [] {
      JoinedMembers(favs[1..], travelerId, rows);
      var f := favs[0];
      var rest := Joined(favs[1..], travelerId, rows);
      forall v | v in rest
        ensures exists g :: g in favs && g.travelerId == travelerId && g.propertyId == v.property.id && g.id == v.favoritedAt
      {
        var g :| g in favs[1..] && g.travelerId == travelerId && g.propertyId == v.property.id && g.id == v.favoritedAt;
        assert g in favs;
      }
      forall g | g in favs && g.travelerId == travelerId && HasId(rows, g.propertyId)
        ensures FavoriteView(Find(rows, g.propertyId).value, g.id) in Joined(favs, travelerId, rows)
      {
        if g != f {
          assert g in favs[1..];
        }
      }
    }
  }

  /** Views are stamped with ids of the favourites they come from. */
  lemma {:induction false} JoinedBelow(favs: seq<Favorite>, k: int, travelerId: nat, rows: seq<Property>)
    requires forall i :: 0 <= i < |favs| ==> favs[i].id < k
    ensures forall v :: v in Joined(favs, travelerId, rows) ==> v.favoritedAt < k
  {
    if favs != [] {
      JoinedBelow(favs[1..], k, travelerId, rows);
    }
  }

  /** Joined views keep the order of the favourites: the newest comes first. */
  lemma {:induction false} JoinedNewestFirst(favs: seq<Favorite>, bound: nat, travelerId: nat, rows: seq<Property>)
    requires WellKept(favs, bound)
    ensures forall i, j :: 0 <= i < j < |Joined(favs, travelerId, rows)| ==>
      Joined(favs, travelerId, rows)[i].favoritedAt > Joined(favs, travelerId, rows)[j].favoritedAt
  {
    if favs != [] {
      assert WellKept(favs[1..], bound);
      JoinedNewestFirst(favs[1..], bound, travelerId, rows);
      JoinedBelow(favs[1..], favs[0].id, travelerId, rows);
      var rest := Joined(favs[1..], travelerId, rows);
      var f := favs[0];
      if f.travelerId == travelerId && HasId(rows, f.propertyId) {
        var r := [FavoriteView(Find(rows, f.propertyId).value, f.id)] + rest;
        assert Joined(favs, travelerId, rows) == r;
        forall i, j | 0 <= i < j < |r| ensures r[i].favoritedAt > r[j].favoritedAt {
          assert r[j] == rest[j - 1];
          if i == 0 {
            assert rest[j - 1] in rest;
          } else {
            assert r[i] == rest[i - 1];
          }
        }
      } else {
        assert Joined(favs, travelerId, rows) == rest;
      }
    }
  }

  class FavoriteTable {
    var favorites: seq<Favorite>
    var nextId: nat

    ghost predicate Valid()
      reads this
    {
      nextId >= 1 && WellKept(favorites, nextId)
    }

    constructor ()
      ensures Valid() && favorites == [] && nextId == 1
    {
      favorites := [];
      nextId := 1;
    }

    /** `POST /favorites`: 400 without a property id (absent or 0), 404 for an unknown
        property, 400 for a pair already stored; otherwise the new row, answered with 201. */
    method AddFavorite(travelerId: nat, propertyId: Option<nat>, rows: seq<Property>) returns (r: Reply<Favorite>)
      requires Valid()
      modifies this
      ensures Valid()
      ensures (propertyId.None? || propertyId == Some(0)) ==> r == Fail(400, "Property ID is required")
      ensures (propertyId.Some? && propertyId.value != 0 && !HasId(rows, propertyId.value)) ==>
        r == Fail(404, "Property not found")
      ensures (propertyId.Some? && propertyId.value != 0 && HasId(rows, propertyId.value)
               && HasPair(old(favorites), travelerId, propertyId.value)) ==>
        r == Fail(400, "Property is already in your favorites")
      ensures r.Fail? ==> favorites == old(favorites) && nextId == old(nextId)
      ensures r.Ok? <==>
        propertyId.Some? && propertyId.value != 0 && HasId(rows, propertyId.value)
        && !HasPair(old(favorites), travelerId, propertyId.value)
      ensures r.Ok? ==>
        && r.status == 201 && r.body == Favorite(old(nextId), travelerId, propertyId.value)
        && favorites == [r.body] + old(favorites) && nextId == old(nextId) + 1
        && HasPair(favorites, travelerId, propertyId.value)
    {
      if propertyId.None? || propertyId.value == 0 {
        return Fail(400, "Property ID is required");
      }
      var pid := propertyId.value;
      if !HasId(rows, pid) {
        return Fail(404, "Property not found");
      }
      if HasPair(favorites, travelerId, pid) {
        return Fail(400, "Property is already in your favorites");
      }
      var f := Favorite(nextId, travelerId, pid);
      favorites := [f] + favorites;
      nextId := nextId + 1;
      assert IsPair(favorites[0], travelerId, pid);
      r := Ok(201, f);
    }

    /** `DELETE /favorites/:propertyId`: 404 when the pair is not stored; otherwise exactly the
        pair's row goes. */
    method RemoveFavorite(travelerId: nat, propertyId: nat) returns (r: Reply<()>)
      requires Valid()
      modifies this
      ensures Valid() && nextId == old(nextId)
      ensures r.Fail? <==> !HasPair(old(favorites), travelerId, propertyId)
      ensures r.Fail? ==> r == Fail(404, "Favorite not found") && favorites == old(favorites)
      ensures r.Ok? ==> r.status == 200 && favorites == WithoutPair(old(favorites), travelerId, propertyId)
    {
      if !HasPair(favorites, travelerId, propertyId) {
        return Fail(404, "Favorite not found");
      }
      FilterKeepsWellKept(favorites, nextId, (f: Favorite) => !IsPair(f, travelerId, propertyId));
      favorites := WithoutPair(favorites, travelerId, propertyId);
      r := Ok(200, ());
    }

    /** `GET /favorites`: the calling traveler's favourites joined with the properties. */
    function GetFavorites(travelerId: nat, rows: seq<Property>): (r: seq<FavoriteView>)
      requires Valid()
      reads this
      ensures forall v :: v in r ==>
        v.property in rows
        && exists f :: f in favorites && f.travelerId == travelerId && f.propertyId == v.property.id && f.id == v.favoritedAt
      ensures forall f :: f in favorites && f.travelerId == travelerId && HasId(rows, f.propertyId) ==>
        FavoriteView(Find(rows, f.propertyId).value, f.id) in r
      ensures forall i, j :: 0 <= i < j < |r| ==> r[i].favoritedAt > r[j].favoritedAt
    {
      JoinedMembers(favorites, travelerId, rows);
      JoinedNewestFirst(favorites, nextId, travelerId, rows);
      Joined(favorites, travelerId, rows)
    }

    /** `GET /favorites/check/:propertyId`: 400 for an id that is not a plain number, otherwise
        whether the pair is stored. */
    function CheckFavorite(travelerId: nat, propertyIdText: string): (r: Reply<bool>)
      reads this
      ensures NumericId(propertyIdText).None? ==> r == Fail(400, "Invalid property ID")
      ensures NumericId(propertyIdText).Some? ==>
        r == Ok(200, HasPair(favorites, travelerId, NumericId(propertyIdText).value))
    {
      match NumericId(propertyIdText)
      case None => Fail(400, "Invalid property ID")
      case Some(pid) => Ok(200, HasPair(favorites, travelerId, pid))
    }
  }

  /** A property id written as decimal digits reads back as itself. */
  lemma NumericIdOfDigits(n: nat)
    ensures NumericId(NatToString(n)) == Some(n)
  {
  }

  /** After a successful add, checking the pair answers true; removing it then makes the
      check answer false, and a second removal is refused. */
  method AddCheckRemove(table: FavoriteTable, travelerId: nat, propertyId: nat, rows: seq<Property>)
    returns (again: Reply<Favorite>, twice: Reply<()>)
    requires table.Valid() && propertyId != 0 && HasId(rows, propertyId)
    requires !HasPair(table.favorites, travelerId, propertyId)
    modifies table
    ensures again == Fail(400, "Property is already in your favorites")
    ensures twice == Fail(404, "Favorite not found")
    ensures !HasPair(table.favorites, travelerId, propertyId)
  {
    var added := table.AddFavorite(travelerId, Some(propertyId), rows);
    assert added.Ok? && added.status == 201;
    NumericIdOfDigits(propertyId);
    assert table.CheckFavorite(travelerId, NatToString(propertyId)) == Ok(200, true);
    again := table.AddFavorite(travelerId, Some(propertyId), rows);
    var removed := table.RemoveFavorite(travelerId, propertyId);
    assert removed.Ok?;
    assert table.CheckFavorite(travelerId, NatToString(propertyId)) == Ok(200, false);
    twice := table.RemoveFavorite(travelerId, propertyId);
  }
}
