/** The two Redux slices of the front end: who is logged in, as an owner and as a traveler.
    A profile object is modelled as a map from its keys to their values. */
module Slices {
  import opened Wrappers

  type Info = map<string, string>

  /** `{ ...info, ...payload }`: the payload's keys win and every other key is kept. */
  function Merge(info: Info, payload: Info): (r: Info)
    ensures r.Keys == info.Keys + payload.Keys
    ensures forall k :: k in payload ==> r[k] == payload[k]
    ensures forall k :: k in info && k !in payload ==> r[k] == info[k]
  {
    info + payload
  }

  /** `ownerSlice`: `ownerInfo` is None for `null`. */
  class OwnerSlice {
    var ownerInfo: Option<Info>
    var isLoggedIn: bool

    /** The initial state (null, false). */
    constructor ()
      ensures ownerInfo.None? && !isLoggedIn
    {
      ownerInfo, isLoggedIn := None, false;
    }

    method LoginOwner(payload: Info)
      modifies this
      ensures ownerInfo == Some(payload) && isLoggedIn
    {
      ownerInfo := Some(payload);
      isLoggedIn := true;
    }

    /** Back to the initial state. */
    method LogoutOwner()
      modifies this
      ensures ownerInfo.None? && !isLoggedIn
    {
      ownerInfo := None;
      isLoggedIn := false;
    }

    /** The payload is merged over a present `ownerInfo`; without one nothing changes, and
        `isLoggedIn` never does. */
    method UpdateOwnerProfile(payload: Info)
      modifies this
      ensures old(ownerInfo).Some? ==> ownerInfo == Some(Merge(old(ownerInfo).value, payload))
      ensures old(ownerInfo).None? ==> ownerInfo.None?
      ensures isLoggedIn == old(isLoggedIn)
    {
      if ownerInfo.Some? {
        ownerInfo := Some(Merge(ownerInfo.value, payload));
      }
    }
  }

  /** `travelerSlice`. */
  class TravelerSlice {
    var travelerInfo: Option<Info>
    var isLoggedIn: bool

    constructor ()
      ensures travelerInfo.None? && !isLoggedIn
    {
      travelerInfo, isLoggedIn := None, false;
    }

    method LoginTraveler(payload: Info)
      modifies this
      ensures travelerInfo == Some(payload) && isLoggedIn
    {
      travelerInfo := Some(payload);
      isLoggedIn := true;
    }

    method LogoutTraveler()
      modifies this
      ensures travelerInfo.None? && !isLoggedIn
    {
      travelerInfo := None;
      isLoggedIn := false;
    }
  }

  /** A profile edit after login keeps the session logged in and shows the edited keys; a
      logout then brings back the initial state, and logging out again changes nothing. */
  method OwnerSession(s: OwnerSlice, login: Info, edit: Info)
    modifies s
    ensures s.ownerInfo.None? && !s.isLoggedIn
  {
    s.LoginOwner(login);
    s.UpdateOwnerProfile(edit);
    assert s.isLoggedIn && s.ownerInfo == Some(Merge(login, edit));
    s.LogoutOwner();
    s.UpdateOwnerProfile(edit);
    assert s.ownerInfo.None? && !s.isLoggedIn;
  }

  /** Login followed by logout gives the initial state, and a second logout keeps it. */
  method TravelerSession(s: TravelerSlice, login: Info)
    modifies s
    ensures s.travelerInfo.None? && !s.isLoggedIn
  {
    s.LoginTraveler(login);
    s.LogoutTraveler();
    assert s.travelerInfo.None? && !s.isLoggedIn;
    s.LogoutTraveler();
    assert s.travelerInfo.None? && !s.isLoggedIn;
  }
}
