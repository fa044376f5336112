/** The session guards of the backend's authentication middleware. */
module Auth {
  import opened Wrappers

  /** The fields of `req.session` that the handlers read and write. */
  datatype Session = Session(travelerId: Option<nat>, ownerId: Option<nat>, userType: Option<string>)

  /** A session with nothing set: what a request without a login cookie carries. */
  const EmptySession := Session(None, None, None)

  /** JavaScript truthiness of a session id: absent and `0` are both false. */
  predicate IsSet(id: Option<nat>) {
    id.Some? && id.value != 0
  }

  /** What a middleware does with a request: call `next()` and write nothing, or answer with an
      error status and not call `next()`. */
  datatype Guard = Pass | Reject(status: nat, message: string)

  /** `requireTravelerAuth`. */
  function RequireTravelerAuth(session: Session): (g: Guard)
    ensures g.Pass? <==> IsSet(session.travelerId)
    ensures g.Reject? ==> g.status == 401
  {
    if !IsSet(session.travelerId) then Reject(401, "Unauthorized. Please login as a traveler.")
    else Pass
  }

  /** `requireOwnerAuth`. */
  function RequireOwnerAuth(session: Session): (g: Guard)
    ensures g.Pass? <==> IsSet(session.ownerId)
    ensures g.Reject? ==> g.status == 401
  {
    if !IsSet(session.ownerId) then Reject(401, "Unauthorized. Please login as an owner.")
    else Pass
  }

  /** Each guard reads only its own key: the other keys never change its answer, so a session
      that holds only an owner id fails the traveler guard and one that holds only a traveler id
      fails the owner guard. */
  lemma GuardsReadOnlyTheirKey(s: Session, other: Session)
    ensures RequireTravelerAuth(s) == RequireTravelerAuth(other.(travelerId := s.travelerId))
    ensures RequireOwnerAuth(s) == RequireOwnerAuth(other.(ownerId := s.ownerId))
    ensures RequireTravelerAuth(EmptySession.(ownerId := s.ownerId)).Reject?
    ensures RequireOwnerAuth(EmptySession.(travelerId := s.travelerId)).Reject?
  {
  }
}
