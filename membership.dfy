/**
 * The membership state machine of one club, on values.
 *
 * A club keeps four lists of user ids (sponsors, officers, members,
 * applicants); a user keeps the reverse index (clubs, pendingClubs).
 * `Step` is the club-side effect of one handler of routes/ClubRoutes.js,
 * including its exact rejection messages; `Affiliations.After` is the
 * effect on the target user's record. The lemmas relate these list
 * updates to the role each user holds.
 */
module Membership {
  import opened Outcomes
  import opened Seqs

  /** A MongoDB ObjectId; only equality matters. */
  type ObjectId = nat

  const AlreadyInClub := "Already in club"
  const ApplicationPending := "Application pending"
  const NotAnApplicant := "User is not an applicant"
  const OnlyPromoteMembers := "You can only promote club members"
  const OnlyDemoteOfficers := "You can only demote club officers"
  const OnlyKickInClub := "You can only kick students in the club"
  const CannotKickSponsor := "You can't kick a sponsor"
  const CannotLeaveAsSponsor := "You can't leave as a sponsor"

  /** Roles in increasing authority. */
  datatype Role = Applicant | Member | Officer | Sponsor {
    function Rank(): nat {
      match this
      case Applicant => 0
      case Member => 1
      case Officer => 2
      case Sponsor => 3
    }
  }

  datatype Roster = Roster(sponsors: seq<ObjectId>, officers: seq<ObjectId>,
                           members: seq<ObjectId>, applicants: seq<ObjectId>)
  {
    /** The list that holds the users of role `k`. */
    function List(k: Role): seq<ObjectId> {
      match k
      case Sponsor => sponsors
      case Officer => officers
      case Member => members
      case Applicant => applicants
    }

    /** `isRole(k, club, id)`: the id is in the club's list for role `k`. */
    predicate IsRole(k: Role, id: ObjectId) {
      id in List(k)
    }

    /** `inClub(club, id)`: sponsor, officer or member; applicants are not in the club. */
    predicate InClub(id: ObjectId) {
      id in sponsors || id in officers || id in members
    }

    /** Each list is duplicate-free and no id is in two lists. */
    predicate WellFormed() {
      && NoDup(sponsors) && NoDup(officers) && NoDup(members) && NoDup(applicants)
      && Disjoint(sponsors, officers) && Disjoint(sponsors, members) && Disjoint(sponsors, applicants)
      && Disjoint(officers, members) && Disjoint(officers, applicants)
      && Disjoint(members, applicants)
    }

    /** The role of `id`, looked up from sponsor down to applicant; None when unaffiliated. */
    function RoleOf(id: ObjectId): (o: Option<Role>)
      ensures o.Some? ==> IsRole(o.value, id)
      ensures o.None? <==> !InClub(id) && !IsRole(Applicant, id)
      ensures WellFormed() ==> forall k: Role :: IsRole(k, id) ==> o == Some(k)
    {
      if id in sponsors then Some(Sponsor)
      else if id in officers then Some(Officer)
      else if id in members then Some(Member)
      else if id in applicants then Some(Applicant)
      else None
    }

    /** The `clubRole({authLevel: min})` gate: the requester's role ranks at least `min`. */
    predicate HasAtLeastRole(id: ObjectId, min: Role) {
      RoleOf(id).Some? && RoleOf(id).value.Rank() >= min.Rank()
    }

    /** Successful apply: a new member (auto-join) or a new applicant. */
    function Joined(id: ObjectId, autoJoin: bool): Roster {
      if autoJoin then this.(members := members + [id])
      else this.(applicants := applicants + [id])
    }

    /** Successful accept: from applicants to members. */
    function Admitted(id: ObjectId): Roster {
      this.(members := members + [id], applicants := Without(applicants, id))
    }

    /** Successful promote: from members to officers. */
    function Promoted(id: ObjectId): Roster {
      this.(officers := officers + [id], members := Without(members, id))
    }

    /** Successful demote: from officers to members. */
    function Demoted(id: ObjectId): Roster {
      this.(members := members + [id], officers := Without(officers, id))
    }

    /** Successful kick or leave: out of members and officers. */
    function Removed(id: ObjectId): Roster {
      this.(members := Without(members, id), officers := Without(officers, id))
    }
  }

  /** One membership handler, applied to the user `user`. */
  datatype Action =
    | Apply(user: ObjectId, autoJoin: bool)
    | Accept(user: ObjectId)
    | Promote(user: ObjectId)
    | Demote(user: ObjectId)
    | Kick(user: ObjectId)
    | Leave(user: ObjectId)

  /** The club-side outcome of one handler: its guards in source order, then its list updates. */
  function Step(r: Roster, act: Action): Result<Roster> {
    match act
    case Apply(id, autoJoin) =>
      if r.InClub(id) then Failure(AlreadyInClub)
      else if r.IsRole(Applicant, id) then Failure(ApplicationPending)
      else Success(r.Joined(id, autoJoin))
    case Accept(id) =>
      if r.InClub(id) then Failure(AlreadyInClub)
      else if !r.IsRole(Applicant, id) then Failure(NotAnApplicant)
      else Success(r.Admitted(id))
    case Promote(id) =>
      if !r.IsRole(Member, id) then Failure(OnlyPromoteMembers)
      else Success(r.Promoted(id))
    case Demote(id) =>
      if !r.IsRole(Officer, id) then Failure(OnlyDemoteOfficers)
      else Success(r.Demoted(id))
    case Kick(id) =>
      if !r.InClub(id) then Failure(OnlyKickInClub)
      else if r.IsRole(Sponsor, id) then Failure(CannotKickSponsor)
      else Success(r.Removed(id))
    case Leave(id) =>
      if r.IsRole(Sponsor, id) then Failure(CannotLeaveAsSponsor)
      else Success(r.Removed(id))
  }

  /** A sequence of handlers; a rejected one leaves the lists as they were. */
  function Run(r: Roster, acts: seq<Action>): Roster
    decreases |acts|
  {
    if |acts| == 0 then r else Run(Step(r, acts[0]).GetOr(r), acts[1..])
  }

  /** The role table: from which role each action may move its user. */
  predicate Permits(act: Action, from: Option<Role>) {
    match act
    case Apply(_, _) => from.None?
    case Accept(_) => from == Some(Applicant)
    case Promote(_) => from == Some(Member)
    case Demote(_) => from == Some(Officer)
    case Kick(_) => from == Some(Member) || from == Some(Officer)
    case Leave(_) => from == Some(Member) || from == Some(Officer)
  }

  /** The role table: the role each action leaves its user in. */
  function Target(act: Action): Option<Role> {
    match act
    case Apply(_, autoJoin) => Some(if autoJoin then Member else Applicant)
    case Accept(_) => Some(Member)
    case Promote(_) => Some(Officer)
    case Demote(_) => Some(Member)
    case Kick(_) => None
    case Leave(_) => None
  }

  /** A user's reverse index. */
  datatype Affiliations = Affiliations(clubs: seq<ObjectId>, pendingClubs: seq<ObjectId>) {

    /** Each list is duplicate-free and no club is both joined and pending. */
    predicate WellFormed() {
      NoDup(clubs) && NoDup(pendingClubs) && Disjoint(clubs, pendingClubs)
    }

    /** The update a successful `act` on club `c` makes to its target user's record. */
    function After(c: ObjectId, act: Action): Affiliations {
      match act
      case Apply(_, autoJoin) =>
        if autoJoin then this.(clubs := clubs + [c])
        else this.(pendingClubs := pendingClubs + [c])
      case Accept(_) => this.(clubs := clubs + [c], pendingClubs := Without(pendingClubs, c))
      case Promote(_) => this
      case Demote(_) => this
      case Kick(_) => this.(clubs := Without(clubs, c))
      case Leave(_) => this.(clubs := Without(clubs, c))
    }
  }

  /** The club's lists and the user's reverse index agree about user `id` and club `c`. */
  predicate Linked(r: Roster, id: ObjectId, c: ObjectId, a: Affiliations) {
    (r.InClub(id) <==> c in a.clubs) && (r.IsRole(Applicant, id) <==> c in a.pendingClubs)
  }

  /** Every successful handler keeps the four lists duplicate-free and pairwise disjoint. */
  lemma StepPreservesWellFormed(r: Roster, act: Action)
    requires r.WellFormed() && Step(r, act).Success?
    ensures Step(r, act).value.WellFormed()
  {
    var id := act.user;
    match act
    case Apply(_, autoJoin) =>
      if autoJoin { NoDupAppendOne(r.members, id); } else { NoDupAppendOne(r.applicants, id); }
    case Accept(_) =>
      NoDupAppendOne(r.members, id);
      NoDupWithout(r.applicants, id);
    case Promote(_) =>
      NoDupAppendOne(r.officers, id);
      NoDupWithout(r.members, id);
    case Demote(_) =>
      NoDupAppendOne(r.members, id);
      NoDupWithout(r.officers, id);
    case Kick(_) =>
      NoDupWithout(r.members, id);
      NoDupWithout(r.officers, id);
    case Leave(_) =>
      NoDupWithout(r.members, id);
      NoDupWithout(r.officers, id);
  }

  /**
   * On well-formed lists, a handler succeeds exactly when the role table
   * permits its user's current role. Leave is reached only through the
   * member-level gate.
   */
  lemma StepFollowsRoleTable(r: Roster, act: Action)
    requires r.WellFormed()
    requires act.Leave? ==> r.HasAtLeastRole(act.user, Member)
    ensures Step(r, act).Success? <==> Permits(act, r.RoleOf(act.user))
  {
  }

  /**
   * A successful handler moves its user to the role table's target role
   * and leaves every other user's role as it was.
   */
  lemma StepMovesOnlyTarget(r: Roster, act: Action)
    requires r.WellFormed() && Step(r, act).Success?
    requires act.Leave? ==> r.HasAtLeastRole(act.user, Member)
    ensures Step(r, act).value.RoleOf(act.user) == Target(act)
    ensures forall u :: u != act.user ==> Step(r, act).value.RoleOf(u) == r.RoleOf(u)
  {
  }

  /** A successful handler keeps the club's lists and its target's reverse index in agreement. */
  lemma StepKeepsLinked(r: Roster, act: Action, c: ObjectId, a: Affiliations)
    requires Step(r, act).Success? && Linked(r, act.user, c, a)
    ensures Linked(Step(r, act).value, act.user, c, a.After(c, act))
    ensures a.WellFormed() ==> a.After(c, act).WellFormed()
  {
    if a.WellFormed() {
      match act
      case Apply(_, autoJoin) =>
        if autoJoin { NoDupAppendOne(a.clubs, c); } else { NoDupAppendOne(a.pendingClubs, c); }
      case Accept(_) =>
        NoDupAppendOne(a.clubs, c);
        NoDupWithout(a.pendingClubs, c);
      case Promote(_) =>
      case Demote(_) =>
      case Kick(_) =>
        NoDupWithout(a.clubs, c);
      case Leave(_) =>
        NoDupWithout(a.clubs, c);
    }
  }

  /** After any sequence of handlers the four lists are still duplicate-free and pairwise disjoint. */
  lemma {:induction false} RunPreservesWellFormed(r: Roster, acts: seq<Action>)
    requires r.WellFormed()
    ensures Run(r, acts).WellFormed()
    decreases |acts|
  {
    if |acts| > 0 {
      if Step(r, acts[0]).Success? {
        StepPreservesWellFormed(r, acts[0]);
      }
      RunPreservesWellFormed(Step(r, acts[0]).GetOr(r), acts[1..]);
    }
  }

  /** No sequence of handlers changes the sponsors: a sponsor can be neither kicked nor leave. */
  lemma {:induction false} RunKeepsSponsors(r: Roster, acts: seq<Action>)
    ensures Run(r, acts).sponsors == r.sponsors
    decreases |acts|
  {
    if |acts| > 0 {
      RunKeepsSponsors(Step(r, acts[0]).GetOr(r), acts[1..]);
    }
  }

  /** Kick and leave both reject a sponsor, each with its own message. */
  lemma SponsorsAreProtected(r: Roster, s: ObjectId)
    requires s in r.sponsors
    ensures Step(r, Kick(s)) == Failure(CannotKickSponsor)
    ensures Step(r, Leave(s)) == Failure(CannotLeaveAsSponsor)
  {
  }

  /** The invariants a handler method keeps: the club's lists, and the target's reverse index. */
  lemma StepKeepsInvariants(r0: Roster, act: Action, c: ObjectId, a0: Affiliations)
    requires Step(r0, act).Success?
    ensures r0.WellFormed() ==> Step(r0, act).value.WellFormed()
    ensures Linked(r0, act.user, c, a0) ==> Linked(Step(r0, act).value, act.user, c, a0.After(c, act))
    ensures Linked(r0, act.user, c, a0) && a0.WellFormed() ==> a0.After(c, act).WellFormed()
  {
    if r0.WellFormed() {
      StepPreservesWellFormed(r0, act);
    }
    if Linked(r0, act.user, c, a0) {
      StepKeepsLinked(r0, act, c, a0);
    }
  }

  /** The gates of the three authorization levels, in terms of the lists. */
  lemma RoleGates(r: Roster, id: ObjectId)
    requires r.WellFormed()
    ensures r.HasAtLeastRole(id, Member) <==> r.InClub(id)
    ensures r.HasAtLeastRole(id, Officer) <==> id in r.sponsors || id in r.officers
    ensures r.HasAtLeastRole(id, Sponsor) <==> id in r.sponsors
  {
  }

  /**
   * Without auto-join: apply makes `id` an applicant with the club pending;
   * accept makes it a member with the club joined; a second accept is then
   * rejected as already in the club; kick makes it unaffiliated again and
   * removes the club from its `clubs`.
   */
  lemma ApplyAcceptKick(r: Roster, id: ObjectId, c: ObjectId, a: Affiliations)
    requires r.WellFormed() && r.RoleOf(id).None? && Linked(r, id, c, a)
    ensures Step(r, Apply(id, false)) == Success(r.Joined(id, false))
    ensures r.Joined(id, false).RoleOf(id) == Some(Applicant)
    ensures c in a.After(c, Apply(id, false)).pendingClubs
    ensures Step(r.Joined(id, false), Accept(id)) == Success(r.Joined(id, false).Admitted(id))
    ensures r.Joined(id, false).Admitted(id).RoleOf(id) == Some(Member)
    ensures c in a.After(c, Apply(id, false)).After(c, Accept(id)).clubs
    ensures c !in a.After(c, Apply(id, false)).After(c, Accept(id)).pendingClubs
    ensures Step(r.Joined(id, false).Admitted(id), Accept(id)) == Failure(AlreadyInClub)
    ensures Step(r.Joined(id, false).Admitted(id), Kick(id))
         == Success(r.Joined(id, false).Admitted(id).Removed(id))
    ensures r.Joined(id, false).Admitted(id).Removed(id).RoleOf(id).None?
    ensures c !in a.After(c, Apply(id, false)).After(c, Accept(id)).After(c, Kick(id)).clubs
  {
  }
}
