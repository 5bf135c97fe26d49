/**
 * The handlers of routes/ClubRoutes.js with the HTTP and database glue
 * removed. A handler receives the club and user documents already loaded,
 * changes their fields in place, and answers with an `Outcome`. The
 * `clubRole({authLevel})` middleware that runs before a handler appears as
 * a precondition on the requester's role.
 */
module ClubRoutes {
  import opened Outcomes
  import opened Seqs
  import opened Membership
  import opened Models

  const ServerError := "Server Error"
  const NameUsed := "Club name has already been used"
  const UrlUsed := "Club URL has already been used"

  /** POST /:clubURL/members: the requester `user` applies to, or with auto-join joins, `club`. */
  method ApplyToClub(club: Club, user: User) returns (r: Outcome)
    modifies club`members, club`applicants, user`clubs, user`pendingClubs
    ensures r == Step(old(club.State()), Apply(user.id, club.settings.autoJoin)).ToOutcome()
    ensures club.State() == Step(old(club.State()), Apply(user.id, club.settings.autoJoin)).GetOr(old(club.State()))
    ensures user.Index() == if r.Ok? then old(user.Index()).After(club.id, Apply(user.id, club.settings.autoJoin))
                            else old(user.Index())
    ensures old(club.Valid()) ==> club.Valid()
    ensures old(Linked(club.State(), user.id, club.id, user.Index())) ==> Linked(club.State(), user.id, club.id, user.Index())
    ensures old(user.Index().WellFormed() && Linked(club.State(), user.id, club.id, user.Index())) ==> user.Index().WellFormed()
  {
    var act := Apply(user.id, club.settings.autoJoin);
    ghost var r0, a0 := club.State(), user.Index();
    if club.State().InClub(user.id) {
      return Err(AlreadyInClub);
    } else if club.State().IsRole(Applicant, user.id) {
      return Err(ApplicationPending);
    }
    if club.settings.autoJoin {
      user.clubs := user.clubs + [club.id];
      club.members := club.members + [user.id];
    } else {
      user.pendingClubs := user.pendingClubs + [club.id];
      club.applicants := club.applicants + [user.id];
    }
    StepKeepsInvariants(r0, act, club.id, a0);
    r := Ok;
  }

  /** PUT /:clubURL/members/:id/accept: an officer accepts the applicant `target`, whose record is `user`. */
  method AcceptApplicant(club: Club, requester: ObjectId, target: ObjectId, user: User) returns (r: Outcome)
    requires club.State().HasAtLeastRole(requester, Officer)
    requires user.id == target
    modifies club`members, club`applicants, user`clubs, user`pendingClubs
    ensures r == Step(old(club.State()), Accept(target)).ToOutcome()
    ensures club.State() == Step(old(club.State()), Accept(target)).GetOr(old(club.State()))
    ensures user.Index() == if r.Ok? then old(user.Index()).After(club.id, Accept(target)) else old(user.Index())
    ensures old(club.Valid()) ==> club.Valid()
    ensures old(Linked(club.State(), target, club.id, user.Index())) ==> Linked(club.State(), target, club.id, user.Index())
    ensures old(user.Index().WellFormed() && Linked(club.State(), target, club.id, user.Index())) ==> user.Index().WellFormed()
  {
    ghost var r0, a0 := club.State(), user.Index();
    if club.State().InClub(target) {
      return Err(AlreadyInClub);
    } else if !club.State().IsRole(Applicant, target) {
      return Err(NotAnApplicant);
    }
    user.clubs := user.clubs + [club.id];
    user.pendingClubs := Without(user.pendingClubs, club.id);
    club.members := club.members + [target];
    club.applicants := Without(club.applicants, target);
    StepKeepsInvariants(r0, Accept(target), club.id, a0);
    r := Ok;
  }

  /** PUT /:clubURL/members/:id/promote: an officer makes the member `target` an officer. */
  method PromoteMember(club: Club, requester: ObjectId, target: ObjectId) returns (r: Outcome)
    requires club.State().HasAtLeastRole(requester, Officer)
    modifies club`officers, club`members
    ensures r == Step(old(club.State()), Promote(target)).ToOutcome()
    ensures club.State() == Step(old(club.State()), Promote(target)).GetOr(old(club.State()))
    ensures old(club.Valid()) ==> club.Valid()
    ensures forall c, a :: old(Linked(club.State(), target, c, a)) ==> Linked(club.State(), target, c, a)
  {
    ghost var r0 := club.State();
    if !club.State().IsRole(Member, target) {
      return Err(OnlyPromoteMembers);
    }
    club.officers := club.officers + [target];
    club.members := Without(club.members, target);
    if r0.WellFormed() {
      StepPreservesWellFormed(r0, Promote(target));
    }
    r := Ok;
  }

  /** PUT /:clubURL/members/:id/demote: a sponsor makes the officer `target` a member again. */
  method DemoteOfficer(club: Club, requester: ObjectId, target: ObjectId) returns (r: Outcome)
    requires club.State().HasAtLeastRole(requester, Sponsor)
    modifies club`members, club`officers
    ensures r == Step(old(club.State()), Demote(target)).ToOutcome()
    ensures club.State() == Step(old(club.State()), Demote(target)).GetOr(old(club.State()))
    ensures old(club.Valid()) ==> club.Valid()
    ensures forall c, a :: old(Linked(club.State(), target, c, a)) ==> Linked(club.State(), target, c, a)
  {
    ghost var r0 := club.State();
    if !club.State().IsRole(Officer, target) {
      return Err(OnlyDemoteOfficers);
    }
    club.members := club.members + [target];
    club.officers := Without(club.officers, target);
    if r0.WellFormed() {
      StepPreservesWellFormed(r0, Demote(target));
    }
    r := Ok;
  }

  /** DELETE /:clubURL/members/:id: an officer removes `target`, whose record is `user`, from the club. */
  method KickMember(club: Club, requester: ObjectId, target: ObjectId, user: User) returns (r: Outcome)
    requires club.State().HasAtLeastRole(requester, Officer)
    requires user.id == target
    modifies club`members, club`officers, user`clubs
    ensures r == Step(old(club.State()), Kick(target)).ToOutcome()
    ensures club.State() == Step(old(club.State()), Kick(target)).GetOr(old(club.State()))
    ensures user.Index() == if r.Ok? then old(user.Index()).After(club.id, Kick(target)) else old(user.Index())
    ensures old(club.Valid()) ==> club.Valid()
    ensures old(Linked(club.State(), target, club.id, user.Index())) ==> Linked(club.State(), target, club.id, user.Index())
    ensures old(user.Index().WellFormed() && Linked(club.State(), target, club.id, user.Index())) ==> user.Index().WellFormed()
  {
    ghost var r0, a0 := club.State(), user.Index();
    if !club.State().InClub(target) {
      return Err(OnlyKickInClub);
    } else if club.State().IsRole(Sponsor, target) {
      return Err(CannotKickSponsor);
    }
    user.clubs := Without(user.clubs, club.id);
    club.members := Without(club.members, target);
    club.officers := Without(club.officers, target);
    StepKeepsInvariants(r0, Kick(target), club.id, a0);
    r := Ok;
  }

  /** DELETE /:clubURL/members: the requester `user` leaves the club. */
  method LeaveClub(club: Club, user: User) returns (r: Outcome)
    requires club.State().HasAtLeastRole(user.id, Member)
    modifies club`members, club`officers, user`clubs
    ensures r == Step(old(club.State()), Leave(user.id)).ToOutcome()
    ensures r == if old(club.State()).IsRole(Sponsor, user.id) then Err(CannotLeaveAsSponsor) else Ok
    ensures club.State() == Step(old(club.State()), Leave(user.id)).GetOr(old(club.State()))
    ensures user.Index() == if r.Ok? then old(user.Index()).After(club.id, Leave(user.id)) else old(user.Index())
    ensures old(club.Valid()) ==> club.Valid()
    ensures old(club.Valid()) && r.Ok? ==> club.State().RoleOf(user.id).None?
    ensures old(Linked(club.State(), user.id, club.id, user.Index())) ==> Linked(club.State(), user.id, club.id, user.Index())
    ensures old(user.Index().WellFormed() && Linked(club.State(), user.id, club.id, user.Index())) ==> user.Index().WellFormed()
  {
    ghost var r0, a0 := club.State(), user.Index();
    if club.State().IsRole(Sponsor, user.id) {
      return Err(CannotLeaveAsSponsor);
    }
    user.clubs := Without(user.clubs, club.id);
    club.members := Without(club.members, user.id);
    club.officers := Without(club.officers, user.id);
    StepKeepsInvariants(r0, Leave(user.id), club.id, a0);
    if r0.WellFormed() {
      StepMovesOnlyTarget(r0, Leave(user.id));
    }
    r := Ok;
  }

  /** PUT /:clubURL/settings/sms: the requester switches SMS announcements off, or back on. */
  method ToggleSms(club: Club, requester: ObjectId)
    requires club.State().HasAtLeastRole(requester, Member)
    modifies club`settings
    ensures club.settings == old(club.settings).(smsDisabled := Toggled(old(club.settings.smsDisabled), requester))
  {
    if requester in club.settings.smsDisabled {
      club.settings := club.settings.(smsDisabled := Without(club.settings.smsDisabled, requester));
    } else {
      club.settings := club.settings.(smsDisabled := club.settings.smsDisabled + [requester]);
    }
  }

  /**
   * The ids an announcement is texted to: officers, then members, with every
   * id on the club's SMS opt-out list filtered out, one opt-out id at a time.
   */
  method Recipients(club: Club) returns (idList: seq<ObjectId>)
    ensures idList == KeepNotIn(club.officers + club.members, club.settings.smsDisabled)
    ensures forall u :: u in idList <==> (u in club.officers || u in club.members) && u !in club.settings.smsDisabled
  {
    ghost var all := club.officers + club.members;
    var disabled := club.settings.smsDisabled;
    idList := club.officers + club.members;
    KeepNotInNothing(all);
    assert disabled[..0] == [];
    var i := 0;
    while i < |disabled|
      invariant 0 <= i <= |disabled|
      invariant idList == KeepNotIn(all, disabled[..i])
    {
      WithoutKeepNotIn(all, disabled[..i], disabled[i]);
      assert disabled[..i + 1] == disabled[..i] + [disabled[i]];
      idList := Without(idList, disabled[i]);
      i := i + 1;
    }
    assert disabled[..i] == disabled;
  }

  /** The text of an announcement SMS. */
  function SmsText(clubName: string, requesterName: string, message: string): string {
    clubName + " | " + requesterName + " \n" + message
  }

  /**
   * POST /:clubURL/announcement: an officer texts `message` through the
   * gateway `send`; only when the gateway accepts is the announcement, with
   * nobody having seen it yet, appended to the club.
   */
  method PostAnnouncement(club: Club, requester: ObjectId, requesterName: string, message: string,
                          send: (seq<ObjectId>, string) -> bool)
    returns (r: Outcome, idList: seq<ObjectId>)
    requires club.State().HasAtLeastRole(requester, Officer)
    modifies club`announcements
    ensures idList == KeepNotIn(club.officers + club.members, club.settings.smsDisabled)
    ensures r == if send(idList, SmsText(club.name, requesterName, message)) then Ok else Err(ServerError)
    ensures club.announcements == if r.Ok? then old(club.announcements) + [Announcement(club.id, message, [])]
                                  else old(club.announcements)
  {
    var smsMessage := SmsText(club.name, requesterName, message);
    idList := Recipients(club);
    var delivered := send(idList, smsMessage);
    if !delivered {
      return Err(ServerError), idList;
    }
    var announcement := Announcement(club.id, message, []);
    club.announcements := club.announcements + [announcement];
    r := Ok;
  }

  /** The body of an update request; an absent field is None. */
  datatype UpdateRequest = UpdateRequest(name: Option<string>, logo: Option<string>,
                                         description: Option<string>, getInvolved: Option<string>,
                                         color: Option<string>, tags: Option<seq<string>>,
                                         tagline: Option<string>, settings: Option<Settings>)

  /** JavaScript truthiness of an optional string: present and not empty. */
  predicate Truthy(s: Option<string>) {
    s.Some? && s.value != ""
  }

  /** `if (given) { field = given }` on a string field. */
  function Overwrite(current: string, given: Option<string>): string {
    if Truthy(given) then given.value else current
  }

  /** PUT /:clubURL: an officer overwrites the descriptive fields the request gives truthy values for. */
  method UpdateClub(club: Club, requester: ObjectId, req: UpdateRequest)
    requires club.State().HasAtLeastRole(requester, Officer)
    modifies club`name, club`logo, club`description, club`getInvolved, club`color,
             club`tags, club`tagline, club`settings
    ensures club.name == Overwrite(old(club.name), req.name)
    ensures club.logo == Overwrite(old(club.logo), req.logo)
    ensures club.description == Overwrite(old(club.description), req.description)
    ensures club.getInvolved == Overwrite(old(club.getInvolved), req.getInvolved)
    ensures club.color == Overwrite(old(club.color), req.color)
    ensures club.tags == if req.tags.Some? then req.tags.value else old(club.tags)
    ensures club.tagline == Overwrite(old(club.tagline), req.tagline)
    ensures club.settings == if req.settings.Some? then req.settings.value else old(club.settings)
    ensures club.sponsors == old(club.sponsors) && club.officers == old(club.officers)
    ensures club.members == old(club.members) && club.applicants == old(club.applicants)
  {
    club.name := Overwrite(club.name, req.name);
    club.logo := Overwrite(club.logo, req.logo);
    club.description := Overwrite(club.description, req.description);
    club.getInvolved := Overwrite(club.getInvolved, req.getInvolved);
    club.color := Overwrite(club.color, req.color);
    if req.tags.Some? { club.tags := req.tags.value; }
    club.tagline := Overwrite(club.tagline, req.tagline);
    if req.settings.Some? { club.settings := req.settings.value; }
  }

  /**
   * POST /: `user` creates a club under the fresh id `newId`, unless a stored
   * club already has its name or, checked second, its URL. `usedNames` and
   * `usedUrls` are the names and URLs of the stored clubs.
   */
  method CreateClub(user: User, fields: ClubFields, newId: ObjectId,
                    usedNames: seq<string>, usedUrls: seq<string>)
    returns (r: Outcome, club: Club?)
    modifies user`clubs
    ensures r == if fields.name in usedNames then Err(NameUsed)
                 else if fields.url in usedUrls then Err(UrlUsed)
                 else Ok
    ensures r.Err? ==> club == null && user.clubs == old(user.clubs)
    ensures r.Ok? ==> club != null && fresh(club) && club.id == newId && club.name == fields.name
                      && club.url == fields.url && club.settings == fields.settings
                      && club.description == fields.description && club.getInvolved == fields.getInvolved
                      && club.color == fields.color && club.tags == fields.tags
                      && club.tagline == fields.tagline && club.logo == fields.logo
                      && club.State() == Roster([user.id], [], [], []) && club.announcements == []
                      && club.Valid() && club.State().RoleOf(user.id) == Some(Sponsor)
                      && user.clubs == old(user.clubs) + [newId]
    ensures r.Ok? && newId !in old(user.pendingClubs) ==> Linked(club.State(), user.id, newId, user.Index())
    ensures r.Ok? && newId !in old(user.clubs) && newId !in old(user.pendingClubs) && old(user.Index().WellFormed()) ==> user.Index().WellFormed()
  {
    if fields.name in usedNames {
      return Err(NameUsed), null;
    } else if fields.url in usedUrls {
      return Err(UrlUsed), null;
    }
    club := new Club(newId, fields, user.id);
    if newId !in user.clubs && user.Index().WellFormed() {
      NoDupAppendOne(user.clubs, newId);
    }
    user.clubs := user.clubs + [newId];
    r := Ok;
  }
}
