# Club membership state machine

A model of the membership core of the club back end's route handlers
(`routes/ClubRoutes.js`). A club keeps four lists of user ids: `sponsors`,
`officers`, `members` and `applicants`. It also keeps `settings`, which holds
`autoJoin` and the SMS opt-out list `smsDisabled`, and a list of
`announcements`. A user keeps the reverse index: `clubs` for joined clubs and
`pendingClubs` for pending applications. Each handler (apply, accept,
promote, demote, kick, leave, SMS toggle, announcement, update, create)
checks a few guards in a fixed order. Each rejection carries an exact message,
and each success updates the lists in place. All HTTP and database glue is
removed.

Files and modules:

- `outcomes.dfy` (`Outcomes`): `Option`, `Outcome` (a handler's answer) and `Result`.
- `seqs.dfy` (`Seqs`): the array idioms used on id lists. `Without` is
  `filter((v) => !v.equals(x))`, `KeepNotIn` is a single filtering pass,
  `Toggled` is remove-or-append, and `NoDup`/`Disjoint` state the list
  invariants. The file also holds the lemmas relating them.
- `membership.dfy` (`Membership`): the state machine on values. `Roster` holds
  the four lists. `RoleOf` looks up a role from sponsor down to applicant.
  `HasAtLeastRole` is the `clubRole({authLevel})` gate. `Step` gives one
  handler's guards, in source order with the source's messages, followed by
  its list updates. `Affiliations.After` is the update to the target user's
  reverse index. `Run` applies a sequence of handlers. `Permits`/`Target`
  give the role table: which role an action moves a user from, and to which
  role.
- `models.dfy` (`Models`): the `Club` and `User` documents as classes whose
  fields the handlers reassign.
- `club_routes.dfy` (`ClubRoutes`): one method per handler. Each reads and
  writes the fields of the loaded `Club`/`User` objects. Its `modifies`
  clause names exactly the fields the source assigns. The membership
  handlers are proved against `Step`: their answer is
  `Step(old state, action).ToOutcome()`, and their new lists are the step's
  result, or the old lists on rejection.

Assumptions about code that is not part of this model:

- `util/clubUtil` is not part of this model. `isRole(k, club, id)` is taken
  to be "`id` is in the club's list for role `k`" (`Roster.IsRole`).
  `inClub(club, id)` is taken to be "`id` is a sponsor, officer or member",
  with applicants excluded (`Roster.InClub`). Accept could never succeed if
  applicants counted as in the club.
- `middleware/clubRole` is not part of this model. A route guarded by
  `clubRole({authLevel: k})` is a method that requires
  `HasAtLeastRole(requester, k)`, with applicant < member < officer < sponsor.
  Apply uses `clubRole()` with no level and has no role precondition.
- The SMS gateway (`axios.post` to the phone service) is the function
  parameter `send`. Returning `false` stands for the call throwing, which the
  handler's `catch` turns into "Server Error".
- MongoDB ids are `nat`. Only their equality is used.

Behaviour of the handlers worth noting:

- A second accept of a user who is already a member is rejected with
  "Already in club": the `inClub` test comes first (lines 192-196).
  `Membership.ApplyAcceptKick` states this.
- `smsDisabled` and the recipient list are arrays. Toggling appends or
  filters, and recipients keep the order officers-then-members, duplicates
  included.
- Nothing checks for an id found in two lists. Instead `Club.Valid()`
  (no duplicates, pairwise disjoint) is proved to be preserved by every
  handler.
- Leave rejects only sponsors (line 331). Removal from the club is guaranteed
  by the member-level gate that runs before the handler.

## Model

| member | source | states |
|---|---|---|
| `Seqs.Without` | routes/ClubRoutes.js:237 | the filtered list holds exactly the ids of the input other than `x`; it is the input itself when `x` is absent, and never longer |
| `Seqs.KeepNotIn` | routes/ClubRoutes.js:88-92 | reference definition of the recipient filter: an id is kept exactly when it is in the input list and not in the opt-out list |
| `Seqs.WithoutKeepNotIn` | routes/ClubRoutes.js:90-92 | filtering out one more opt-out id after the others equals filtering the original list by the extended opt-out list |
| `Seqs.KeepNotInAppend` | routes/ClubRoutes.js:88 | filtering `officers.concat(members)` is filtering officers, then members, and concatenating: officers stay ahead |
| `Seqs.KeepNotInNothing` | routes/ClubRoutes.js:88-90 | with no opt-outs the recipient list is `officers.concat(members)` unchanged |
| `Seqs.WithoutAppend` | routes/ClubRoutes.js:237 | the filter distributes over concatenation, so it keeps relative order |
| `Seqs.NoDupAppendOne` | routes/ClubRoutes.js:236 | pushing an id absent from a duplicate-free list keeps it duplicate-free |
| `Seqs.NoDupWithout` | routes/ClubRoutes.js:237 | filtering a duplicate-free list keeps it duplicate-free |
| `Seqs.Toggled` | routes/ClubRoutes.js:369-373 | after the toggle the requester is on the opt-out list exactly when they were not before; every other id keeps its membership |
| `Seqs.ToggledTwice` | routes/ClubRoutes.js:369-373 | two toggles restore every id's membership; when the requester was absent, they restore the very same list |
| `Seqs.ToggledNoDup` | routes/ClubRoutes.js:369-373 | a toggle keeps a duplicate-free opt-out list duplicate-free |
| `Membership.Roster.RoleOf` | routes/ClubRoutes.js:149-153 | the role found is one the id really holds; there is none exactly when the id is neither in the club nor an applicant; on well-formed lists it is the id's only role |
| `Membership.RoleGates` | routes/ClubRoutes.js:323 | on well-formed lists the member gate admits exactly the ids in the club, the officer gate officers and sponsors, and the sponsor gate sponsors |
| `Membership.StepPreservesWellFormed` | routes/ClubRoutes.js:149-342 | every successful apply, accept, promote, demote, kick or leave keeps the four lists duplicate-free and pairwise disjoint |
| `Membership.StepFollowsRoleTable` | routes/ClubRoutes.js:149-342 | on well-formed lists a handler succeeds exactly when the role table allows the target's current role (leave behind the member gate) |
| `Membership.StepMovesOnlyTarget` | routes/ClubRoutes.js:155-342 | a successful handler moves its target to the role table's target role and leaves every other user's role unchanged |
| `Membership.StepKeepsLinked` | routes/ClubRoutes.js:155-342 | a successful handler keeps the club's lists and the target's `clubs`/`pendingClubs` in agreement, and keeps the user's two lists duplicate-free and disjoint |
| `Membership.RunPreservesWellFormed` | routes/ClubRoutes.js:141-356 | after any sequence of membership handlers the four lists are still duplicate-free and pairwise disjoint |
| `Membership.RunKeepsSponsors` | routes/ClubRoutes.js:141-356 | no sequence of membership handlers changes the sponsor list |
| `Membership.SponsorsAreProtected` | routes/ClubRoutes.js:294-334 | a sponsor is rejected by kick with "You can't kick a sponsor" and by leave with "You can't leave as a sponsor" |
| `Membership.StepKeepsInvariants` | routes/ClubRoutes.js:149-342 | a successful handler keeps well-formed lists well-formed and keeps the club's lists and the target's reverse index in agreement, with the user's lists well-formed |
| `Membership.ApplyAcceptKick` | routes/ClubRoutes.js:149-307 | without auto-join: apply makes an applicant with the club pending; accept makes a member with the club joined and no longer pending; a second accept answers "Already in club"; kick leaves the user unaffiliated without the club in `clubs` |
| `Models.Club.constructor` | routes/ClubRoutes.js:492 | a new club takes the request's fields, its creator is its sole sponsor, every other list is empty, and its lists are well-formed |
| `ClubRoutes.ApplyToClub` | routes/ClubRoutes.js:141-180 | "Already in club" if in the club, else "Application pending" if an applicant; otherwise the user becomes a member with the club in `clubs` (auto-join) or an applicant with the club in `pendingClubs`; well-formedness and the reverse index are kept |
| `ClubRoutes.AcceptApplicant` | routes/ClubRoutes.js:184-218 | officer-only; "Already in club", else "User is not an applicant"; otherwise the target moves from applicants to members and the club moves from `pendingClubs` to `clubs`; sponsors and officers untouched |
| `ClubRoutes.PromoteMember` | routes/ClubRoutes.js:223-249 | officer-only; "You can only promote club members" unless the target is a member; otherwise the target moves from members to officers; sponsors, applicants and user records untouched |
| `ClubRoutes.DemoteOfficer` | routes/ClubRoutes.js:253-281 | sponsor-only; "You can only demote club officers" unless the target is an officer; otherwise the target moves from officers to members; sponsors, applicants and user records untouched |
| `ClubRoutes.KickMember` | routes/ClubRoutes.js:286-319 | officer-only; "You can only kick students in the club", else "You can't kick a sponsor"; otherwise the target leaves members and officers and the club leaves its `clubs`; sponsors and applicants untouched |
| `ClubRoutes.LeaveClub` | routes/ClubRoutes.js:323-356 | member-only; "You can't leave as a sponsor" exactly for sponsors; otherwise the requester leaves members and officers, ends with no role, and the club leaves their `clubs` |
| `ClubRoutes.ToggleSms` | routes/ClubRoutes.js:360-387 | member-only; the opt-out list becomes its toggle by the requester; no other setting changes |
| `ClubRoutes.Recipients` | routes/ClubRoutes.js:88-92 | the loop that filters the opt-out ids out one at a time yields the single-pass filter of `officers.concat(members)`: an id is a recipient exactly when it is an officer or member and has not opted out |
| `ClubRoutes.PostAnnouncement` | routes/ClubRoutes.js:80-115 | officer-only; the gateway gets the recipients and the text made of club name, requester name and message; a failed send answers "Server Error" and leaves `announcements` unchanged; a successful one appends exactly one announcement with an empty `seen` |
| `ClubRoutes.UpdateClub` | routes/ClubRoutes.js:393-455 | officer-only; each string field is overwritten only by a truthy (non-empty) request value; tags and settings are overwritten whenever given; the membership lists do not change |
| `ClubRoutes.CreateClub` | routes/ClubRoutes.js:480-503 | "Club name has already been used" is checked before "Club URL has already been used"; otherwise a fresh club carrying the request's name, URL, description, getInvolved, color, tags, tagline, logo and settings, whose creator is its sole sponsor and whose other lists are empty, with the club appended to the creator's `clubs` |

## Left out

- HTTP plumbing: Express routing, `res.status/json/send` and the `try/catch` blocks. A failed SMS send is the one server error modelled. The empty `catch` of the announcement read route (lines 133-135) is left out too.
- Persistence: `save()`, `findById`, `find`, `findOne` and `remove`, and the un-awaited ordering of the `save()` calls. These are database calls; the model applies both sides of a transition as one update.
- A `User.findById` that finds nobody ends in the server-error path. The handlers that need a user record instead take that record as a parameter, so the missing-user case is not modelled.
- The read routes (lines 26-76): listing clubs, reading one club, and resolving the four lists to user records through the identity service. These are read-only I/O.
- Reading announcements (lines 119-136) marks the reader as having seen every announcement of the club with `updateMany`/`$addToSet` on the announcement collection. This is a database update, so the growth of `seen` is not modelled beyond the empty `seen` of a new announcement.
- Deleting a club (lines 506-519) is a single `club.remove()` database call behind the sponsor gate.
- The express-validator checks on club creation (lines 464-478), such as `notEmpty`, `isHexColor` and the tagline length. They come from a library. `CreateClub` starts after validation has passed.
- The `contact` and `titles` fields of create and update: their shape is defined in the Club schema, which is not part of this model. The officer, member, applicant and announcement lists of a new club start empty, which is the schema's default for arrays; the request's settings are taken as given, so a schema default for absent settings is not modelled.
- ClubRoutes.UpdateClub: request values are typed, so JavaScript truthiness is modelled only as "absent or empty string" for the strings, and as "absent" for the tags array and the settings object.
- Concurrency: two requests changing the same club at once are not modelled. Every handler runs alone.
