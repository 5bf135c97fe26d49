/** The club and user documents the route handlers load, change and save. */
module Models {
  import opened Membership

  /** A club's settings object. */
  datatype Settings = Settings(autoJoin: bool, smsDisabled: seq<ObjectId>)

  /** An announcement document: its club, its text, and the users who have seen it. */
  datatype Announcement = Announcement(club: ObjectId, message: string, seen: seq<ObjectId>)

  /** The request-body fields a new club is built from. */
  datatype ClubFields = ClubFields(name: string, url: string, description: string,
                                   getInvolved: string, color: string, tags: seq<string>,
                                   tagline: string, logo: string, settings: Settings)

  class Club {
    const id: ObjectId
    var name: string
    var url: string
    var description: string
    var getInvolved: string
    var color: string
    var tags: seq<string>
    var tagline: string
    var logo: string
    var sponsors: seq<ObjectId>
    var officers: seq<ObjectId>
    var members: seq<ObjectId>
    var applicants: seq<ObjectId>
    var settings: Settings
    var announcements: seq<Announcement>

    /** The four membership lists as one value. */
    function State(): Roster
      reads this
    {
      Roster(sponsors, officers, members, applicants)
    }

    /** No user is listed twice, in one list or across two. */
    predicate Valid()
      reads this
    {
      State().WellFormed()
    }

    /** A new club whose sole sponsor is its creator. */
    constructor (id: ObjectId, fields: ClubFields, creator: ObjectId)
      ensures this.id == id && name == fields.name && url == fields.url
      ensures description == fields.description && getInvolved == fields.getInvolved
      ensures color == fields.color && tags == fields.tags && tagline == fields.tagline
      ensures logo == fields.logo && settings == fields.settings
      ensures State() == Roster([creator], [], [], []) && announcements == []
      ensures Valid()
    {
      this.id := id;
      name, url, description, getInvolved := fields.name, fields.url, fields.description, fields.getInvolved;
      color, tags, tagline, logo := fields.color, fields.tags, fields.tagline, fields.logo;
      settings := fields.settings;
      sponsors, officers, members, applicants := [creator], [], [], [];
      announcements := [];
    }
  }

  class User {
    const id: ObjectId
    var clubs: seq<ObjectId>
    var pendingClubs: seq<ObjectId>

    /** The user's reverse index as one value. */
    function Index(): Affiliations
      reads this
    {
      Affiliations(clubs, pendingClubs)
    }
  }
}
