/** The profile endpoints: read a user's profile, and create-or-update it
    keyed on the user id (the collection has a unique index on `userId`). */
module Profiles {
  import opened JsValues
  import opened Keyed

  datatype Profile = Profile(
    userId: string,
    fullname: Raw,
    email: Raw,
    phone: Raw,
    address: Raw,
    city: Raw,
    country: Raw)

  /** The request body of an upsert. */
  datatype ProfileBody = ProfileBody(
    userId: Raw,
    fullname: Raw,
    email: Raw,
    phone: Raw,
    address: Raw,
    city: Raw,
    country: Raw)

  function ProfileOwner(p: Profile): string {
    p.userId
  }

  /** The profile an upsert writes: email and phone default to `""`, the
      other fields are taken as submitted, and the id is the string the
      filter `{ userId }` is cast to. */
  function Submitted(b: ProfileBody): (p: Profile)
    ensures p.email == (if Truthy(b.email) then b.email else Str(""))
    ensures p.phone == (if Truthy(b.phone) then b.phone else Str(""))
    ensures p.fullname == b.fullname && p.address == b.address
    ensures p.city == b.city && p.country == b.country
    ensures p.userId == ToString(b.userId)
    ensures Truthy(b.userId) ==> p.userId != ""
  {
    Profile(ToString(b.userId), b.fullname, Or(b.email, Str("")), Or(b.phone, Str("")),
            b.address, b.city, b.country)
  }

  /** The store after `findOneAndUpdate({ userId }, { $set }, { upsert: true })`:
      the matching profile is overwritten in place, or the profile is
      appended when none matches. */
  function Upserted(ps: seq<Profile>, p: Profile): (r: seq<Profile>)
    ensures |r| == |ps| || |r| == |ps| + 1
  {
    match IndexOf(ps, ProfileOwner, p.userId)
    case Some(i) => ps[i := p]
    case None => ps + [p]
  }

  /** After an upsert the user has exactly one profile, the one just
      written, whether or not a profile existed before; the unique index
      still holds. */
  lemma UpsertedExactlyOne(ps: seq<Profile>, p: Profile)
    requires KeysUnique(ps, ProfileOwner)
    ensures KeysUnique(Upserted(ps, p), ProfileOwner)
    ensures Count(Upserted(ps, p), ProfileOwner, p.userId) == 1
    ensures IndexOf(Upserted(ps, p), ProfileOwner, p.userId).Some?
    ensures Upserted(ps, p)[IndexOf(Upserted(ps, p), ProfileOwner, p.userId).value] == p
  {
    var r := Upserted(ps, p);
    match IndexOf(ps, ProfileOwner, p.userId)
    case Some(i) =>
      ReplaceKeepsIndex(ps, ProfileOwner, i, p);
      UniqueCount(r, ProfileOwner, p.userId);
    case None =>
      AppendKeepsUnique(ps, ProfileOwner, p);
      UniqueCount(r, ProfileOwner, p.userId);
      assert r[|ps|] == p;
      assert IndexOf(r, ProfileOwner, p.userId) == Some(|ps|);
  }

  /** An upsert leaves every other user's profile as it was: no profile of
      another user is added, removed or changed. */
  lemma UpsertedKeepsOthers(ps: seq<Profile>, p: Profile, q: Profile)
    requires q.userId != p.userId
    ensures q in Upserted(ps, p) <==> q in ps
  {
    var r := Upserted(ps, p);
    match IndexOf(ps, ProfileOwner, p.userId)
    case Some(i) =>
      if q in ps {
        var j :| 0 <= j < |ps| && ps[j] == q;
        assert r[j] == q;
      }
      if q in r {
        var j :| 0 <= j < |r| && r[j] == q;
        assert ps[j] == q;
      }
    case None =>
      if q in r {
        var j :| 0 <= j < |r| && r[j] == q;
        assert j < |ps|;
        assert ps[j] == q;
      }
  }

  /** Repeating the same upsert leaves the store as the first one left it. */
  lemma UpsertedIdempotent(ps: seq<Profile>, p: Profile)
    ensures Upserted(Upserted(ps, p), p) == Upserted(ps, p)
  {
    var r := Upserted(ps, p);
    match IndexOf(ps, ProfileOwner, p.userId)
    case Some(i) =>
      ReplaceKeepsIndex(ps, ProfileOwner, i, p);
      assert r[i := p] == r;
    case None =>
      assert r[|ps|] == p;
      assert IndexOf(r, ProfileOwner, p.userId) == Some(|ps|);
      assert r[|ps| := p] == r;
  }

  class ProfileStore {
    var profiles: seq<Profile>

    ghost predicate Valid()
      reads this
    {
      KeysUnique(profiles, ProfileOwner)
    }

    constructor ()
      ensures Valid() && profiles == []
    {
      profiles := [];
    }

    /** GET /:userId */
    method Get(userId: string) returns (status: int, profile: Option<Profile>)
      ensures userId == "" ==> status == 400 && profile.None?
      ensures userId != "" && IndexOf(profiles, ProfileOwner, userId).None? ==> status == 404 && profile.None?
      ensures userId != "" && IndexOf(profiles, ProfileOwner, userId).Some? ==>
        status == 200 && profile == Some(profiles[IndexOf(profiles, ProfileOwner, userId).value])
      ensures profile.Some? ==> profile.value in profiles && profile.value.userId == userId
    {
      if userId == "" {
        return 400, None;
      }
      var found := IndexOf(profiles, ProfileOwner, userId);
      if found.None? {
        return 404, None;
      }
      profile := Some(profiles[found.value]);
      status := 200;
    }

    /** POST / */
    method Upsert(b: ProfileBody) returns (status: int, profile: Option<Profile>)
      requires Valid()
      modifies this
      ensures Valid()
      ensures !Truthy(b.userId) ==> status == 400 && profile.None? && profiles == old(profiles)
      ensures Truthy(b.userId) ==>
        && status == 200 && profile == Some(Submitted(b))
        && profiles == Upserted(old(profiles), Submitted(b))
        && Count(profiles, ProfileOwner, ToString(b.userId)) == 1
    {
      if !Truthy(b.userId) {
        return 400, None;
      }
      var p := Submitted(b);
      UpsertedExactlyOne(profiles, p);
      profiles := Upserted(profiles, p);
      profile := Some(p);
      status := 200;
    }
  }
}
