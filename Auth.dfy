/**
 * The session and user store: sign-in by e-mail, registration, sign-out and
 * profile updates over the users key and the signed-in-user key of local
 * storage, with the signed-in user also held in the provider's state.
 */
module Auth {
  import opened Wrappers
  import opened Lists
  import opened Types
  import opened Storage

  /** The first stored user with exactly this e-mail address, if any. */
  function UserWithEmail(users: seq<User>, email: string): (r: Option<User>)
    ensures r.Some? <==> exists i :: 0 <= i < |users| && users[i].email == email
    ensures r.Some? ==> exists i :: 0 <= i < |users| && users[i] == r.value && users[i].email == email
                                 && forall j :: 0 <= j < i ==> users[j].email != email
  {
    Find(users, (u: User) => u.email == email)
  }

  /** No two stored users share an e-mail address. */
  predicate DistinctEmails(users: seq<User>) {
    forall i, j :: 0 <= i < j < |users| ==> users[i].email != users[j].email
  }

  /** The profile a new account starts with: company fields for an employer, empty seeker fields otherwise. */
  function StartingProfile(data: RegisterData): (p: Profile)
    ensures data.role == Employer ==>
      p == NoProfile.(companyName := Some(data.companyName.GetOr("")), companySize := Some(""), industry := Some(""))
    ensures data.role == JobSeeker ==>
      p == NoProfile.(skills := Some([]), experience := Some(""), education := Some(""))
  {
    if data.role == Employer then
      NoProfile.(companyName := Some(data.companyName.GetOr("")), companySize := Some(""), industry := Some(""))
    else
      NoProfile.(skills := Some([]), experience := Some(""), education := Some(""))
  }

  /** The user `register` creates, with the id and the timestamp the clock supplies. */
  function NewUser(data: RegisterData, id: string, now: string): (u: User)
    ensures u.id == id && u.email == data.email && u.name == data.name && u.role == data.role && u.createdAt == now
    ensures u.profile == StartingProfile(data)
  {
    User(id, data.email, data.name, data.role, StartingProfile(data), now)
  }

  /** One key of a spread merge: the patch's value when it has the key, the old value otherwise. */
  function Override<T>(base: Option<T>, patch: Option<T>): Option<T> {
    if patch.Some? then patch else base
  }

  /** `{ ...base, ...patch }`, key by key. */
  function MergeProfile(base: Profile, patch: Profile): Profile {
    Profile(
      Override(base.skills, patch.skills), Override(base.experience, patch.experience),
      Override(base.education, patch.education), Override(base.resumeUrl, patch.resumeUrl),
      Override(base.phone, patch.phone), Override(base.location, patch.location), Override(base.bio, patch.bio),
      Override(base.companyName, patch.companyName), Override(base.companySize, patch.companySize),
      Override(base.industry, patch.industry), Override(base.website, patch.website),
      Override(base.description, patch.description), Override(base.logo, patch.logo))
  }

  /** An empty patch changes nothing, and merging into no profile gives the patch itself. */
  lemma MergeIdentity(p: Profile)
    ensures MergeProfile(p, NoProfile) == p
    ensures MergeProfile(NoProfile, p) == p
  {
  }

  /** Applying the same patch twice is applying it once. */
  lemma MergeIdempotent(p: Profile, patch: Profile)
    ensures MergeProfile(MergeProfile(p, patch), patch) == MergeProfile(p, patch)
  {
  }

  /** Two patches in a row act as their merge, the later one winning. */
  lemma MergeAssociative(p: Profile, q: Profile, r: Profile)
    ensures MergeProfile(MergeProfile(p, q), r) == MergeProfile(p, MergeProfile(q, r))
  {
  }

  /** A patch that sets every key replaces the whole profile. */
  lemma MergeFullPatch(p: Profile, patch: Profile)
    requires patch.skills.Some? && patch.experience.Some? && patch.education.Some? && patch.resumeUrl.Some?
    requires patch.phone.Some? && patch.location.Some? && patch.bio.Some? && patch.companyName.Some?
    requires patch.companySize.Some? && patch.industry.Some? && patch.website.Some?
    requires patch.description.Some? && patch.logo.Some?
    ensures MergeProfile(p, patch) == patch
  {
  }

  /** The user `updateProfile` writes: the session user with the patch merged into its profile, nothing else changed. */
  function WithProfilePatch(u: User, patch: Profile): (r: User)
    ensures r.(profile := u.profile) == u
    ensures r.profile == MergeProfile(u.profile, patch)
  {
    u.(profile := MergeProfile(u.profile, patch))
  }

  /** Appending a user whose e-mail is not yet taken keeps e-mails distinct. */
  lemma RegisterKeepsDistinctEmails(users: seq<User>, u: User)
    requires DistinctEmails(users)
    requires UserWithEmail(users, u.email).None?
    ensures DistinctEmails(users + [u])
  {
  }

  /** Replacing a user by one with the same e-mail keeps e-mails distinct. */
  lemma ReplaceKeepsDistinctEmails(users: seq<User>, i: nat, u: User)
    requires i < |users| && DistinctEmails(users) && users[i].email == u.email
    ensures DistinctEmails(users[i := u])
  {
  }

  class AuthProvider {
    const store: Store
    var user: Option<User>

    /** The provider's state mirrors the signed-in-user key. */
    ghost predicate Valid()
      reads this, store
    {
      user == store.currentUser
    }

    /** On mount the provider takes the signed-in user from storage. */
    constructor (store: Store)
      ensures this.store == store && user == store.currentUser
      ensures Valid()
    {
      this.store := store;
      user := store.currentUser;
    }

    /** `login`: signs in the first user with this exact e-mail; the password is never looked at. */
    method Login(email: string, password: string) returns (ok: bool)
      requires Valid()
      modifies this, store
      ensures Valid()
      ensures store.jobs == old(store.jobs) && store.applications == old(store.applications)
      ensures store.users == old(store.users)
      ensures ok <==> UserWithEmail(old(store.users.Items()), email).Some?
      ensures ok ==> user == UserWithEmail(old(store.users.Items()), email)
      ensures !ok ==> user == old(user)
    {
      var found := UserWithEmail(store.users.Items(), email);
      if found.Some? {
        user := found;
        store.currentUser := found;
        ok := true;
      } else {
        ok := false;
      }
    }

    /** `register`: refuses a taken e-mail; otherwise appends the new user and signs it in. */
    method Register(data: RegisterData, newId: string, now: string) returns (ok: bool)
      requires Valid()
      modifies this, store
      ensures Valid()
      ensures store.jobs == old(store.jobs) && store.applications == old(store.applications)
      ensures ok <==> UserWithEmail(old(store.users.Items()), data.email).None?
      ensures !ok ==> store.users == old(store.users) && user == old(user)
      ensures ok ==> store.users == Stored(old(store.users.Items()) + [NewUser(data, newId, now)])
      ensures ok ==> user == Some(NewUser(data, newId, now))
    {
      var users := store.users.Items();
      if UserWithEmail(users, data.email).Some? {
        return false;
      }
      var u := NewUser(data, newId, now);
      store.users := Stored(users + [u]);
      user := Some(u);
      store.currentUser := Some(u);
      ok := true;
    }

    /** `logout`: clears the session and nothing else. */
    method Logout()
      modifies this, store
      ensures Valid() && user == None
      ensures store.jobs == old(store.jobs) && store.applications == old(store.applications)
      ensures store.users == old(store.users)
    {
      user := None;
      store.currentUser := None;
    }

    /**
     * `updateProfile`: merges the patch into the signed-in user's profile and
     * writes the result over the first stored user with the same id.
     */
    method UpdateProfile(patch: Profile) returns (ok: bool)
      requires Valid()
      modifies this, store
      ensures Valid()
      ensures store.jobs == old(store.jobs) && store.applications == old(store.applications)
      ensures old(user).None? ==> !ok
      ensures !ok ==> store.users == old(store.users) && user == old(user)
      ensures old(user).Some? ==>
        var current := old(user).value;
        var i := FindIndex(old(store.users.Items()), (u: User) => u.id == current.id);
        && (ok <==> i.Some?)
        && (ok ==> store.users == Stored(old(store.users.Items())[i.value := WithProfilePatch(current, patch)]))
        && (ok ==> user == Some(WithProfilePatch(current, patch)))
    {
      if user.None? {
        return false;
      }
      var current := user.value;
      var updated := WithProfilePatch(current, patch);
      var users := store.users.Items();
      var index := FindIndex(users, (u: User) => u.id == current.id);
      if index.None? {
        return false;
      }
      store.users := Stored(users[index.value := updated]);
      user := Some(updated);
      store.currentUser := Some(updated);
      ok := true;
    }
  }
}
