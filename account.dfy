/** The account settings action: the profile schema (display name, bio and
    website, each optional and each allowed to be the empty string) and the
    update of the signed-in user's own profile row. Whether a string is a URL
    is decided by the schema library's URL check, which is a parameter here. */
module Account {
  import opened Common
  import opened Types

  const NOT_AUTHENTICATED := "Not authenticated"
  const MSG_DISPLAY_NAME_MAX := "Display name must be under 50 characters"
  const MSG_BIO_MAX := "Bio must be under 500 characters"
  const MSG_WEBSITE_URL := "Must be a valid URL"

  /** The submitted fields; `None` is an absent field. */
  datatype ProfileInput = ProfileInput(display_name: Option<string>, bio: Option<string>, website: Option<string>)

  // ---- The constraints, one per field ----

  predicate DisplayNameOk(v: Option<string>) { v.None? || |v.value| <= 50 }
  predicate BioOk(v: Option<string>) { v.None? || |v.value| <= 500 }
  predicate WebsiteOk(v: Option<string>, isUrl: string -> bool) { v.None? || v.value == "" || isUrl(v.value) }

  /** The issues of an input in the schema's key order. Each field is
      `string().check().optional().or(literal(""))`; the empty string always
      passes through the second alternative, and a failing first alternative
      reports its own message. */
  function ProfileIssues(i: ProfileInput, isUrl: string -> bool): seq<Issue> {
    (if DisplayNameOk(i.display_name) then [] else [Issue("display_name", MSG_DISPLAY_NAME_MAX)])
    + (if BioOk(i.bio) then [] else [Issue("bio", MSG_BIO_MAX)])
    + (if WebsiteOk(i.website, isUrl) then [] else [Issue("website", MSG_WEBSITE_URL)])
  }

  /** The profile row after the update: the three fields are written, an empty
      or absent value as null; no other column is touched. */
  function Saved(p: Profile, i: ProfileInput): (r: Profile)
    ensures r.display_name != Some("") && r.bio != Some("") && r.website != Some("")
    ensures r.display_name.None? <==> i.display_name in {None, Some("")}
    ensures r.bio.None? <==> i.bio in {None, Some("")}
    ensures r.website.None? <==> i.website in {None, Some("")}
    ensures i.display_name.Some? && i.display_name.value != "" ==> r.display_name == i.display_name
    ensures i.bio.Some? && i.bio.value != "" ==> r.bio == i.bio
    ensures i.website.Some? && i.website.value != "" ==> r.website == i.website
    ensures r.(display_name := p.display_name, bio := p.bio, website := p.website) == p
  {
    p.(display_name := OrNull(i.display_name), bio := OrNull(i.bio), website := OrNull(i.website))
  }

  /** An input is accepted exactly when every field meets its constraint; the
      empty string is accepted for every field, whatever the URL check says. */
  lemma ProfileAcceptedIff(i: ProfileInput, isUrl: string -> bool)
    ensures ProfileIssues(i, isUrl) == [] <==>
      DisplayNameOk(i.display_name) && BioOk(i.bio) && WebsiteOk(i.website, isUrl)
    ensures ProfileIssues(ProfileInput(Some(""), Some(""), Some("")), isUrl) == []
    ensures ProfileIssues(ProfileInput(None, None, None), isUrl) == []
  {
  }

  /** Only the first issue's message reaches the caller: a too-long display name
      hides every other problem, and a too-long bio hides a bad website. */
  lemma FirstIssueWins(i: ProfileInput, isUrl: string -> bool)
    ensures !DisplayNameOk(i.display_name) ==> ProfileIssues(i, isUrl)[0].message == MSG_DISPLAY_NAME_MAX
    ensures DisplayNameOk(i.display_name) && !BioOk(i.bio) ==> ProfileIssues(i, isUrl)[0].message == MSG_BIO_MAX
    ensures DisplayNameOk(i.display_name) && BioOk(i.bio) && !WebsiteOk(i.website, isUrl) ==>
      ProfileIssues(i, isUrl) == [Issue("website", MSG_WEBSITE_URL)]
  {
  }

  /** The `profiles` table and the signed-in user. */
  class ProfileStore {
    var profiles: map<Id, Profile>
    var user: Option<Id>

    ghost predicate Valid()
      reads this
    {
      forall id :: id in profiles ==> profiles[id].id == id
    }

    constructor (user: Option<Id>, profiles: map<Id, Profile>)
      requires forall id :: id in profiles ==> profiles[id].id == id
      ensures Valid() && this.user == user && this.profiles == profiles
    {
      this.user := user;
      this.profiles := profiles;
    }

    /** `updateProfile`: validates, then updates the row whose id is the
        caller's. An update that matches no row is not an error. */
    method UpdateProfile(input: ProfileInput, isUrl: string -> bool, dbError: Option<string>)
      returns (r: ActionResult<Done>)
      requires Valid()
      modifies this
      ensures Valid() && user == old(user)
      ensures user.None? ==> r == Error(NOT_AUTHENTICATED) && profiles == old(profiles)
      ensures user.Some? && ProfileIssues(input, isUrl) != [] ==>
        r == Error(ProfileIssues(input, isUrl)[0].message) && profiles == old(profiles)
      ensures user.Some? && ProfileIssues(input, isUrl) == [] && dbError.Some? ==>
        r == Error(dbError.value) && profiles == old(profiles)
      ensures user.Some? && ProfileIssues(input, isUrl) == [] && dbError.None? ==>
        && r == Data(Done)
        && profiles == (if user.value in old(profiles)
                        then old(profiles)[user.value := Saved(old(profiles)[user.value], input)]
                        else old(profiles))
    {
      if user.None? {
        return Error(NOT_AUTHENTICATED);
      }
      var issues := ProfileIssues(input, isUrl);
      if issues != [] {
        return Error(issues[0].message);
      }
      if dbError.Some? {
        return Error(dbError.value);
      }
      if user.value in profiles {
        profiles := profiles[user.value := Saved(profiles[user.value], input)];
      }
      r := Data(Done);
    }
  }
}
