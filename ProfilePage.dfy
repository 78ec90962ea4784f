/**
 * The profile page: the two edit forms filled from the signed-in user's
 * profile, the skill list editor, the simulated resume upload and the
 * role-dependent payload handed to the profile update.
 */
module ProfilePage {
  import opened Wrappers
  import opened Lists
  import opened Text
  import opened Types
  import opened Auth

  /** The job seeker form: the seven job seeker keys, all present. */
  datatype SeekerForm = SeekerForm(
    skills: seq<string>,
    experience: string,
    education: string,
    phone: string,
    location: string,
    bio: string,
    resumeUrl: string)

  /** The employer form: the six employer keys, all present. */
  datatype EmployerForm = EmployerForm(
    companyName: string,
    companySize: string,
    industry: string,
    website: string,
    description: string,
    logo: string)

  /** The profile the forms start from: the user's, or the one without keys when nobody is signed in. */
  function StartProfile(user: Option<User>): Profile {
    if user.Some? then user.value.profile else NoProfile
  }

  /** The job seeker form's starting values: each key from the profile, a missing one as empty text or no skills. */
  function InitialSeekerForm(user: Option<User>): (r: SeekerForm)
    ensures var p := StartProfile(user);
      && (p.skills.Some? ==> r.skills == p.skills.value) && (p.skills.None? ==> r.skills == [])
      && (p.experience.Some? ==> r.experience == p.experience.value) && (p.experience.None? ==> r.experience == "")
      && (p.education.Some? ==> r.education == p.education.value) && (p.education.None? ==> r.education == "")
      && (p.phone.Some? ==> r.phone == p.phone.value) && (p.phone.None? ==> r.phone == "")
      && (p.location.Some? ==> r.location == p.location.value) && (p.location.None? ==> r.location == "")
      && (p.bio.Some? ==> r.bio == p.bio.value) && (p.bio.None? ==> r.bio == "")
      && (p.resumeUrl.Some? ==> r.resumeUrl == p.resumeUrl.value) && (p.resumeUrl.None? ==> r.resumeUrl == "")
  {
    var p := StartProfile(user);
    SeekerForm(p.skills.GetOr([]), p.experience.GetOr(""), p.education.GetOr(""), p.phone.GetOr(""),
               p.location.GetOr(""), p.bio.GetOr(""), p.resumeUrl.GetOr(""))
  }

  /** The employer form's starting values: each key from the profile, a missing one as empty text. */
  function InitialEmployerForm(user: Option<User>): (r: EmployerForm)
    ensures var p := StartProfile(user);
      && (p.companyName.Some? ==> r.companyName == p.companyName.value) && (p.companyName.None? ==> r.companyName == "")
      && (p.companySize.Some? ==> r.companySize == p.companySize.value) && (p.companySize.None? ==> r.companySize == "")
      && (p.industry.Some? ==> r.industry == p.industry.value) && (p.industry.None? ==> r.industry == "")
      && (p.website.Some? ==> r.website == p.website.value) && (p.website.None? ==> r.website == "")
      && (p.description.Some? ==> r.description == p.description.value) && (p.description.None? ==> r.description == "")
      && (p.logo.Some? ==> r.logo == p.logo.value) && (p.logo.None? ==> r.logo == "")
  {
    var p := StartProfile(user);
    EmployerForm(p.companyName.GetOr(""), p.companySize.GetOr(""), p.industry.GetOr(""), p.website.GetOr(""),
                 p.description.GetOr(""), p.logo.GetOr(""))
  }

  /** The job seeker form as a profile patch: exactly the seven job seeker keys. */
  function SeekerPatch(d: SeekerForm): Profile {
    NoProfile.(skills := Some(d.skills), experience := Some(d.experience), education := Some(d.education),
               resumeUrl := Some(d.resumeUrl), phone := Some(d.phone), location := Some(d.location), bio := Some(d.bio))
  }

  /** The employer form as a profile patch: exactly the six employer keys. */
  function EmployerPatch(d: EmployerForm): Profile {
    NoProfile.(companyName := Some(d.companyName), companySize := Some(d.companySize), industry := Some(d.industry),
               website := Some(d.website), description := Some(d.description), logo := Some(d.logo))
  }

  /**
   * The payload `handleSubmit` passes to the profile update: the job seeker
   * form for a job seeker, the employer form for anyone else.
   */
  function SubmitPayload(user: Option<User>, seeker: SeekerForm, employer: EmployerForm): (r: Profile)
    ensures user.Some? && user.value.role == JobSeeker ==> r == SeekerPatch(seeker)
    ensures !(user.Some? && user.value.role == JobSeeker) ==> r == EmployerPatch(employer)
    ensures r.skills.Some? <==> user.Some? && user.value.role == JobSeeker
    ensures r.companyName.Some? <==> !(user.Some? && user.value.role == JobSeeker)
  {
    if user.Some? && user.value.role == JobSeeker then SeekerPatch(seeker) else EmployerPatch(employer)
  }

  /** Saving the job seeker form and opening the page again shows the same form. */
  lemma SeekerFormRoundTrip(u: User, d: SeekerForm)
    ensures InitialSeekerForm(Some(WithProfilePatch(u, SeekerPatch(d)))) == d
  {
  }

  /** Saving the employer form and opening the page again shows the same form. */
  lemma EmployerFormRoundTrip(u: User, d: EmployerForm)
    ensures InitialEmployerForm(Some(WithProfilePatch(u, EmployerPatch(d)))) == d
  {
  }

  /** Saving one form leaves the keys of the other form as they were. */
  lemma SeekerSaveKeepsEmployerForm(u: User, d: SeekerForm)
    ensures InitialEmployerForm(Some(WithProfilePatch(u, SeekerPatch(d)))) == InitialEmployerForm(Some(u))
  {
  }

  /**
   * `addSkill` on the skill list and the text typed in the new-skill box: a
   * non-blank entry not yet listed is appended trimmed and the box cleared;
   * otherwise nothing changes.
   */
  function AddSkill(skills: seq<string>, input: string): (r: (seq<string>, string))
    ensures |skills| <= |r.0| <= |skills| + 1 && r.0[..|skills|] == skills
    ensures !IsBlank(input) ==> Trim(input) in r.0
    ensures r.0 != skills <==> !IsBlank(input) && Trim(input) !in skills
    ensures r.0 == skills ==> r.1 == input
    ensures r.0 != skills ==> r.1 == ""
  {
    var t := Trim(input);
    if t != "" && t !in skills then (skills + [t], "") else (skills, input)
  }

  /** `removeSkill`: every copy of the skill leaves the list, the other skills stay in order. */
  function RemoveSkill(skills: seq<string>, skill: string): (r: seq<string>)
    ensures skill !in r && Subsequence(r, skills)
    ensures forall i :: 0 <= i < |skills| && skills[i] != skill ==> skills[i] in r
  {
    RemoveAll(skills, skill)
  }

  /** Adding keeps a list without repeated skills free of repeats. */
  lemma AddSkillKeepsNoDuplicates(skills: seq<string>, input: string)
    requires NoDuplicates(skills)
    ensures NoDuplicates(AddSkill(skills, input).0)
  {
    var r := AddSkill(skills, input).0;
    if r != skills {
      assert r == skills + [Trim(input)];
    }
  }

  /** Removing the skill just added gives back the list from before. */
  lemma RemoveUndoesAdd(skills: seq<string>, input: string)
    requires AddSkill(skills, input).0 != skills
    ensures RemoveSkill(AddSkill(skills, input).0, Trim(input)) == skills
  {
    assert AddSkill(skills, input).0 == skills + [Trim(input)];
    RemoveAfterAppend(skills, Trim(input));
  }

  /** Typing the same entry again adds nothing more. */
  lemma AddSkillTwice(skills: seq<string>, input: string)
    ensures var once := AddSkill(skills, input).0;
      AddSkill(once, input).0 == once
  {
  }

  /** Removing is idempotent and keeps a repeat-free list free of repeats. */
  lemma RemoveSkillFacts(skills: seq<string>, skill: string)
    ensures RemoveSkill(RemoveSkill(skills, skill), skill) == RemoveSkill(skills, skill)
    ensures NoDuplicates(skills) ==> NoDuplicates(RemoveSkill(skills, skill))
  {
    RemoveAbsent(RemoveSkill(skills, skill), skill);
    if NoDuplicates(skills) {
      SubsequenceNoDuplicates(RemoveSkill(skills, skill), skills);
    }
  }

  /** The address the simulated upload gives a chosen file. */
  function ResumeUrl(fileName: string): (r: string)
    ensures |r| == |fileName| + 28 && r[..28] == "https://example.com/resumes/" && r[28..] == fileName
  {
    "https://example.com/resumes/" + fileName
  }

  /** `handleResumeUpload`: the first chosen file sets the resume address; choosing no file changes nothing. */
  function ResumeUploaded(d: SeekerForm, file: Option<string>): (r: SeekerForm)
    ensures file.None? ==> r == d
    ensures file.Some? ==> r.resumeUrl == ResumeUrl(file.value) && r.(resumeUrl := d.resumeUrl) == d
  {
    if file.Some? then d.(resumeUrl := ResumeUrl(file.value)) else d
  }

  /** The "Resume uploaded" line: shown when the address is non-empty, with its last path segment. */
  function ResumeLabel(url: string): (r: Option<string>)
    ensures r.Some? <==> url != ""
    ensures r.Some? ==> '/' !in r.value && |r.value| <= |url| && r.value == url[|url| - |r.value|..]
  {
    if url != "" then Some(LastSegment(url)) else None
  }

  /** After an upload the label shows the file's name, when that name holds no slash. */
  lemma UploadedNameShown(d: SeekerForm, fileName: string)
    requires '/' !in fileName
    ensures ResumeLabel(ResumeUploaded(d, Some(fileName)).resumeUrl) == Some(fileName)
  {
    assert ResumeUrl(fileName) == "https://example.com/resumes" + "/" + fileName;
    LastSegmentAfterSlash("https://example.com/resumes", fileName);
  }
}
