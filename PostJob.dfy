/**
 * The job posting form: its starting values, the editors of its two list
 * fields, the validation that fills the error record, and the submit action
 * that appends the new job to the stored jobs.
 */
module PostJob {
  import opened Wrappers
  import opened Lists
  import opened Text
  import opened Types
  import opened Storage

  /** The form's fields, all as typed text except the type selection and the two lists. */
  datatype JobForm = JobForm(
    title: string,
    company: string,
    location: string,
    jobType: JobType,
    experience: string,
    salary: string,
    description: string,
    deadline: string,
    requirements: seq<string>,
    skills: seq<string>)

  /** The form's starting values: an employer's company name prefilled, one empty entry in each list. */
  function InitialForm(user: Option<User>): (f: JobForm)
    ensures f.company == (if user.Some? && user.value.role == Employer then user.value.profile.companyName.GetOr("") else "")
    ensures f.requirements == [""] && f.skills == [""] && f.jobType == FullTime
    ensures f.title == f.location == f.experience == f.salary == f.description == f.deadline == ""
  {
    var company := if user.Some? && user.value.role == Employer then user.value.profile.companyName.GetOr("") else "";
    JobForm("", company, "", FullTime, "", "", "", "", [""], [""])
  }

  // The editors of a list field. Each is given the list and returns its new value.

  /** `handleArrayChange`: the entry at `index` becomes `value`; an index outside the list changes nothing. */
  function ReplaceAt(list: seq<string>, index: int, value: string): (r: seq<string>)
    ensures |r| == |list|
    ensures 0 <= index < |list| ==> r == list[index := value]
    ensures !(0 <= index < |list|) ==> r == list
  {
    seq(|list|, k requires 0 <= k < |list| => if k == index then value else list[k])
  }

  /** `addArrayItem`: one empty entry at the end. */
  function AddItem(list: seq<string>): (r: seq<string>)
    ensures |r| == |list| + 1 && r[..|list|] == list && r[|list|] == ""
  {
    list + [""]
  }

  /**
   * `removeArrayItem`: the entry at `index` leaves a list of more than one
   * entry; a single-entry list, or an index outside the list, is kept.
   */
  function RemoveItem(list: seq<string>, index: int): (r: seq<string>)
    ensures |list| > 1 && 0 <= index < |list| ==>
      |r| == |list| - 1 && r[..index] == list[..index] && r[index..] == list[index + 1..]
    ensures !(|list| > 1 && 0 <= index < |list|) ==> r == list
  {
    if |list| > 1 && 0 <= index < |list| then list[..index] + list[index + 1..] else list
  }

  /** None of the three editors can leave a list field without an entry. */
  lemma EditorsKeepAnEntry(list: seq<string>, index: int, value: string)
    requires |list| >= 1
    ensures |ReplaceAt(list, index, value)| >= 1 && |AddItem(list)| >= 1 && |RemoveItem(list, index)| >= 1
  {
  }

  /** `list.filter(entry => entry.trim())`: the non-blank entries, kept as typed, in order. */
  function NonBlankEntries(list: seq<string>): (r: seq<string>)
    ensures Subsequence(r, list)
    ensures forall i :: 0 <= i < |r| ==> !IsBlank(r[i])
    ensures forall i :: 0 <= i < |list| && !IsBlank(list[i]) ==> list[i] in r
  {
    FilterIsSubsequence(list, (entry: string) => !IsBlank(entry));
    Filter(list, (entry: string) => !IsBlank(entry))
  }

  /** A list has a non-blank entry exactly when some entry holds a character other than white space. */
  lemma NonBlankEntriesNonEmpty(list: seq<string>)
    ensures |NonBlankEntries(list)| > 0 <==>
      exists i, k :: 0 <= i < |list| && 0 <= k < |list[i]| && !IsSpace(list[i][k])
  {
    if |NonBlankEntries(list)| > 0 {
      var r := NonBlankEntries(list);
      SubsequenceMembers(r, list);
      var i :| 0 <= i < |list| && list[i] == r[0];
      BlankIffAllSpace(list[i]);
    } else {
      forall i | 0 <= i < |list|
        ensures forall k :: 0 <= k < |list[i]| ==> IsSpace(list[i][k])
      {
        BlankIffAllSpace(list[i]);
      }
    }
  }

  /** The condition under which validation records no error. */
  predicate FormValid(f: JobForm) {
    && !IsBlank(f.title) && !IsBlank(f.company) && !IsBlank(f.location)
    && !IsBlank(f.experience) && !IsBlank(f.description)
    && |NonBlankEntries(f.requirements)| > 0 && |NonBlankEntries(f.skills)| > 0
  }

  /** Salary, deadline and the type selection play no part in validation. */
  lemma ValidationIgnoresOptionalFields(f: JobForm, salary: string, deadline: string, t: JobType)
    ensures FormValid(f.(salary := salary, deadline := deadline, jobType := t)) == FormValid(f)
  {
  }

  /** The keys of the error record, one per validated field. */
  datatype FieldKey = TitleKey | CompanyKey | LocationKey | ExperienceKey | DescriptionKey | RequirementsKey | SkillsKey {
    /** The key's text in the error record. */
    function Name(): string {
      match this
      case TitleKey => "title"
      case CompanyKey => "company"
      case LocationKey => "location"
      case ExperienceKey => "experience"
      case DescriptionKey => "description"
      case RequirementsKey => "requirements"
      case SkillsKey => "skills"
    }
  }

  /** Whether validation fails on a field, and the message it records then. */
  predicate Fails(f: JobForm, key: FieldKey) {
    match key
    case TitleKey => IsBlank(f.title)
    case CompanyKey => IsBlank(f.company)
    case LocationKey => IsBlank(f.location)
    case ExperienceKey => IsBlank(f.experience)
    case DescriptionKey => IsBlank(f.description)
    case RequirementsKey => |NonBlankEntries(f.requirements)| == 0
    case SkillsKey => |NonBlankEntries(f.skills)| == 0
  }

  function Message(key: FieldKey): string {
    match key
    case TitleKey => "Job title is required"
    case CompanyKey => "Company name is required"
    case LocationKey => "Location is required"
    case ExperienceKey => "Experience level is required"
    case DescriptionKey => "Job description is required"
    case RequirementsKey => "At least one requirement is needed"
    case SkillsKey => "At least one skill is required"
  }

  /** A form is valid exactly when it fails on no field. */
  lemma ValidIffNoFieldFails(f: JobForm)
    ensures FormValid(f) <==> forall key: FieldKey :: !Fails(f, key)
  {
    if !FormValid(f) {
      if IsBlank(f.title) { assert Fails(f, TitleKey); }
      else if IsBlank(f.company) { assert Fails(f, CompanyKey); }
      else if IsBlank(f.location) { assert Fails(f, LocationKey); }
      else if IsBlank(f.experience) { assert Fails(f, ExperienceKey); }
      else if IsBlank(f.description) { assert Fails(f, DescriptionKey); }
      else if |NonBlankEntries(f.requirements)| == 0 { assert Fails(f, RequirementsKey); }
      else { assert Fails(f, SkillsKey); }
    }
  }

  /** One check of `validateForm`: a failing field gets its message under its key. */
  function Check(errors: map<FieldKey, string>, f: JobForm, key: FieldKey): map<FieldKey, string> {
    if Fails(f, key) then errors[key := Message(key)] else errors
  }

  /** The error record holds the message of each failing field among `checked`, and nothing else. */
  predicate Recorded(errors: map<FieldKey, string>, f: JobForm, checked: set<FieldKey>) {
    forall key :: (key in errors <==> key in checked && Fails(f, key)) && (key in errors ==> errors[key] == Message(key))
  }

  /** Each check extends the record by its own field. */
  lemma CheckRecords(errors: map<FieldKey, string>, f: JobForm, checked: set<FieldKey>, key: FieldKey)
    requires Recorded(errors, f, checked)
    ensures Recorded(Check(errors, f, key), f, checked + {key})
  {
  }

  /**
   * `validateForm`: each failing field, and only those, gets its message
   * under its key, and the form passes exactly when no error was recorded.
   */
  method ValidateForm(f: JobForm) returns (valid: bool, errors: map<FieldKey, string>)
    ensures forall key: FieldKey :: key in errors <==> Fails(f, key)
    ensures forall key :: key in errors ==> errors[key] == Message(key)
    ensures valid <==> errors == map[]
    ensures valid <==> FormValid(f)
  {
    errors := map[];
    errors := Check(errors, f, TitleKey);
    CheckRecords(map[], f, {}, TitleKey);
    errors := Check(errors, f, CompanyKey);
    CheckRecords(Check(map[], f, TitleKey), f, {TitleKey}, CompanyKey);
    assert Recorded(errors, f, {TitleKey, CompanyKey});
    var e := errors;
    errors := Check(errors, f, LocationKey);
    CheckRecords(e, f, {TitleKey, CompanyKey}, LocationKey);
    e := errors;
    errors := Check(errors, f, ExperienceKey);
    CheckRecords(e, f, {TitleKey, CompanyKey, LocationKey}, ExperienceKey);
    e := errors;
    errors := Check(errors, f, DescriptionKey);
    CheckRecords(e, f, {TitleKey, CompanyKey, LocationKey, ExperienceKey}, DescriptionKey);
    e := errors;
    errors := Check(errors, f, RequirementsKey);
    CheckRecords(e, f, {TitleKey, CompanyKey, LocationKey, ExperienceKey, DescriptionKey}, RequirementsKey);
    e := errors;
    errors := Check(errors, f, SkillsKey);
    CheckRecords(e, f, {TitleKey, CompanyKey, LocationKey, ExperienceKey, DescriptionKey, RequirementsKey}, SkillsKey);
    forall key: FieldKey ensures key in errors <==> Fails(f, key) {
      assert key in {TitleKey, CompanyKey, LocationKey, ExperienceKey, DescriptionKey, RequirementsKey, SkillsKey} by {
        match key
        case TitleKey => case CompanyKey => case LocationKey => case ExperienceKey =>
        case DescriptionKey => case RequirementsKey => case SkillsKey =>
      }
    }
    valid := errors == map[];
    ValidIffNoFieldFails(f);
    if !valid {
      var key :| key in errors;
    }
  }

  /** `value.trim() || undefined`: the trimmed text, absent when that is empty. */
  function TrimmedOrAbsent(value: string): (r: Option<string>)
    ensures r.None? <==> IsBlank(value)
    ensures r.Some? ==> r.value == Trim(value) && !IsBlank(r.value)
  {
    TrimIdempotent(value);
    if Trim(value) == "" then None else Some(Trim(value))
  }

  /** `value || undefined`: the text as typed, absent when empty. */
  function TextOrAbsent(value: string): (r: Option<string>)
    ensures r.None? <==> value == ""
    ensures r.Some? ==> r.value == value
  {
    if value == "" then None else Some(value)
  }

  /**
   * The job `handleSubmit` stores: text fields trimmed, blank list entries
   * dropped, an empty salary or deadline absent, active, posted by the user.
   */
  function NewJob(f: JobForm, user: User, id: string, now: string): Job
  {
    Job(id, Trim(f.title), Trim(f.company), Trim(f.location), f.jobType, Trim(f.experience),
        TrimmedOrAbsent(f.salary), Trim(f.description), NonBlankEntries(f.requirements),
        NonBlankEntries(f.skills), user.id, now, TextOrAbsent(f.deadline), Active)
  }

  /** A job built from a valid form has non-empty text fields and at least one requirement and one skill. */
  lemma ValidFormGivesCompleteJob(f: JobForm, user: User, id: string, now: string)
    requires FormValid(f)
    ensures var job := NewJob(f, user, id, now);
      job.title != "" && job.company != "" && job.location != "" && job.experience != ""
      && job.description != "" && |job.requirements| > 0 && |job.skills| > 0
  {
  }

  /** The stored text fields carry no white space at either end. */
  lemma NewJobFieldsTrimmed(f: JobForm, user: User, id: string, now: string)
    ensures var job := NewJob(f, user, id, now);
      Trim(job.title) == job.title && Trim(job.company) == job.company && Trim(job.location) == job.location
      && Trim(job.experience) == job.experience && Trim(job.description) == job.description
  {
    TrimIdempotent(f.title);
    TrimIdempotent(f.company);
    TrimIdempotent(f.location);
    TrimIdempotent(f.experience);
    TrimIdempotent(f.description);
  }

  /**
   * Each field of the stored job comes from the form by its own rule: the
   * text fields trimmed, the lists with their blank entries dropped, the
   * salary trimmed or absent, the deadline as typed or absent; the id, the
   * poster and the posting time from the caller, and the job active.
   */
  lemma NewJobFields(f: JobForm, user: User, id: string, now: string)
    ensures var job := NewJob(f, user, id, now);
      && job.id == id && job.postedBy == user.id && job.postedAt == now && job.status == Active
      && job.title == Trim(f.title) && job.company == Trim(f.company) && job.location == Trim(f.location)
      && job.jobType == f.jobType && job.experience == Trim(f.experience) && job.description == Trim(f.description)
      && job.salary == TrimmedOrAbsent(f.salary) && job.deadline == TextOrAbsent(f.deadline)
      && job.requirements == NonBlankEntries(f.requirements) && job.skills == NonBlankEntries(f.skills)
  {
  }

  /** How `handleSubmit` ends. */
  datatype SubmitOutcome =
    | NotEmployer   // no user or not an employer: told that only employers post
    | Invalid       // validation recorded errors
    | Posted

  class PostJobPage {
    const store: Store
    const user: Option<User>
    var form: JobForm
    var errors: map<FieldKey, string>

    /** The page opens on the starting form with no errors. */
    constructor (store: Store, user: Option<User>)
      ensures this.store == store && this.user == user
      ensures form == InitialForm(user) && errors == map[]
    {
      this.store := store;
      this.user := user;
      form := InitialForm(user);
      errors := map[];
    }

    /** The write of `handleSubmit`: the job appended to the stored jobs, read as empty when the key is falsy. */
    method Publish(job: Job)
      modifies store
      ensures store.jobs == Stored(old(store.jobs.Items()) + [job])
      ensures store.applications == old(store.applications) && store.users == old(store.users)
      ensures store.currentUser == old(store.currentUser)
    {
      store.jobs := Stored(store.jobs.Items() + [job]);
    }

    /**
     * `handleSubmit`: an employer's valid form becomes a new job appended to
     * the stored jobs. Validation replaces the error record; a refused user
     * leaves it as it was.
     */
    method HandleSubmit(newId: string, now: string) returns (outcome: SubmitOutcome)
      modifies this, store
      ensures form == old(form)
      ensures store.applications == old(store.applications) && store.users == old(store.users)
      ensures store.currentUser == old(store.currentUser)
      ensures outcome == NotEmployer <==> user.None? || user.value.role != Employer
      ensures outcome == NotEmployer ==> errors == old(errors)
      ensures outcome != NotEmployer ==> (errors == map[] <==> FormValid(form))
      ensures outcome != NotEmployer ==> forall key: FieldKey :: key in errors <==> Fails(form, key)
      ensures outcome != NotEmployer ==> forall key :: key in errors ==> errors[key] == Message(key)
      ensures outcome == Invalid <==> user.Some? && user.value.role == Employer && !FormValid(form)
      ensures outcome != Posted ==> store.jobs == old(store.jobs)
      ensures outcome == Posted ==> store.jobs == Stored(old(store.jobs.Items()) + [NewJob(form, user.value, newId, now)])
    {
      if user.None? || user.value.role != Employer {
        return NotEmployer;
      }
      var f := form;
      var valid, newErrors := ValidateForm(f);
      errors := newErrors;
      if !valid {
        return Invalid;
      }
      Publish(NewJob(f, user.value, newId, now));
      outcome := Posted;
    }
  }
}
