/**
 * The filter panel above the job list: its filter record, the handlers that
 * change it, and the fixed option lists it offers.
 */
module JobFilters {
  import opened Lists
  import opened Types

  /** The panel's state; an empty string or an empty list means "no constraint". */
  datatype FilterState = FilterState(search: string, location: string, jobType: string, experience: string, skills: seq<string>)

  /** The initial state, and the state `clearFilters` sets and emits. */
  const EmptyFilters := FilterState("", "", "", "", [])

  /** The options of the type and experience drop-downs and the skill chips. */
  const JobTypes: seq<string> := ["full-time", "part-time", "internship", "contract"]
  const ExperienceLevels: seq<string> := ["0-1 years", "1-3 years", "3-5 years", "5+ years"]
  const PopularSkills: seq<string> := ["React", "JavaScript", "Python", "Java", "Node.js", "SQL", "HTML", "CSS", "Git", "Docker"]

  /** The keys of the filter record that hold text. */
  datatype TextKey = SearchKey | LocationKey | TypeKey | ExperienceKey

  function TextOf(f: FilterState, key: TextKey): string {
    match key
    case SearchKey => f.search
    case LocationKey => f.location
    case TypeKey => f.jobType
    case ExperienceKey => f.experience
  }

  /**
   * `handleFilterChange(key, value)` for a text key: the new record, which the
   * panel both stores and emits to the job list.
   */
  function ChangeText(f: FilterState, key: TextKey, value: string): (r: FilterState)
    ensures TextOf(r, key) == value
    ensures forall k :: k != key ==> TextOf(r, k) == TextOf(f, k)
    ensures r.skills == f.skills
  {
    match key
    case SearchKey => f.(search := value)
    case LocationKey => f.(location := value)
    case TypeKey => f.(jobType := value)
    case ExperienceKey => f.(experience := value)
  }

  /** `handleFilterChange('skills', value)`: only the skills change. */
  function ChangeSkills(f: FilterState, value: seq<string>): (r: FilterState)
    ensures r.skills == value
    ensures forall k :: TextOf(r, k) == TextOf(f, k)
  {
    f.(skills := value)
  }

  /** The skill list after `handleSkillToggle(skill)`: remove every copy if present, else append. */
  function ToggleSkill(skills: seq<string>, skill: string): (r: seq<string>)
    ensures skill in r <==> skill !in skills
    ensures forall s :: s != skill ==> (s in r <==> s in skills)
  {
    if skill in skills then RemoveAll(skills, skill) else skills + [skill]
  }

  /** `handleSkillToggle(skill)`: the skill list is toggled and the text fields stay. */
  function SkillToggled(f: FilterState, skill: string): (r: FilterState)
    ensures skill in r.skills <==> skill !in f.skills
    ensures forall s :: s != skill ==> (s in r.skills <==> s in f.skills)
    ensures forall k :: TextOf(r, k) == TextOf(f, k)
  {
    ChangeSkills(f, ToggleSkill(f.skills, skill))
  }

  /** Toggling an absent skill twice gives back the original list. */
  lemma ToggleTwiceRestores(skills: seq<string>, skill: string)
    requires skill !in skills
    ensures ToggleSkill(ToggleSkill(skills, skill), skill) == skills
  {
    RemoveAfterAppend(skills, skill);
  }

  /** Toggling never duplicates a skill. */
  lemma ToggleKeepsNoDuplicates(skills: seq<string>, skill: string)
    requires NoDuplicates(skills)
    ensures NoDuplicates(ToggleSkill(skills, skill))
  {
    var r := ToggleSkill(skills, skill);
    if skill in skills {
      SubsequenceNoDuplicates(r, skills);
    }
  }

  /** `hasActiveFilters`: some text field is non-empty or some skill is chosen. */
  predicate HasActiveFilters(f: FilterState) {
    f.search != "" || f.location != "" || f.jobType != "" || f.experience != "" || |f.skills| > 0
  }

  /** No filter is active exactly in the cleared state, so "Clear" hides itself once pressed. */
  lemma InactiveIffCleared(f: FilterState)
    ensures !HasActiveFilters(f) <==> f == EmptyFilters
  {
    if !HasActiveFilters(f) {
      assert f.skills == [];
    }
  }

  /** The skill chips offer "React" and "Java", so the seed's single-skill filters are one chip away. */
  lemma ChipsOfferReactAndJava()
    ensures "React" in PopularSkills && "Java" in PopularSkills
    ensures SkillToggled(EmptyFilters, "React").skills == ["React"]
    ensures SkillToggled(EmptyFilters, "Java").skills == ["Java"]
  {
    assert PopularSkills[0] == "React" && PopularSkills[3] == "Java";
  }

  /** The type options are exactly the stored labels of the four job types, each once. */
  lemma TypeOptionsAreJobTypes()
    ensures forall t :: TypeLabel(t) in JobTypes
    ensures forall i :: 0 <= i < |JobTypes| ==> exists t :: TypeLabel(t) == JobTypes[i]
    ensures NoDuplicates(JobTypes)
  {
    assert TypeLabel(FullTime) == JobTypes[0];
    assert TypeLabel(PartTime) == JobTypes[1];
    assert TypeLabel(Internship) == JobTypes[2];
    assert TypeLabel(Contract) == JobTypes[3];
  }
}
