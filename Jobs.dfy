/**
 * The job list page: the loaded jobs and the five-stage filter that the
 * filter panel's changes drive.
 */
module Jobs {
  import opened Lists
  import opened Text
  import opened Types
  import opened JobFilters
  import opened Storage
  import opened MockData

  /** `loadJobs`: the stored jobs, or none when the key is falsy. */
  function LoadJobs(slot: Slot<Job>): (r: seq<Job>)
    ensures slot.Stored? ==> r == slot.items
    ensures slot.Missing? || slot.Blank? ==> r == []
  {
    slot.Items()
  }

  /** The free-text rule: the term occurs, ignoring case, in the title, the company or the description. */
  predicate MatchesSearch(job: Job, term: string) {
    IncludesIgnoringCase(job.title, term) || IncludesIgnoringCase(job.company, term)
    || IncludesIgnoringCase(job.description, term)
  }

  predicate MatchesLocation(job: Job, place: string) {
    IncludesIgnoringCase(job.location, place)
  }

  predicate MatchesType(job: Job, jobType: string) {
    TypeLabel(job.jobType) == jobType
  }

  predicate MatchesExperience(job: Job, level: string) {
    job.experience == level
  }

  /** Some wanted skill occurs, ignoring case, inside some skill of the job. */
  predicate MatchesSkills(job: Job, wanted: seq<string>) {
    Any(wanted, skill => Any(job.skills, (jobSkill: string) => IncludesIgnoringCase(jobSkill, skill)))
  }

  /** `handleFilterChange`: the five stages in the order the page runs them, each skipped when its field is empty. */
  function FilterJobs(jobs: seq<Job>, f: FilterState): seq<Job> {
    var afterSearch := if f.search != "" then Filter(jobs, job => MatchesSearch(job, f.search)) else jobs;
    var afterLocation := if f.location != "" then Filter(afterSearch, job => MatchesLocation(job, f.location)) else afterSearch;
    var afterType := if f.jobType != "" then Filter(afterLocation, job => MatchesType(job, f.jobType)) else afterLocation;
    var afterExperience := if f.experience != "" then Filter(afterType, job => MatchesExperience(job, f.experience)) else afterType;
    if |f.skills| > 0 then Filter(afterExperience, job => MatchesSkills(job, f.skills)) else afterExperience
  }

  /** A job passes the filter record: every non-empty field's rule holds. */
  predicate Matches(job: Job, f: FilterState) {
    && (f.search != "" ==> MatchesSearch(job, f.search))
    && (f.location != "" ==> MatchesLocation(job, f.location))
    && (f.jobType != "" ==> MatchesType(job, f.jobType))
    && (f.experience != "" ==> MatchesExperience(job, f.experience))
    && (|f.skills| > 0 ==> MatchesSkills(job, f.skills))
  }

  /**
   * The staged filter equals one filter by the conjunction of the active
   * rules, so the order of the stages does not matter and the result depends
   * only on the jobs and the filter record.
   */
  lemma FilterJobsIsConjunction(jobs: seq<Job>, f: FilterState)
    ensures FilterJobs(jobs, f) == Filter(jobs, job => Matches(job, f))
  {
    var p0: Job -> bool := job => true;
    var p1: Job -> bool := job => f.search != "" ==> MatchesSearch(job, f.search);
    var p2: Job -> bool := job => p1(job) && (f.location != "" ==> MatchesLocation(job, f.location));
    var p3: Job -> bool := job => p2(job) && (f.jobType != "" ==> MatchesType(job, f.jobType));
    var p4: Job -> bool := job => p3(job) && (f.experience != "" ==> MatchesExperience(job, f.experience));
    var p5: Job -> bool := job => p4(job) && (|f.skills| > 0 ==> MatchesSkills(job, f.skills));
    var s1 := if f.search != "" then Filter(jobs, job => MatchesSearch(job, f.search)) else jobs;
    assert s1 == Filter(jobs, p1) by {
      if f.search != "" {
        FilterThenFilter(jobs, p0, job => MatchesSearch(job, f.search), p1);
        FilterKeepsAll(jobs, p0);
      } else {
        FilterKeepsAll(jobs, p1);
      }
    }
    var s2 := if f.location != "" then Filter(s1, job => MatchesLocation(job, f.location)) else s1;
    assert s2 == Filter(jobs, p2) by {
      if f.location != "" {
        FilterThenFilter(jobs, p1, job => MatchesLocation(job, f.location), p2);
      } else {
        FilterThenFilter(jobs, p1, p0, p2);
        FilterKeepsAll(s1, p0);
      }
    }
    var s3 := if f.jobType != "" then Filter(s2, job => MatchesType(job, f.jobType)) else s2;
    assert s3 == Filter(jobs, p3) by {
      if f.jobType != "" {
        FilterThenFilter(jobs, p2, job => MatchesType(job, f.jobType), p3);
      } else {
        FilterThenFilter(jobs, p2, p0, p3);
        FilterKeepsAll(s2, p0);
      }
    }
    var s4 := if f.experience != "" then Filter(s3, job => MatchesExperience(job, f.experience)) else s3;
    assert s4 == Filter(jobs, p4) by {
      if f.experience != "" {
        FilterThenFilter(jobs, p3, job => MatchesExperience(job, f.experience), p4);
      } else {
        FilterThenFilter(jobs, p3, p0, p4);
        FilterKeepsAll(s3, p0);
      }
    }
    var s5 := if |f.skills| > 0 then Filter(s4, job => MatchesSkills(job, f.skills)) else s4;
    assert s5 == Filter(jobs, p5) by {
      if |f.skills| > 0 {
        FilterThenFilter(jobs, p4, job => MatchesSkills(job, f.skills), p5);
      } else {
        FilterThenFilter(jobs, p4, p0, p5);
        FilterKeepsAll(s4, p0);
      }
    }
    FilterThenFilter(jobs, p5, p0, job => Matches(job, f));
    FilterKeepsAll(Filter(jobs, p5), p0);
  }

  /**
   * The result is an order-preserving subsequence of the loaded jobs, and it
   * holds a loaded job exactly when that job passes every active rule.
   */
  lemma FilterJobsKeepsExactlyMatches(jobs: seq<Job>, f: FilterState)
    ensures Subsequence(FilterJobs(jobs, f), jobs)
    ensures forall i :: 0 <= i < |FilterJobs(jobs, f)| ==> Matches(FilterJobs(jobs, f)[i], f)
    ensures forall i :: 0 <= i < |jobs| ==> (jobs[i] in FilterJobs(jobs, f) <==> Matches(jobs[i], f))
  {
    FilterJobsIsConjunction(jobs, f);
    FilterIsSubsequence(jobs, job => Matches(job, f));
  }

  /** With no active filter, every loaded job is shown, in order. */
  lemma InactiveFiltersKeepAll(jobs: seq<Job>, f: FilterState)
    requires !HasActiveFilters(f)
    ensures FilterJobs(jobs, f) == jobs
  {
    InactiveIffCleared(f);
  }

  /** Pressing "Clear" shows the whole loaded list again. */
  lemma ClearedShowsAll(slot: Slot<Job>)
    ensures FilterJobs(LoadJobs(slot), EmptyFilters) == LoadJobs(slot)
  {
    InactiveFiltersKeepAll(LoadJobs(slot), EmptyFilters);
  }

  /** The skills rule: some wanted skill occurs, ignoring case, inside some skill of the job. */
  lemma SkillsRule(job: Job, wanted: seq<string>)
    ensures MatchesSkills(job, wanted) <==>
      exists i, k :: 0 <= i < |wanted| && 0 <= k < |job.skills| && IncludesIgnoringCase(job.skills[k], wanted[i])
  {
  }

  /** No offered experience option is the seed's "0-2 years". */
  lemma TwoYearsNotOffered(level: string)
    requires level in ExperienceLevels
    ensures level != "0-2 years"
  {
    assert "0-2 years"[2] != "0-1 years"[2];
    assert "0-2 years"[0] != "1-3 years"[0];
    assert "0-2 years"[0] != "3-5 years"[0];
    assert "0-2 years"[0] != "5+ years"[0];
  }

  /** The seed jobs with ids "2" and "5" ask for "0-2 years". */
  lemma SeedTwoYearJobs(job: Job)
    requires job in MockJobs && (job.id == "2" || job.id == "5")
    ensures job.experience == "0-2 years"
  {
    var i :| 0 <= i < |MockJobs| && MockJobs[i] == job;
    assert i == 1 || i == 4 by {
      assert "1"[0] != "2"[0] && "1"[0] != "5"[0];
      assert "3"[0] != "2"[0] && "3"[0] != "5"[0];
      assert "4"[0] != "2"[0] && "4"[0] != "5"[0];
      assert "6"[0] != "2"[0] && "6"[0] != "5"[0];
    }
  }

  /**
   * When the jobs with ids "2" and "5" ask for "0-2 years", no offered
   * experience option shows them.
   */
  lemma TwoYearJobsUnreachable(jobs: seq<Job>, level: string)
    requires level in ExperienceLevels
    requires forall job :: job in jobs && (job.id == "2" || job.id == "5") ==> job.experience == "0-2 years"
    ensures forall job :: job in FilterJobs(jobs, EmptyFilters.(experience := level)) ==> job.id != "2" && job.id != "5"
  {
    var f := EmptyFilters.(experience := level);
    FilterJobsIsConjunction(jobs, f);
    TwoYearsNotOffered(level);
    forall job | job in FilterJobs(jobs, f)
      ensures job.id != "2" && job.id != "5"
    {
      assert job in jobs && job.experience == level;
    }
  }

  /** The seed's "0-2 years" jobs (2 and 5) are not among the offered experience options, so no option ever shows them. */
  lemma SeedTwoYearJobsUnreachable(level: string)
    requires level in ExperienceLevels
    ensures forall job :: job in FilterJobs(MockJobs, EmptyFilters.(experience := level)) ==> job.id != "2" && job.id != "5"
  {
    forall job | job in MockJobs && (job.id == "2" || job.id == "5")
      ensures job.experience == "0-2 years"
    {
      SeedTwoYearJobs(job);
    }
    TwoYearJobsUnreachable(MockJobs, level);
  }

  /** Different job types are stored under different labels. */
  lemma TypeLabelInjective(a: JobType, b: JobType)
    ensures TypeLabel(a) == TypeLabel(b) <==> a == b
  {
    if a != b {
      var la, lb := TypeLabel(a), TypeLabel(b);
      if |la| == |lb| {
        assert la[0] != lb[0];
      }
    }
  }

  /** Filtering by a type option alone keeps the jobs of that type. */
  lemma TypeFilterAlone(jobs: seq<Job>, t: JobType)
    ensures FilterJobs(jobs, EmptyFilters.(jobType := TypeLabel(t))) == Filter(jobs, (job: Job) => job.jobType == t)
  {
    var f := EmptyFilters.(jobType := TypeLabel(t));
    FilterJobsIsConjunction(jobs, f);
    forall job: Job ensures Matches(job, f) == (job.jobType == t) {
      TypeLabelInjective(job.jobType, t);
    }
    FilterSamePredicate(jobs, job => Matches(job, f), (job: Job) => job.jobType == t);
  }

  /** The skills rule as a filter predicate. */
  function SkillRule(wanted: seq<string>): Job -> bool {
    job => MatchesSkills(job, wanted)
  }

  /** Filtering by a non-empty skill list alone keeps the jobs the skills rule matches. */
  lemma SkillsFilterAlone(jobs: seq<Job>, wanted: seq<string>)
    requires |wanted| > 0
    ensures FilterJobs(jobs, EmptyFilters.(skills := wanted)) == Filter(jobs, SkillRule(wanted))
  {
    var f := EmptyFilters.(skills := wanted);
    FilterJobsIsConjunction(jobs, f);
    FilterSamePredicate(jobs, job => Matches(job, f), SkillRule(wanted));
  }

  /**
   * A job is not matched by a single wanted skill when each of its skills
   * lacks, in either case, some letter of the wanted skill.
   */
  lemma {:induction false} SkillsLackLetters(job: Job, skill: string, letters: seq<char>)
    requires |letters| == |job.skills|
    requires forall k :: 0 <= k < |letters| ==>
      'a' <= letters[k] <= 'z' && (letters[k] in skill || UpperChar(letters[k]) in skill)
      && letters[k] !in job.skills[k] && UpperChar(letters[k]) !in job.skills[k]
    ensures !MatchesSkills(job, [skill])
  {
    forall k | 0 <= k < |job.skills|
      ensures !IncludesIgnoringCase(job.skills[k], skill)
    {
      MissingLetterExcludes(job.skills[k], skill, letters[k]);
    }
  }

  /** A job one of whose skills includes the wanted skill is matched by it. */
  lemma SomeSkillIncludes(job: Job, skill: string, k: nat)
    requires k < |job.skills| && IncludesIgnoringCase(job.skills[k], skill)
    ensures MatchesSkills(job, [skill])
  {
  }

  /** On the seed, jobs 1, 3 and 4 are the internships, in order. */
  lemma SeedInternshipJobs()
    ensures Filter(MockJobs, (job: Job) => job.jobType == Internship) == [SeedJob1, SeedJob3, SeedJob4]
  {
    FilterOfSix(SeedJob1, SeedJob2, SeedJob3, SeedJob4, SeedJob5, SeedJob6, (job: Job) => job.jobType == Internship);
  }

  /** On the seed, the type filter "internship" shows jobs 1, 3 and 4. */
  lemma SeedInternshipFilter()
    ensures Ids(FilterJobs(MockJobs, EmptyFilters.(jobType := "internship"))) == ["1", "3", "4"]
  {
    SeedInternshipJobs();
    TypeFilterAlone(MockJobs, Internship);
    assert Ids([SeedJob1, SeedJob3, SeedJob4]) == ["1", "3", "4"];
  }

  // Which seed jobs the single skills "React" and "Java" match, one job at a time.

  lemma SeedJob1Skills(skill: string)
    requires skill == "React" || skill == "Java"
    ensures MatchesSkills(SeedJob1, [skill])
  {
    if skill == "React" {
      PrefixIncludedIgnoringCase(skill, "");
      assert skill + "" == SeedJob1.skills[0];
      SomeSkillIncludes(SeedJob1, skill, 0);
    } else {
      PrefixIncludedIgnoringCase(skill, "Script");
      assert skill + "Script" == SeedJob1.skills[1];
      SomeSkillIncludes(SeedJob1, skill, 1);
    }
  }

  lemma SeedJob2Skills(skill: string)
    requires skill == "React" || skill == "Java"
    ensures MatchesSkills(SeedJob2, [skill]) <==> skill == "Java"
  {
    if skill == "React" {
      SkillsLackLetters(SeedJob2, skill, "eeeae");
    } else {
      PrefixIncludedIgnoringCase(skill, "");
      assert skill + "" == SeedJob2.skills[0];
      SomeSkillIncludes(SeedJob2, skill, 0);
    }
  }

  lemma SeedJob3Skills(skill: string)
    requires skill == "React" || skill == "Java"
    ensures !MatchesSkills(SeedJob3, [skill])
  {
    SkillsLackLetters(SeedJob3, skill, if skill == "React" then "rrrrr" else "jjjjj");
  }

  lemma SeedJob4Skills(skill: string)
    requires skill == "React" || skill == "Java"
    ensures !MatchesSkills(SeedJob4, [skill])
  {
    SkillsLackLetters(SeedJob4, skill, if skill == "React" then "rrrte" else "jjjjj");
  }

  lemma SeedJob5Skills(skill: string)
    requires skill == "React" || skill == "Java"
    ensures !MatchesSkills(SeedJob5, [skill])
  {
    SkillsLackLetters(SeedJob5, skill, if skill == "React" then "crarr" else "jjjjj");
  }

  lemma SeedJob6Skills(skill: string)
    requires skill == "React" || skill == "Java"
    ensures MatchesSkills(SeedJob6, [skill]) <==> skill == "React"
  {
    if skill == "React" {
      PrefixIncludedIgnoringCase(skill, "");
      assert skill + "" == SeedJob6.skills[0];
      SomeSkillIncludes(SeedJob6, skill, 0);
    } else {
      SkillsLackLetters(SeedJob6, skill, "jvjjj");
    }
  }

  /**
   * Six jobs of which the single skill picks the first and the sixth (for
   * "React") or the first and the second (for "Java"): the skills rule
   * keeps those two, in order.
   */
  lemma SkillKeepsOfSix(a: Job, b: Job, c: Job, d: Job, e: Job, f: Job, skill: string)
    requires skill == "React" || skill == "Java"
    requires MatchesSkills(a, [skill])
    requires MatchesSkills(b, [skill]) <==> skill == "Java"
    requires !MatchesSkills(c, [skill]) && !MatchesSkills(d, [skill]) && !MatchesSkills(e, [skill])
    requires MatchesSkills(f, [skill]) <==> skill == "React"
    ensures Filter([a, b, c, d, e, f], SkillRule([skill])) == if skill == "React" then [a, f] else [a, b]
  {
    FilterOfSix(a, b, c, d, e, f, SkillRule([skill]));
  }

  /** The ids of a two-job list. */
  lemma IdsOfTwo(x: Job, y: Job)
    ensures Ids([x, y]) == [x.id, y.id]
  {
  }

  /** For such six jobs the skills filter alone shows the ids of those two. */
  lemma SkillPickOfSix(a: Job, b: Job, c: Job, d: Job, e: Job, f: Job, skill: string)
    requires skill == "React" || skill == "Java"
    requires MatchesSkills(a, [skill])
    requires MatchesSkills(b, [skill]) <==> skill == "Java"
    requires !MatchesSkills(c, [skill]) && !MatchesSkills(d, [skill]) && !MatchesSkills(e, [skill])
    requires MatchesSkills(f, [skill]) <==> skill == "React"
    ensures Ids(FilterJobs([a, b, c, d, e, f], EmptyFilters.(skills := [skill]))) ==
      if skill == "React" then [a.id, f.id] else [a.id, b.id]
  {
    SkillKeepsOfSix(a, b, c, d, e, f, skill);
    SkillsFilterAlone([a, b, c, d, e, f], [skill]);
    if skill == "React" {
      IdsOfTwo(a, f);
    } else {
      IdsOfTwo(a, b);
    }
  }

  /** On the seed, the skills filter ["React"] shows ids 1 and 6, and ["Java"] ids 1 and 2. */
  lemma SeedSkillFilter(skill: string)
    requires skill == "React" || skill == "Java"
    ensures Ids(FilterJobs(MockJobs, EmptyFilters.(skills := [skill]))) ==
      if skill == "React" then ["1", "6"] else ["1", "2"]
  {
    SeedJob1Skills(skill);
    SeedJob2Skills(skill);
    SeedJob3Skills(skill);
    SeedJob4Skills(skill);
    SeedJob5Skills(skill);
    SeedJob6Skills(skill);
    SkillPickOfSix(SeedJob1, SeedJob2, SeedJob3, SeedJob4, SeedJob5, SeedJob6, skill);
  }
}
