/** The seed job list and the first-load initialisation of local storage. */
module MockData {
  import opened Wrappers
  import opened Types
  import opened Storage

  /** The seed jobs, in order. */
  const SeedJob1 := Job("1", "Frontend Developer Intern", "TechCorp Solutions", "Bangalore, India", Internship, "0-1 years",
      Some("₹15,000 - ₹25,000/month"),
      "We are looking for a passionate Frontend Developer Intern to join our dynamic team. You will work on cutting-edge web applications using modern technologies like React, TypeScript, and Tailwind CSS.",
      ["Basic knowledge of HTML, CSS, and JavaScript", "Familiarity with React.js", "Understanding of responsive design principles",
       "Good problem-solving skills", "Excellent communication skills"],
      ["React", "JavaScript", "CSS", "HTML", "Git"],
      "employer1", "2024-01-15", Some("2024-02-15"), Active)

  const SeedJob2 := Job("2", "Software Engineer Trainee", "InnovateTech Pvt Ltd", "Hyderabad, India", FullTime, "0-2 years",
      Some("₹3.5 - ₹5.5 LPA"),
      "Join our Software Engineer Trainee program and kickstart your career in software development. You will be working on real-world projects and receive mentorship from senior developers.",
      ["Bachelor's degree in Computer Science or related field", "Strong programming fundamentals",
       "Knowledge of at least one programming language (Java, Python, C++)", "Understanding of data structures and algorithms",
       "Willingness to learn new technologies"],
      ["Java", "Python", "SQL", "Problem Solving", "Algorithms"],
      "employer2", "2024-01-20", Some("2024-03-01"), Active)

  const SeedJob3 := Job("3", "Data Analyst Intern", "DataDrive Analytics", "Mumbai, India", Internship, "0-1 years",
      Some("₹12,000 - ₹20,000/month"),
      "Exciting opportunity for a Data Analyst Intern to work with large datasets and create meaningful insights. You will learn data visualization, statistical analysis, and business intelligence tools.",
      ["Bachelor's degree in Statistics, Mathematics, or related field", "Basic knowledge of Excel and SQL",
       "Understanding of statistical concepts", "Analytical mindset", "Attention to detail"],
      ["Excel", "SQL", "Python", "Statistics", "Data Visualization"],
      "employer3", "2024-01-18", Some("2024-02-28"), Active)

  const SeedJob4 := Job("4", "UI/UX Design Intern", "Creative Studios", "Pune, India", Internship, "0-1 years",
      Some("₹10,000 - ₹18,000/month"),
      "Join our creative team as a UI/UX Design Intern. You will work on user interface design, user experience research, and create beautiful, functional designs for web and mobile applications.",
      ["Knowledge of design tools (Figma, Adobe XD, Sketch)", "Understanding of design principles",
       "Basic knowledge of user experience concepts", "Creative mindset", "Portfolio of design work"],
      ["Figma", "Adobe XD", "UI Design", "UX Research", "Prototyping"],
      "employer4", "2024-01-22", Some("2024-02-25"), Active)

  const SeedJob5 := Job("5", "Marketing Associate", "BrandBoost Marketing", "Delhi, India", FullTime, "0-2 years",
      Some("₹2.5 - ₹4 LPA"),
      "We are seeking a dynamic Marketing Associate to join our team. You will be involved in digital marketing campaigns, social media management, and market research activities.",
      ["Bachelor's degree in Marketing, Business, or related field", "Understanding of digital marketing concepts",
       "Knowledge of social media platforms", "Excellent written and verbal communication skills",
       "Creative thinking and problem-solving abilities"],
      ["Digital Marketing", "Social Media", "Content Writing", "Analytics", "SEO"],
      "employer5", "2024-01-25", Some("2024-03-10"), Active)

  const SeedJob6 := Job("6", "Full Stack Developer", "WebWorks Technologies", "Chennai, India", FullTime, "1-3 years",
      Some("₹4 - ₹7 LPA"),
      "Opportunity for a Full Stack Developer to work on exciting web applications. You will work with both frontend and backend technologies to create seamless user experiences.",
      ["Proficiency in JavaScript and TypeScript", "Experience with React.js and Node.js",
       "Knowledge of databases (MongoDB, PostgreSQL)", "Understanding of RESTful APIs",
       "Experience with version control (Git)"],
      ["React", "Node.js", "MongoDB", "TypeScript", "REST APIs"],
      "employer1", "2024-01-28", Some("2024-03-15"), Active)

  const MockJobs: seq<Job> := [SeedJob1, SeedJob2, SeedJob3, SeedJob4, SeedJob5, SeedJob6]

  /** The ids of a job list, in order. */
  function Ids(jobs: seq<Job>): seq<string> {
    seq(|jobs|, i requires 0 <= i < |jobs| => jobs[i].id)
  }

  /** The seed holds six active jobs with the distinct ids "1" to "6", in that order. */
  lemma SeedShape()
    ensures Ids(MockJobs) == ["1", "2", "3", "4", "5", "6"]
    ensures forall i :: 0 <= i < |MockJobs| ==> MockJobs[i].status == Active
  {
  }

  /** The internships are jobs 1, 3 and 4, and exactly those ask for "0-1 years". */
  lemma SeedInternships()
    ensures forall i :: 0 <= i < |MockJobs| ==>
      (MockJobs[i].jobType == Internship <==> MockJobs[i].id in {"1", "3", "4"})
    ensures forall i :: 0 <= i < |MockJobs| ==>
      (MockJobs[i].experience == "0-1 years" <==> MockJobs[i].jobType == Internship)
  {
  }

  /** One key of `initializeMockData`: a falsy entry gets the seed, anything else is kept. */
  function InitSlot<T>(slot: Slot<T>, seed: seq<T>): (r: Slot<T>)
    ensures r.Truthy()
    ensures slot.Truthy() ==> r == slot
    ensures !slot.Truthy() ==> r == Stored(seed)
  {
    if slot.Truthy() then slot else Stored(seed)
  }

  /** A second initialisation writes nothing. */
  lemma InitSlotIdempotent<T>(slot: Slot<T>, seed: seq<T>)
    ensures InitSlot(InitSlot(slot, seed), seed) == InitSlot(slot, seed)
  {
  }

  /** `initializeMockData`: seed the jobs key and empty the other two, each only when falsy. */
  method InitializeMockData(store: Store)
    modifies store
    ensures store.jobs == InitSlot(old(store.jobs), MockJobs)
    ensures store.applications == InitSlot(old(store.applications), [])
    ensures store.users == InitSlot(old(store.users), [])
    ensures store.currentUser == old(store.currentUser)
  {
    if !store.jobs.Truthy() {
      store.jobs := Stored(MockJobs);
    }
    if !store.applications.Truthy() {
      store.applications := Stored([]);
    }
    if !store.users.Truthy() {
      store.users := Stored([]);
    }
  }
}
