/** The record shapes of the three stored collections and of registration input. */
module Types {
  import opened Wrappers

  datatype Role = JobSeeker | Employer

  /**
   * A profile as the stored JavaScript object: every key may be absent. A job
   * seeker's profile uses the first seven keys and an employer's the last six;
   * because a profile update is a shallow merge of whatever keys it is given,
   * nothing stops a profile from holding keys of both kinds. A user stored
   * without a profile behaves like `NoProfile`, the object without keys.
   */
  datatype Profile = Profile(
    skills: Option<seq<string>>,
    experience: Option<string>,
    education: Option<string>,
    resumeUrl: Option<string>,
    phone: Option<string>,
    location: Option<string>,
    bio: Option<string>,
    companyName: Option<string>,
    companySize: Option<string>,
    industry: Option<string>,
    website: Option<string>,
    description: Option<string>,
    logo: Option<string>)

  const NoProfile := Profile(None, None, None, None, None, None, None, None, None, None, None, None, None)

  datatype User = User(id: string, email: string, name: string, role: Role, profile: Profile, createdAt: string)

  datatype JobType = FullTime | PartTime | Internship | Contract

  /** The text stored in a job's `type` field. */
  function TypeLabel(t: JobType): string {
    match t
    case FullTime => "full-time"
    case PartTime => "part-time"
    case Internship => "internship"
    case Contract => "contract"
  }

  datatype JobStatus = Active | Closed | Draft

  datatype Job = Job(
    id: string,
    title: string,
    company: string,
    location: string,
    jobType: JobType,
    experience: string,
    salary: Option<string>,
    description: string,
    requirements: seq<string>,
    skills: seq<string>,
    postedBy: string,
    postedAt: string,
    deadline: Option<string>,
    status: JobStatus)

  /**
   * An application. Its status is kept as text: the declared values are the
   * four constants below, but the status update accepts and stores any string.
   */
  datatype Application = Application(
    id: string,
    jobId: string,
    jobTitle: string,
    company: string,
    applicantId: string,
    applicantName: string,
    applicantEmail: string,
    resumeUrl: Option<string>,
    coverLetter: Option<string>,
    status: string,
    appliedAt: string,
    updatedAt: string)

  const Pending := "pending"
  const Shortlisted := "shortlisted"
  const Rejected := "rejected"
  const Hired := "hired"

  datatype RegisterData = RegisterData(email: string, password: string, name: string, role: Role, companyName: Option<string>)
}
