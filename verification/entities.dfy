/** The five record types the store holds (the model classes of the
    application). A nullable column is an `Option`; a column declared
    `nullable=False` is a plain value. Ids are assigned by the store and are
    given to the constructors as inputs. */
module Entities {

  import opened Wrappers

  datatype Candidate = Candidate(
    id: int,
    name: string,
    contactInfo: Option<string>,
    skills: Option<string>,
    qualifications: Option<string>,
    experience: Option<string>)

  datatype JobListing = JobListing(
    id: int,
    companyName: string,
    jobDescription: Option<string>,
    requiredSkills: Option<string>,
    salary: Option<string>,
    status: Option<string>)

  datatype TrainingProgram = TrainingProgram(
    id: int,
    programName: string,
    description: Option<string>,
    skillsCovered: Option<string>,
    institutionPartnered: Option<string>)

  datatype AssessmentTest = AssessmentTest(
    id: int,
    skillArea: string,
    testDescription: Option<string>,
    performanceMetrics: Option<string>)

  datatype Application = Application(
    id: int,
    candidateId: int,
    jobId: int,
    status: Option<string>)

  /** The status a job listing gets when none is given. */
  const DefaultJobStatus: string := "Open"

  /** The status an application gets when none is given. */
  const DefaultApplicationStatus: string := "Pending"

  /** A job listing as inserted: a status left out becomes "Open". */
  function NewJobListing(
    id: int,
    companyName: string,
    jobDescription: Option<string> := None,
    requiredSkills: Option<string> := None,
    salary: Option<string> := None,
    status: Option<string> := Some(DefaultJobStatus)): JobListing
  {
    JobListing(id, companyName, jobDescription, requiredSkills, salary, status)
  }

  /** An application as inserted: a status left out becomes "Pending". */
  function NewApplication(
    id: int,
    candidateId: int,
    jobId: int,
    status: Option<string> := Some(DefaultApplicationStatus)): Application
  {
    Application(id, candidateId, jobId, status)
  }

  /** Leaving the status out gives the column defaults. */
  lemma StatusDefaults(id: int, companyName: string, candidateId: int, jobId: int)
    ensures NewJobListing(id, companyName).status == Some("Open")
    ensures NewApplication(id, candidateId, jobId).status == Some("Pending")
  {
  }
}
