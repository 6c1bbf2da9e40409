/** The URL table: the five list resources registered with the API, and the
    links the home page offers to reach them. */
module Routes {

  import opened Wrappers
  import opened Resources

  /** The endpoints in the order they are registered. */
  const Registered: seq<Endpoint> :=
    [CandidatesEndpoint, JobListingsEndpoint, TrainingProgramsEndpoint, AssessmentTestsEndpoint, ApplicationsEndpoint]

  /** A link of the home page's list: its target and its text. */
  datatype Link = Link(href: string, text: string)

  /** The home page's links, in page order. */
  const HomeLinks: seq<Link> := [
    Link("/candidates", "Candidates"),
    Link("/job_listings", "Job Listings"),
    Link("/training_programs", "Training Programs"),
    Link("/assessment_tests", "Assessment Tests"),
    Link("/applications", "Applications")
  ]

  /** Whether some registered endpoint answers `path`. */
  predicate Serves(path: string) {
    exists k :: 0 <= k < |Registered| && Registered[k].path == path
  }

  /** The endpoint that answers `path`: the first one registered for it, or
      none. */
  method Dispatch(path: string) returns (r: Option<Endpoint>)
    ensures r.Some? <==> Serves(path)
    ensures r.Some? ==> r.value.path == path && r.value in Registered
  {
    r := None;
    for k := 0 to |Registered|
      invariant r.None? <==> forall m :: 0 <= m < k ==> Registered[m].path != path
      invariant r.Some? ==> r.value.path == path && r.value in Registered
    {
      if r.None? && Registered[k].path == path {
        r := Some(Registered[k]);
      }
    }
  }

  /** No two endpoints share a path, so every path has at most one
      resource. */
  lemma PathsDistinct()
    ensures forall k, m :: 0 <= k < m < |Registered| ==> Registered[k].path != Registered[m].path
  {
  }

  /** The home page links to every registered endpoint and to nothing else,
      in registration order, each link's text being the page title of the
      endpoint it leads to. */
  lemma HomeLinksMatchRegistered()
    ensures |HomeLinks| == |Registered|
    ensures forall k :: 0 <= k < |HomeLinks| ==>
              HomeLinks[k].href == Registered[k].path && HomeLinks[k].text == Registered[k].title
    ensures forall k :: 0 <= k < |HomeLinks| ==> Serves(HomeLinks[k].href)
  {
    forall k | 0 <= k < |HomeLinks|
      ensures Serves(HomeLinks[k].href)
    {
      assert Registered[k].path == HomeLinks[k].href;
    }
  }

  /** The home page itself is not one of the list resources. */
  lemma RootIsNotAResource()
    ensures !Serves("/")
  {
  }
}
