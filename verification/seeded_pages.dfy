/** What the list pages show right after the application starts on an empty
    database: each table holds its sample record alone. */
module SeededPages {

  import opened Text
  import opened Table
  import opened Resources
  import opened Seeding

  const SeededCandidatesTable: TableView :=
    TableView("Candidates", ["ID", "Name", "Contact", "Skills"],
              Records([["1", "John Doe", "john@example.com", "Python, Flask, SQLAlchemy"]]))

  /** GET /candidates after start-up on an empty store whose first candidate
      gets id 1 shows the sample candidate as the only row. */
  lemma SeededCandidatesPage(ids: SeedIds)
    requires ids.candidate == 1
    ensures ShowsTable(CandidatesGet(Startup(EmptyStore, ids).candidates), SeededCandidatesTable)
  {
    var cs := [SampleCandidate(ids.candidate)];
    assert Startup(EmptyStore, ids).candidates == cs by {
      StartupOnEmpty(ids);
    }
    SampleCandidateView();
    CandidatesPage(cs);
  }

  lemma SampleCandidateView()
    ensures CandidatePlain(SampleCandidate(1))
    ensures CandidatesView([SampleCandidate(1)]) == SeededCandidatesTable
  {
    assert Plain("John Doe") && Plain("john@example.com") && Plain("Python, Flask, SQLAlchemy");
    assert IntToString(1) == "1";
    assert CandidateTexts(SampleCandidate(1)) == SeededCandidatesTable.body.rows[0];
  }

  const SeededJobListingsTable: TableView :=
    TableView("Job Listings", ["ID", "Company", "Salary", "Status"],
              Records([["1", "Acme Corp", "$50,000", "Open"]]))

  /** GET /job_listings after start-up on an empty store whose first listing
      gets id 1 shows the sample listing, with its explicit status "Open". */
  lemma SeededJobListingsPage(ids: SeedIds)
    requires ids.jobListing == 1
    ensures ShowsTable(JobListingsGet(Startup(EmptyStore, ids).jobListings), SeededJobListingsTable)
  {
    var js := [SampleJobListing(ids.jobListing)];
    assert Startup(EmptyStore, ids).jobListings == js by {
      StartupOnEmpty(ids);
    }
    SampleJobListingView();
    JobListingsPage(js);
  }

  lemma SampleJobListingView()
    ensures JobListingPlain(SampleJobListing(1))
    ensures JobListingsView([SampleJobListing(1)]) == SeededJobListingsTable
  {
    assert Plain("Acme Corp") && Plain("$50,000") && Plain("Open");
    assert IntToString(1) == "1";
    assert JobListingTexts(SampleJobListing(1)) == SeededJobListingsTable.body.rows[0];
  }

  const SeededApplicationsTable: TableView :=
    TableView("Applications", ["ID", "Candidate ID", "Job ID", "Status"],
              Records([["1", "1", "1", "Pending"]]))

  /** GET /applications after start-up on an empty store whose first
      application gets id 1 shows the sample application, pointing at
      candidate 1 and job listing 1. */
  lemma SeededApplicationsPage(ids: SeedIds)
    requires ids.application == 1
    ensures ShowsTable(ApplicationsGet(Startup(EmptyStore, ids).applications), SeededApplicationsTable)
  {
    var as_ := [SampleApplication(ids.application)];
    assert Startup(EmptyStore, ids).applications == as_ by {
      StartupOnEmpty(ids);
    }
    SampleApplicationView();
    ApplicationsPage(as_);
  }

  lemma SampleApplicationView()
    ensures PlainText(SampleApplication(1).status)
    ensures ApplicationsView([SampleApplication(1)]) == SeededApplicationsTable
  {
    assert Plain("Pending");
    assert IntToString(1) == "1";
    assert ApplicationTexts(SampleApplication(1)) == SeededApplicationsTable.body.rows[0];
  }
}
