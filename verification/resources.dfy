/** The five list endpoints: each projects every record of one type to a row
    whose keys are exactly its column labels, renders the rows with
    render_table and wraps the table with render_page under the same title.
    The records are taken as the store returns them; their order is the
    store's. */
module Resources {

  import opened Wrappers
  import opened Text
  import opened Cells
  import opened Table
  import opened Render
  import opened Parse
  import opened Entities

  /** What an endpoint is configured with: its path, its page title and its
      column labels. */
  datatype Endpoint = Endpoint(path: string, title: string, columns: seq<string>)

  const CandidatesEndpoint: Endpoint :=
    Endpoint("/candidates", "Candidates", ["ID", "Name", "Contact", "Skills"])
  const JobListingsEndpoint: Endpoint :=
    Endpoint("/job_listings", "Job Listings", ["ID", "Company", "Salary", "Status"])
  const TrainingProgramsEndpoint: Endpoint :=
    Endpoint("/training_programs", "Training Programs", ["ID", "Program", "Institution"])
  const AssessmentTestsEndpoint: Endpoint :=
    Endpoint("/assessment_tests", "Assessment Tests", ["ID", "Skill Area", "Description"])
  const ApplicationsEndpoint: Endpoint :=
    Endpoint("/applications", "Applications", ["ID", "Candidate ID", "Job ID", "Status"])

  /** The labels of `columns` as a set. */
  function Labels(columns: seq<string>): (r: set<string>) {
    set c | c in columns
  }

  /** A nullable text column as a cell value: NULL reads back as `None`. */
  function OfText(v: Option<string>): (r: CellValue) {
    match v
    case Some(s) => Str(s)
    case None => Null
  }

  /** What a nullable text column shows, written independently of `Show`. */
  function TextShown(v: Option<string>): (r: string) {
    match v
    case Some(s) => s
    case None => "None"
  }

  predicate PlainText(v: Option<string>) {
    Plain(TextShown(v))
  }

  /** `page` is a render_page output whose title is the table's title and
      whose content reads back as the table `v`. */
  predicate ShowsTable(page: string, v: TableView) {
    match ParsePage(page)
    case Some(p) => p.title == v.title && ParseTable(p.content) == Some(v)
    case None => false
  }

  /** The table an endpoint shows for rows of the given texts. */
  function TableOf(ep: Endpoint, texts: seq<seq<string>>): (r: TableView) {
    TableView(ep.title, ep.columns, Listing(texts, |ep.columns|))
  }

  /** The body of an endpoint's GET: render the projected rows and wrap
      them in the page, both under the endpoint's title. */
  function Get(ep: Endpoint, data: seq<Row>): (r: string)
    ensures r == RenderPage(Serialize(Layout(ep.title, ep.columns, data)), ep.title)
  {
    RenderPage(RenderTable(ep.title, ep.columns, data), ep.title)
  }

  /** When each data row shows the given texts, the structured table the
      endpoint renders is the table of those texts. */
  lemma LayoutIsTableOf(ep: Endpoint, data: seq<Row>, texts: seq<seq<string>>)
    requires |texts| == |data|
    requires forall i :: 0 <= i < |data| ==> RowTexts(data[i], ep.columns) == texts[i]
    ensures Layout(ep.title, ep.columns, data) == TableOf(ep, texts)
  {
    assert DataTexts(data, ep.columns) == texts;
  }

  /** The page an endpoint serves reads back into its title and a table
      with the endpoint's labels as header and, per row, the given texts;
      or the placeholder spanning every column when there are no rows. */
  lemma GetReadsBack(ep: Endpoint, data: seq<Row>, texts: seq<seq<string>>)
    requires Plain(ep.title)
    requires forall j :: 0 <= j < |ep.columns| ==> Plain(ep.columns[j])
    requires |texts| == |data|
    requires forall i :: 0 <= i < |data| ==> RowTexts(data[i], ep.columns) == texts[i]
    requires forall i, j :: 0 <= i < |texts| && 0 <= j < |texts[i]| ==> Plain(texts[i][j])
    ensures ShowsTable(Get(ep, data), TableOf(ep, texts))
  {
    var content := RenderTable(ep.title, ep.columns, data);
    PageRoundTrip(content, ep.title);
    assert DataTexts(data, ep.columns) == texts;
    RenderTableReadsBack(ep.title, ep.columns, data);
  }

  // ---------------------------------------------------------------------
  // Candidates
  // ---------------------------------------------------------------------

  /** The row CandidateResource.get builds for one candidate. Its keys are
      exactly the column labels, so no cell falls back to ''. */
  function CandidateRow(c: Candidate): (r: Row)
    ensures r.Keys == Labels(CandidatesEndpoint.columns)
  {
    map["ID" := Int(c.id), "Name" := Str(c.name), "Contact" := OfText(c.contactInfo), "Skills" := OfText(c.skills)]
  }

  function CandidateTexts(c: Candidate): (r: seq<string>) {
    [IntToString(c.id), c.name, TextShown(c.contactInfo), TextShown(c.skills)]
  }

  predicate CandidatePlain(c: Candidate) {
    Plain(c.name) && PlainText(c.contactInfo) && PlainText(c.skills)
  }

  /** The dictionaries CandidateResource.get builds, one per record in the
      store's order. */
  function CandidateRows(cs: seq<Candidate>): (r: seq<Row>)
    ensures |r| == |cs|
    ensures forall i :: 0 <= i < |cs| ==> r[i] == CandidateRow(cs[i])
  {
    seq(|cs|, i requires 0 <= i < |cs| => CandidateRow(cs[i]))
  }

  /** GET /candidates for every store content: the page of the table with one
      row of texts per record, in the store's order, or the placeholder. */
  function CandidatesGet(cs: seq<Candidate>): (r: string)
    ensures r == RenderPage(Serialize(CandidatesView(cs)), CandidatesEndpoint.title)
  {
    CandidatesLayout(cs);
    Get(CandidatesEndpoint, CandidateRows(cs))
  }

  /** Whatever the records hold, the table rendered from their rows is the
      table of their texts. */
  lemma CandidatesLayout(cs: seq<Candidate>)
    ensures Layout(CandidatesEndpoint.title, CandidatesEndpoint.columns, CandidateRows(cs)) == CandidatesView(cs)
  {
    var texts := seq(|cs|, i requires 0 <= i < |cs| => CandidateTexts(cs[i]));
    forall i | 0 <= i < |cs|
      ensures RowTexts(CandidateRows(cs)[i], CandidatesEndpoint.columns) == texts[i]
    {
      CandidateCells(cs[i]);
    }
    LayoutIsTableOf(CandidatesEndpoint, CandidateRows(cs), texts);
  }

  /** The table GET /candidates shows: one row of texts per record, in the
      store's order, or the placeholder. */
  function CandidatesView(cs: seq<Candidate>): (r: TableView) {
    TableOf(CandidatesEndpoint, seq(|cs|, i requires 0 <= i < |cs| => CandidateTexts(cs[i])))
  }

  /** GET /candidates: one row per candidate, showing id, name, contact
      and skills in that order, a NULL column as "None". */
  lemma CandidatesPage(cs: seq<Candidate>)
    requires forall i :: 0 <= i < |cs| ==> CandidatePlain(cs[i])
    ensures ShowsTable(CandidatesGet(cs), CandidatesView(cs))
  {
    var ep := CandidatesEndpoint;
    var data := CandidateRows(cs);
    var texts := seq(|cs|, i requires 0 <= i < |cs| => CandidateTexts(cs[i]));
    forall i | 0 <= i < |cs|
      ensures RowTexts(data[i], ep.columns) == texts[i]
      ensures forall j :: 0 <= j < |texts[i]| ==> Plain(texts[i][j])
    {
      CandidateCells(cs[i]);
    }
    GetReadsBack(ep, data, texts);
  }

  /** The cells of one candidate's row show its texts; they are all free of
      '<' when its text columns are. */
  lemma CandidateCells(c: Candidate)
    ensures RowTexts(CandidateRow(c), CandidatesEndpoint.columns) == CandidateTexts(c)
    ensures CandidatePlain(c) ==> forall k :: 0 <= k < |CandidateTexts(c)| ==> Plain(CandidateTexts(c)[k])
  {
    var r := CandidateRow(c);
    var cols := CandidatesEndpoint.columns;
    assert CellText(r, cols[0]) == IntToString(c.id);
    assert CellText(r, cols[1]) == c.name;
    assert CellText(r, cols[2]) == TextShown(c.contactInfo);
    assert CellText(r, cols[3]) == TextShown(c.skills);
  }

  // ---------------------------------------------------------------------
  // Job listings
  // ---------------------------------------------------------------------

  /** The row JobListingResource.get builds for one listing. */
  function JobListingRow(j: JobListing): (r: Row)
    ensures r.Keys == Labels(JobListingsEndpoint.columns)
  {
    map["ID" := Int(j.id), "Company" := Str(j.companyName), "Salary" := OfText(j.salary), "Status" := OfText(j.status)]
  }

  function JobListingTexts(j: JobListing): (r: seq<string>) {
    [IntToString(j.id), j.companyName, TextShown(j.salary), TextShown(j.status)]
  }

  predicate JobListingPlain(j: JobListing) {
    Plain(j.companyName) && PlainText(j.salary) && PlainText(j.status)
  }

  /** The dictionaries JobListingResource.get builds, one per record in the
      store's order. */
  function JobListingRows(js: seq<JobListing>): (r: seq<Row>)
    ensures |r| == |js|
    ensures forall i :: 0 <= i < |js| ==> r[i] == JobListingRow(js[i])
  {
    seq(|js|, i requires 0 <= i < |js| => JobListingRow(js[i]))
  }

  /** GET /job_listings for every store content: the page of the table with one
      row of texts per record, in the store's order, or the placeholder. */
  function JobListingsGet(js: seq<JobListing>): (r: string)
    ensures r == RenderPage(Serialize(JobListingsView(js)), JobListingsEndpoint.title)
  {
    JobListingsLayout(js);
    Get(JobListingsEndpoint, JobListingRows(js))
  }

  /** Whatever the records hold, the table rendered from their rows is the
      table of their texts. */
  lemma JobListingsLayout(js: seq<JobListing>)
    ensures Layout(JobListingsEndpoint.title, JobListingsEndpoint.columns, JobListingRows(js)) == JobListingsView(js)
  {
    var texts := seq(|js|, i requires 0 <= i < |js| => JobListingTexts(js[i]));
    forall i | 0 <= i < |js|
      ensures RowTexts(JobListingRows(js)[i], JobListingsEndpoint.columns) == texts[i]
    {
      JobListingCells(js[i]);
    }
    LayoutIsTableOf(JobListingsEndpoint, JobListingRows(js), texts);
  }

  /** The table GET /job_listings shows: one row of texts per record, in the
      store's order, or the placeholder. */
  function JobListingsView(js: seq<JobListing>): (r: TableView) {
    TableOf(JobListingsEndpoint, seq(|js|, i requires 0 <= i < |js| => JobListingTexts(js[i])))
  }

  /** GET /job_listings: one row per listing, showing id, company, salary
      and status in that order. */
  lemma JobListingsPage(js: seq<JobListing>)
    requires forall i :: 0 <= i < |js| ==> JobListingPlain(js[i])
    ensures ShowsTable(JobListingsGet(js), JobListingsView(js))
  {
    var ep := JobListingsEndpoint;
    var data := JobListingRows(js);
    var texts := seq(|js|, i requires 0 <= i < |js| => JobListingTexts(js[i]));
    forall i | 0 <= i < |js|
      ensures RowTexts(data[i], ep.columns) == texts[i]
      ensures forall j :: 0 <= j < |texts[i]| ==> Plain(texts[i][j])
    {
      JobListingCells(js[i]);
    }
    GetReadsBack(ep, data, texts);
  }

  /** The cells of one listing's row show its texts, all free of '<' when its
      text columns are. */
  lemma JobListingCells(j: JobListing)
    ensures RowTexts(JobListingRow(j), JobListingsEndpoint.columns) == JobListingTexts(j)
    ensures JobListingPlain(j) ==> forall k :: 0 <= k < |JobListingTexts(j)| ==> Plain(JobListingTexts(j)[k])
  {
    var r := JobListingRow(j);
    var cols := JobListingsEndpoint.columns;
    assert CellText(r, cols[0]) == IntToString(j.id);
    assert CellText(r, cols[1]) == j.companyName;
    assert CellText(r, cols[2]) == TextShown(j.salary);
    assert CellText(r, cols[3]) == TextShown(j.status);
  }

  // ---------------------------------------------------------------------
  // Training programs
  // ---------------------------------------------------------------------

  /** The row TrainingProgramResource.get builds for one program. */
  function TrainingProgramRow(t: TrainingProgram): (r: Row)
    ensures r.Keys == Labels(TrainingProgramsEndpoint.columns)
  {
    map["ID" := Int(t.id), "Program" := Str(t.programName), "Institution" := OfText(t.institutionPartnered)]
  }

  function TrainingProgramTexts(t: TrainingProgram): (r: seq<string>) {
    [IntToString(t.id), t.programName, TextShown(t.institutionPartnered)]
  }

  predicate TrainingProgramPlain(t: TrainingProgram) {
    Plain(t.programName) && PlainText(t.institutionPartnered)
  }

  /** The dictionaries TrainingProgramResource.get builds, one per record in the
      store's order. */
  function TrainingProgramRows(ts: seq<TrainingProgram>): (r: seq<Row>)
    ensures |r| == |ts|
    ensures forall i :: 0 <= i < |ts| ==> r[i] == TrainingProgramRow(ts[i])
  {
    seq(|ts|, i requires 0 <= i < |ts| => TrainingProgramRow(ts[i]))
  }

  /** GET /training_programs for every store content: the page of the table with one
      row of texts per record, in the store's order, or the placeholder. */
  function TrainingProgramsGet(ts: seq<TrainingProgram>): (r: string)
    ensures r == RenderPage(Serialize(TrainingProgramsView(ts)), TrainingProgramsEndpoint.title)
  {
    TrainingProgramsLayout(ts);
    Get(TrainingProgramsEndpoint, TrainingProgramRows(ts))
  }

  /** Whatever the records hold, the table rendered from their rows is the
      table of their texts. */
  lemma TrainingProgramsLayout(ts: seq<TrainingProgram>)
    ensures Layout(TrainingProgramsEndpoint.title, TrainingProgramsEndpoint.columns, TrainingProgramRows(ts)) == TrainingProgramsView(ts)
  {
    var texts := seq(|ts|, i requires 0 <= i < |ts| => TrainingProgramTexts(ts[i]));
    forall i | 0 <= i < |ts|
      ensures RowTexts(TrainingProgramRows(ts)[i], TrainingProgramsEndpoint.columns) == texts[i]
    {
      TrainingProgramCells(ts[i]);
    }
    LayoutIsTableOf(TrainingProgramsEndpoint, TrainingProgramRows(ts), texts);
  }

  /** The table GET /training_programs shows: one row of texts per record, in the
      store's order, or the placeholder. */
  function TrainingProgramsView(ts: seq<TrainingProgram>): (r: TableView) {
    TableOf(TrainingProgramsEndpoint, seq(|ts|, i requires 0 <= i < |ts| => TrainingProgramTexts(ts[i])))
  }

  /** GET /training_programs: one row per program, showing id, program
      name and institution in that order. */
  lemma TrainingProgramsPage(ts: seq<TrainingProgram>)
    requires forall i :: 0 <= i < |ts| ==> TrainingProgramPlain(ts[i])
    ensures ShowsTable(TrainingProgramsGet(ts), TrainingProgramsView(ts))
  {
    var ep := TrainingProgramsEndpoint;
    var data := TrainingProgramRows(ts);
    var texts := seq(|ts|, i requires 0 <= i < |ts| => TrainingProgramTexts(ts[i]));
    forall i | 0 <= i < |ts|
      ensures RowTexts(data[i], ep.columns) == texts[i]
      ensures forall j :: 0 <= j < |texts[i]| ==> Plain(texts[i][j])
    {
      TrainingProgramCells(ts[i]);
    }
    GetReadsBack(ep, data, texts);
  }

  /** The cells of one program's row show its texts, all free of '<' when its
      text columns are. */
  lemma TrainingProgramCells(t: TrainingProgram)
    ensures RowTexts(TrainingProgramRow(t), TrainingProgramsEndpoint.columns) == TrainingProgramTexts(t)
    ensures TrainingProgramPlain(t) ==> forall k :: 0 <= k < |TrainingProgramTexts(t)| ==> Plain(TrainingProgramTexts(t)[k])
  {
    var r := TrainingProgramRow(t);
    var cols := TrainingProgramsEndpoint.columns;
    assert CellText(r, cols[0]) == IntToString(t.id);
    assert CellText(r, cols[1]) == t.programName;
    assert CellText(r, cols[2]) == TextShown(t.institutionPartnered);
  }

  // ---------------------------------------------------------------------
  // Assessment tests
  // ---------------------------------------------------------------------

  /** The row AssessmentTestResource.get builds for one test. */
  function AssessmentTestRow(a: AssessmentTest): (r: Row)
    ensures r.Keys == Labels(AssessmentTestsEndpoint.columns)
  {
    map["ID" := Int(a.id), "Skill Area" := Str(a.skillArea), "Description" := OfText(a.testDescription)]
  }

  function AssessmentTestTexts(a: AssessmentTest): (r: seq<string>) {
    [IntToString(a.id), a.skillArea, TextShown(a.testDescription)]
  }

  predicate AssessmentTestPlain(a: AssessmentTest) {
    Plain(a.skillArea) && PlainText(a.testDescription)
  }

  /** The dictionaries AssessmentTestResource.get builds, one per record in the
      store's order. */
  function AssessmentTestRows(as_: seq<AssessmentTest>): (r: seq<Row>)
    ensures |r| == |as_|
    ensures forall i :: 0 <= i < |as_| ==> r[i] == AssessmentTestRow(as_[i])
  {
    seq(|as_|, i requires 0 <= i < |as_| => AssessmentTestRow(as_[i]))
  }

  /** GET /assessment_tests for every store content: the page of the table with one
      row of texts per record, in the store's order, or the placeholder. */
  function AssessmentTestsGet(as_: seq<AssessmentTest>): (r: string)
    ensures r == RenderPage(Serialize(AssessmentTestsView(as_)), AssessmentTestsEndpoint.title)
  {
    AssessmentTestsLayout(as_);
    Get(AssessmentTestsEndpoint, AssessmentTestRows(as_))
  }

  /** Whatever the records hold, the table rendered from their rows is the
      table of their texts. */
  lemma AssessmentTestsLayout(as_: seq<AssessmentTest>)
    ensures Layout(AssessmentTestsEndpoint.title, AssessmentTestsEndpoint.columns, AssessmentTestRows(as_)) == AssessmentTestsView(as_)
  {
    var texts := seq(|as_|, i requires 0 <= i < |as_| => AssessmentTestTexts(as_[i]));
    forall i | 0 <= i < |as_|
      ensures RowTexts(AssessmentTestRows(as_)[i], AssessmentTestsEndpoint.columns) == texts[i]
    {
      AssessmentTestCells(as_[i]);
    }
    LayoutIsTableOf(AssessmentTestsEndpoint, AssessmentTestRows(as_), texts);
  }

  /** The table GET /assessment_tests shows: one row of texts per record, in the
      store's order, or the placeholder. */
  function AssessmentTestsView(as_: seq<AssessmentTest>): (r: TableView) {
    TableOf(AssessmentTestsEndpoint, seq(|as_|, i requires 0 <= i < |as_| => AssessmentTestTexts(as_[i])))
  }

  /** GET /assessment_tests: one row per test, showing id, skill area and
      description in that order. */
  lemma AssessmentTestsPage(as_: seq<AssessmentTest>)
    requires forall i :: 0 <= i < |as_| ==> AssessmentTestPlain(as_[i])
    ensures ShowsTable(AssessmentTestsGet(as_), AssessmentTestsView(as_))
  {
    var ep := AssessmentTestsEndpoint;
    var data := AssessmentTestRows(as_);
    var texts := seq(|as_|, i requires 0 <= i < |as_| => AssessmentTestTexts(as_[i]));
    forall i | 0 <= i < |as_|
      ensures RowTexts(data[i], ep.columns) == texts[i]
      ensures forall j :: 0 <= j < |texts[i]| ==> Plain(texts[i][j])
    {
      AssessmentTestCells(as_[i]);
    }
    GetReadsBack(ep, data, texts);
  }

  /** The cells of one test's row show its texts, all free of '<' when its
      text columns are. */
  lemma AssessmentTestCells(a: AssessmentTest)
    ensures RowTexts(AssessmentTestRow(a), AssessmentTestsEndpoint.columns) == AssessmentTestTexts(a)
    ensures AssessmentTestPlain(a) ==> forall k :: 0 <= k < |AssessmentTestTexts(a)| ==> Plain(AssessmentTestTexts(a)[k])
  {
    var r := AssessmentTestRow(a);
    var cols := AssessmentTestsEndpoint.columns;
    assert CellText(r, cols[0]) == IntToString(a.id);
    assert CellText(r, cols[1]) == a.skillArea;
    assert CellText(r, cols[2]) == TextShown(a.testDescription);
  }

  // ---------------------------------------------------------------------
  // Applications
  // ---------------------------------------------------------------------

  /** The row ApplicationResource.get builds for one application. */
  function ApplicationRow(a: Application): (r: Row)
    ensures r.Keys == Labels(ApplicationsEndpoint.columns)
  {
    map["ID" := Int(a.id), "Candidate ID" := Int(a.candidateId), "Job ID" := Int(a.jobId), "Status" := OfText(a.status)]
  }

  function ApplicationTexts(a: Application): (r: seq<string>) {
    [IntToString(a.id), IntToString(a.candidateId), IntToString(a.jobId), TextShown(a.status)]
  }

  /** The dictionaries ApplicationResource.get builds, one per record in the
      store's order. */
  function ApplicationRows(as_: seq<Application>): (r: seq<Row>)
    ensures |r| == |as_|
    ensures forall i :: 0 <= i < |as_| ==> r[i] == ApplicationRow(as_[i])
  {
    seq(|as_|, i requires 0 <= i < |as_| => ApplicationRow(as_[i]))
  }

  /** GET /applications for every store content: the page of the table with one
      row of texts per record, in the store's order, or the placeholder. */
  function ApplicationsGet(as_: seq<Application>): (r: string)
    ensures r == RenderPage(Serialize(ApplicationsView(as_)), ApplicationsEndpoint.title)
  {
    ApplicationsLayout(as_);
    Get(ApplicationsEndpoint, ApplicationRows(as_))
  }

  /** Whatever the records hold, the table rendered from their rows is the
      table of their texts. */
  lemma ApplicationsLayout(as_: seq<Application>)
    ensures Layout(ApplicationsEndpoint.title, ApplicationsEndpoint.columns, ApplicationRows(as_)) == ApplicationsView(as_)
  {
    var texts := seq(|as_|, i requires 0 <= i < |as_| => ApplicationTexts(as_[i]));
    forall i | 0 <= i < |as_|
      ensures RowTexts(ApplicationRows(as_)[i], ApplicationsEndpoint.columns) == texts[i]
    {
      ApplicationCells(as_[i]);
    }
    LayoutIsTableOf(ApplicationsEndpoint, ApplicationRows(as_), texts);
  }

  /** The table GET /applications shows: one row of texts per record, in the
      store's order, or the placeholder. */
  function ApplicationsView(as_: seq<Application>): (r: TableView) {
    TableOf(ApplicationsEndpoint, seq(|as_|, i requires 0 <= i < |as_| => ApplicationTexts(as_[i])))
  }

  /** GET /applications: one row per application, showing id, candidate
      id, job id and status in that order. */
  lemma ApplicationsPage(as_: seq<Application>)
    requires forall i :: 0 <= i < |as_| ==> PlainText(as_[i].status)
    ensures ShowsTable(ApplicationsGet(as_), ApplicationsView(as_))
  {
    var ep := ApplicationsEndpoint;
    var data := ApplicationRows(as_);
    var texts := seq(|as_|, i requires 0 <= i < |as_| => ApplicationTexts(as_[i]));
    forall i | 0 <= i < |as_|
      ensures RowTexts(data[i], ep.columns) == texts[i]
      ensures forall j :: 0 <= j < |texts[i]| ==> Plain(texts[i][j])
    {
      ApplicationCells(as_[i]);
    }
    GetReadsBack(ep, data, texts);
  }

  /** The cells of one application's row show its texts, all free of '<'
      when its status is. */
  lemma ApplicationCells(a: Application)
    ensures RowTexts(ApplicationRow(a), ApplicationsEndpoint.columns) == ApplicationTexts(a)
    ensures PlainText(a.status) ==> forall j :: 0 <= j < |ApplicationTexts(a)| ==> Plain(ApplicationTexts(a)[j])
  {
    var r := ApplicationRow(a);
    var cols := ApplicationsEndpoint.columns;
    assert CellText(r, cols[0]) == IntToString(a.id);
    assert CellText(r, cols[1]) == IntToString(a.candidateId);
    assert CellText(r, cols[2]) == IntToString(a.jobId);
    assert CellText(r, cols[3]) == TextShown(a.status);
  }
}
