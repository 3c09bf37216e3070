/** The rover survey workflow of main.py:253-351: images accumulate in a
    per-survey upload directory, a completion call schedules one background job,
    the job classifies every `.jpg` image, folds the diagnoses into one summary,
    asks for one advisory, writes one report, removes the directory and publishes
    a notification; the report is then served by survey id.

    The file system is two maps keyed by path: upload directories (each a map from
    file name to bytes) and report files. The classifier and the advisory service
    are parameters that may fail. */
module Survey {
  import opened Results
  import opened Locale
  import opened DiseaseSummary

  newtype Byte = x: int | 0 <= x < 256

  type Image = seq<Byte>

  /** Any failure of an external call: a non-success HTTP status, a network error,
      or a reply that does not parse. */
  datatype ServiceError = ServiceError(detail: string)

  /** The part of a classifier reply the survey reads, `result.disease.suggestions`;
      None when a key on that path is missing. */
  datatype KindwiseReply = KindwiseReply(suggestions: Option<seq<Suggestion>>)

  /** A JSON object of the advisory reply, its values kept as text. */
  type Fields = map<string, string>

  /** The advisory reply's two top-level groups; None when a key is missing. */
  datatype AdvisoryReply = AdvisoryReply(labels: Option<Fields>, analysis: Option<Fields>)

  type Classifier = Image -> Result<KindwiseReply, ServiceError>

  type Advisor = (string, LanguageConfig) -> Result<AdvisoryReply, ServiceError>

  /** What the report renderer is given (main.py:287-296); the rendered document
      is identified with these inputs. */
  datatype Report = Report(diagnosis: seq<Suggestion>, analysis: Fields, labels: Fields, language: LanguageConfig)

  /** Why a background job stopped before writing its report. */
  datatype JobError =
    | DirectoryMissing(path: string)
    | ClassificationFailed(cause: ServiceError)
    | AdvisoryFailed(cause: ServiceError)

  datatype HttpError = HttpError(status: int, detail: string)

  /** Effects outside the two stores' contents, in the order they happen. */
  datatype Effect =
    | ReportWritten(path: string)
    | DirectoryRemoved(path: string)
    | Published(topic: string, message: string)

  /** A scheduled background task: `process_survey_report(survey_id, language_code)`. */
  datatype Job = Job(surveyId: string, languageCode: string)

  /** The JSON body of the completion call; None for a missing key. */
  datatype CompleteRequest = CompleteRequest(surveyId: Option<string>, languageCode: Option<string>)

  datatype Ack = Ack(status: string, message: string)

  datatype UploadAck = UploadAck(status: string, filename: string, surveyId: string)

  const UPLOAD_ROOT: string := "temp_uploads/"
  const REPORT_PREFIX: string := "reports/AgriSense_Report_"
  const REPORT_SUFFIX: string := ".pdf"
  const REPORT_READY_TOPIC: string := "agrisense/user/report_ready"
  const JPG_SUFFIX: string := ".jpg"

  // ---------------------------------------------------------------------------
  // Paths
  // ---------------------------------------------------------------------------

  /** `f"temp_uploads/{survey_id}"`. */
  function SurveyDir(surveyId: string): string {
    UPLOAD_ROOT + surveyId
  }

  /** `f"reports/AgriSense_Report_{survey_id}.pdf"`, used by the writer and the reader alike. */
  function ReportPath(surveyId: string): string {
    REPORT_PREFIX + surveyId + REPORT_SUFFIX
  }

  /** Distinct surveys never share an upload directory or a report file. */
  lemma PathsInjective(a: string, b: string)
    ensures SurveyDir(a) == SurveyDir(b) ==> a == b
    ensures ReportPath(a) == ReportPath(b) ==> a == b
  {
    if SurveyDir(a) == SurveyDir(b) {
      var p := SurveyDir(a);
      assert a == p[|UPLOAD_ROOT|..];
      assert b == p[|UPLOAD_ROOT|..];
    }
    if ReportPath(a) == ReportPath(b) {
      var p := ReportPath(a);
      assert |a| == |b|;
      assert a == p[|REPORT_PREFIX|..|REPORT_PREFIX| + |a|];
      assert b == p[|REPORT_PREFIX|..|REPORT_PREFIX| + |b|];
    }
  }

  /** The upload directory of a survey, if it exists. */
  function Uploaded(uploads: map<string, map<string, Image>>, surveyId: string): Option<map<string, Image>> {
    if SurveyDir(surveyId) in uploads then Some(uploads[SurveyDir(surveyId)]) else None
  }

  // ---------------------------------------------------------------------------
  // Listing and the `.jpg` filter (main.py:260)
  // ---------------------------------------------------------------------------

  /** `name.endswith('.jpg')`: case-sensitive, so ".JPG" and ".jpeg" do not match. */
  predicate IsJpg(name: string) {
    |name| >= |JPG_SUFFIX| && name[|name| - |JPG_SUFFIX|..] == JPG_SUFFIX
  }

  lemma IsJpgExamples()
    ensures IsJpg("leaf.jpg") && IsJpg(".jpg")
    ensures !IsJpg("leaf.JPG") && !IsJpg("leaf.jpeg") && !IsJpg("leaf.png") && !IsJpg("jpg")
  {
  }

  /** The directory entries kept for classification, in listing order. */
  function JpgFiles(listing: seq<string>): (files: seq<string>)
    ensures |files| <= |listing|
  {
    if listing == [] then []
    else
      var rest := JpgFiles(listing[..|listing| - 1]);
      var last := listing[|listing| - 1];
      assert listing == listing[..|listing| - 1] + [last];
      if IsJpg(last) then rest + [last] else rest
  }

  /** The images of a listing are exactly its `.jpg` names. */
  lemma {:induction false} JpgFilesExact(listing: seq<string>)
    ensures forall f :: f in JpgFiles(listing) <==> f in listing && IsJpg(f)
  {
    if listing != [] {
      var prefix := listing[..|listing| - 1];
      assert listing == prefix + [listing[|listing| - 1]];
      JpgFilesExact(prefix);
    }
  }

  /** Listing one more file appends it to the images exactly when it is a `.jpg`. */
  lemma JpgFilesSnoc(listing: seq<string>, f: string)
    ensures JpgFiles(listing + [f]) == if IsJpg(f) then JpgFiles(listing) + [f] else JpgFiles(listing)
  {
    assert (listing + [f])[..|listing|] == listing;
  }

  /** `listing` is what `os.listdir` returns for `dir`: every entry once, in some order. */
  ghost predicate IsListingOf(listing: seq<string>, dir: map<string, Image>) {
    && (forall f :: f in listing <==> f in dir)
    && NoDuplicates(listing)
  }

  /** The listing handed to a job describes the survey's directory, when there is one. */
  ghost predicate ListingFits(uploads: map<string, map<string, Image>>, surveyId: string, listing: seq<string>) {
    SurveyDir(surveyId) in uploads ==> IsListingOf(listing, uploads[SurveyDir(surveyId)])
  }

  // ---------------------------------------------------------------------------
  // Classification and counting (main.py:265-272)
  // ---------------------------------------------------------------------------

  /** The Diagnosis Record of one reply; a missing suggestions key reads as `[]`. */
  function Diagnose(reply: KindwiseReply): Option<string> {
    TopName(reply.suggestions.GetOr([]))
  }

  /** A reply without a `suggestions` key or with an empty list contributes no name;
      otherwise the name is the top suggestion's. */
  lemma DiagnoseCases(reply: KindwiseReply)
    ensures Diagnose(reply).None? <==> reply.suggestions.None? || reply.suggestions.value == []
    ensures reply.suggestions.Some? ==> Diagnose(reply) == TopName(reply.suggestions.value)
  {
    if reply.suggestions.Some? {
      TopNameCases(reply.suggestions.value);
    }
  }

  /** Classifies the files in order and stops at the first failure, as the loop does
      when `raise_for_status` raises. */
  function ClassifyAll(dir: map<string, Image>, files: seq<string>, classify: Classifier)
    : Result<seq<Option<string>>, ServiceError>
    requires forall f :: f in files ==> f in dir
  {
    if files == [] then Success([])
    else
      var prefix, last := files[..|files| - 1], files[|files| - 1];
      match ClassifyAll(dir, prefix, classify)
      case Failure(e) => Failure(e)
      case Success(tops) =>
        match classify(dir[last])
        case Failure(e) => Failure(e)
        case Success(reply) => Success(tops + [Diagnose(reply)])
  }

  /** The run succeeds exactly when every file's classification succeeds, and then it
      holds each file's diagnosis at that file's position. */
  lemma {:induction false} ClassifyAllMeaning(dir: map<string, Image>, files: seq<string>, classify: Classifier)
    requires forall f :: f in files ==> f in dir
    ensures ClassifyAll(dir, files, classify).Success? <==>
      forall k :: 0 <= k < |files| ==> classify(dir[files[k]]).Success?
    ensures ClassifyAll(dir, files, classify).Success? ==>
      |ClassifyAll(dir, files, classify).value| == |files|
    ensures ClassifyAll(dir, files, classify).Success? ==>
      forall k :: 0 <= k < |files| ==>
        ClassifyAll(dir, files, classify).value[k] == Diagnose(classify(dir[files[k]]).value)
  {
    if files != [] {
      var prefix := files[..|files| - 1];
      assert forall k :: 0 <= k < |prefix| ==> prefix[k] == files[k];
      ClassifyAllMeaning(dir, prefix, classify);
    }
  }

  /** Classifying one more file extends a successful run by that file's diagnosis,
      or ends it with that file's error. */
  lemma ClassifyAllExtend(dir: map<string, Image>, files: seq<string>, i: nat, classify: Classifier)
    requires forall f :: f in files ==> f in dir
    requires i < |files| && ClassifyAll(dir, files[..i], classify).Success?
    ensures classify(dir[files[i]]).Success? ==>
      ClassifyAll(dir, files[..i + 1], classify)
        == Success(ClassifyAll(dir, files[..i], classify).value + [Diagnose(classify(dir[files[i]]).value)])
    ensures classify(dir[files[i]]).Failure? ==>
      ClassifyAll(dir, files[..i + 1], classify) == Failure(classify(dir[files[i]]).error)
  {
    assert files[..i + 1][..i] == files[..i];
  }

  /** Once a prefix of the files fails, the whole run fails with the same error. */
  lemma {:induction false} ClassifyAllStops(dir: map<string, Image>, files: seq<string>, n: nat, classify: Classifier)
    requires forall f :: f in files ==> f in dir
    requires n <= |files|
    requires ClassifyAll(dir, files[..n], classify).Failure?
    ensures ClassifyAll(dir, files, classify) == ClassifyAll(dir, files[..n], classify)
  {
    if n < |files| {
      var prefix := files[..|files| - 1];
      assert prefix[..n] == files[..n];
      ClassifyAllStops(dir, prefix, n, classify);
    } else {
      assert files[..n] == files;
    }
  }

  /** One iteration of the counting loop: a successful classification extends the
      run, a failed one decides the outcome of the whole run. */
  lemma ClassifyStep(dir: map<string, Image>, files: seq<string>, i: nat, classify: Classifier,
                     tops: seq<Option<string>>)
    requires forall f :: f in files ==> f in dir
    requires i < |files| && ClassifyAll(dir, files[..i], classify) == Success(tops)
    ensures classify(dir[files[i]]).Success? ==>
      ClassifyAll(dir, files[..i + 1], classify) == Success(tops + [Diagnose(classify(dir[files[i]]).value)])
    ensures classify(dir[files[i]]).Failure? ==>
      ClassifyAll(dir, files, classify) == Failure(classify(dir[files[i]]).error)
  {
    ClassifyAllExtend(dir, files, i, classify);
    if classify(dir[files[i]]).Failure? {
      ClassifyAllStops(dir, files, i + 1, classify);
    }
  }

  /** The run over the `.jpg` names of a listing of `dir`. */
  function ClassifySurvey(dir: map<string, Image>, listing: seq<string>, classify: Classifier)
    : Result<seq<Option<string>>, ServiceError>
    requires forall f :: f in listing ==> f in dir
  {
    JpgFilesExact(listing);
    ClassifyAll(dir, JpgFiles(listing), classify)
  }

  /** How many `.jpg` names of the listing the classifier diagnoses as `name`: an
      independent count, file by file. */
  function DiagnosedAs(dir: map<string, Image>, listing: seq<string>, classify: Classifier, name: string): nat {
    if listing == [] then 0
    else
      var f := listing[|listing| - 1];
      DiagnosedAs(dir, listing[..|listing| - 1], classify, name)
        + (if IsJpg(f) && f in dir && classify(dir[f]).Success? && Diagnose(classify(dir[f]).value) == Some(name)
           then 1 else 0)
  }

  /** In a successful run, each name occurs as often as there are `.jpg` files
      diagnosed with it. */
  lemma {:induction false} DiagnosedAsCounts(dir: map<string, Image>, listing: seq<string>, classify: Classifier, name: string)
    requires forall f :: f in listing ==> f in dir
    requires ClassifySurvey(dir, listing, classify).Success?
    ensures multiset(ClassifySurvey(dir, listing, classify).value)[Some(name)] == DiagnosedAs(dir, listing, classify, name)
  {
    if listing != [] {
      var prefix, f := listing[..|listing| - 1], listing[|listing| - 1];
      assert listing == prefix + [f];
      JpgFilesSnoc(prefix, f);
      JpgFilesExact(prefix);
      var files := JpgFiles(prefix);
      if IsJpg(f) {
        assert (files + [f])[..|files|] == files;
        assert ClassifySurvey(dir, prefix, classify).Success?;
        DiagnosedAsCounts(dir, prefix, classify, name);
      } else {
        DiagnosedAsCounts(dir, prefix, classify, name);
      }
    }
  }

  /** The counting loop: reads and classifies each file in turn and bumps the count
      of its top suggestion's name in a dictionary updated in place. */
  method CountDiseases(dir: map<string, Image>, files: seq<string>, classify: Classifier)
    returns (r: Result<Counts, ServiceError>)
    requires forall f :: f in files ==> f in dir
    ensures ClassifyAll(dir, files, classify).Failure? ==> r == Failure(ClassifyAll(dir, files, classify).error)
    ensures ClassifyAll(dir, files, classify).Success? ==> r == Success(Tally(Present(ClassifyAll(dir, files, classify).value)))
  {
    r := Success([]);
    var counts: Counts := [];
    ghost var tops: seq<Option<string>> := [];
    var i := 0;
    while i < |files|
      invariant 0 <= i <= |files|
      invariant ClassifyAll(dir, files[..i], classify) == Success(tops)
      invariant counts == Tally(Present(tops))
    {
      var reply := classify(dir[files[i]]);
      ClassifyStep(dir, files, i, classify, tops);
      if reply.Failure? {
        r := Failure(reply.error);
        return;
      }
      var top := Diagnose(reply.value);
      TallyPresentStep(tops, top);
      if top.Some? {
        counts := Bump(counts, top.value);
      }
      tops := tops + [top];
      i := i + 1;
    }
    assert files[..i] == files;
    r := Success(counts);
  }

  // ---------------------------------------------------------------------------
  // One background job, as a function of the stores it starts from
  // ---------------------------------------------------------------------------

  /** What `process_survey_report` produces: the report it writes, or why it stops. */
  function SurveyOutcome(
    uploads: map<string, map<string, Image>>, surveyId: string, languageCode: string,
    listing: seq<string>, classify: Classifier, advise: Advisor)
    : (r: Result<Report, JobError>)
    requires ListingFits(uploads, surveyId, listing)
    ensures (r.Failure? && r.error.DirectoryMissing?) <==> SurveyDir(surveyId) !in uploads
    ensures r.Failure? && r.error.DirectoryMissing? ==> r.error.path == SurveyDir(surveyId)
    ensures r.Success? ==> r.value.language == ResolveLanguage(languageCode)
  {
    var dir := SurveyDir(surveyId);
    if dir !in uploads then Failure(DirectoryMissing(dir))
    else
      JpgFilesExact(listing);
      match ClassifyAll(uploads[dir], JpgFiles(listing), classify)
      case Failure(e) => Failure(ClassificationFailed(e))
      case Success(tops) =>
        var summary := SurveySummary(tops);
        var language := ResolveLanguage(languageCode);
        match advise(summary, language)
        case Failure(e) => Failure(AdvisoryFailed(e))
        case Success(reply) =>
          Success(Report(Consolidated(summary), reply.analysis.GetOr(map[]), reply.labels.GetOr(map[]), language))
  }

  /** A job fails exactly when the directory is missing, some `.jpg` image's
      classification fails, or the single advisory call fails; each cause is
      reported as such. */
  lemma SurveyFailureCauses(
    uploads: map<string, map<string, Image>>, surveyId: string, languageCode: string,
    listing: seq<string>, classify: Classifier, advise: Advisor)
    requires ListingFits(uploads, surveyId, listing)
    ensures var r := SurveyOutcome(uploads, surveyId, languageCode, listing, classify, advise);
      && (SurveyDir(surveyId) !in uploads ==> r == Failure(DirectoryMissing(SurveyDir(surveyId))))
      && (SurveyDir(surveyId) in uploads ==>
            ((exists f :: f in listing && IsJpg(f) && classify(uploads[SurveyDir(surveyId)][f]).Failure?)
               <==> r.Failure? && r.error.ClassificationFailed?))
      && (r.Failure? && r.error.DirectoryMissing? ==> SurveyDir(surveyId) !in uploads)
      && (r.Failure? && r.error.AdvisoryFailed? ==>
            SurveyDir(surveyId) in uploads
            && forall f :: f in listing && IsJpg(f) ==> classify(uploads[SurveyDir(surveyId)][f]).Success?)
    ensures (SurveyDir(surveyId) in uploads
             && forall f :: f in listing && IsJpg(f) ==> classify(uploads[SurveyDir(surveyId)][f]).Success?) ==>
         var run := ClassifySurvey(uploads[SurveyDir(surveyId)], listing, classify);
         && run.Success?
         && (SurveyOutcome(uploads, surveyId, languageCode, listing, classify, advise).Success? <==>
             advise(SurveySummary(run.value), ResolveLanguage(languageCode)).Success?)
  {
    var dir := SurveyDir(surveyId);
    if dir in uploads {
      var files := JpgFiles(listing);
      JpgFilesExact(listing);
      var c := ClassifyAll(uploads[dir], files, classify);
      ClassifyAllMeaning(uploads[dir], files, classify);
      if exists f :: f in listing && IsJpg(f) && classify(uploads[dir][f]).Failure? {
        var f :| f in listing && IsJpg(f) && classify(uploads[dir][f]).Failure?;
        assert f in files;
        var k :| 0 <= k < |files| && files[k] == f;
        assert !c.Success?;
      }
      if c.Failure? {
        var k :| 0 <= k < |files| && classify(uploads[dir][files[k]]).Failure?;
        assert files[k] in files;
      } else {
        forall f | f in listing && IsJpg(f)
          ensures classify(uploads[dir][f]).Success?
        {
          assert f in files;
          var k :| 0 <= k < |files| && files[k] == f;
        }
      }
    }
  }

  /** What a successful job wrote: a single synthetic suggestion of probability 1.0
      naming the summary, and that summary is the healthy phrase exactly when no
      `.jpg` image of the survey yielded a suggestion. */
  lemma SurveyReportContents(
    uploads: map<string, map<string, Image>>, surveyId: string, languageCode: string,
    listing: seq<string>, classify: Classifier, advise: Advisor)
    requires ListingFits(uploads, surveyId, listing)
    requires SurveyOutcome(uploads, surveyId, languageCode, listing, classify, advise).Success?
    ensures SurveyDir(surveyId) in uploads
    ensures ClassifySurvey(uploads[SurveyDir(surveyId)], listing, classify).Success?
    ensures SurveyOutcome(uploads, surveyId, languageCode, listing, classify, advise).value.diagnosis
         == Consolidated(SurveySummary(ClassifySurvey(uploads[SurveyDir(surveyId)], listing, classify).value))
    ensures var dir := uploads[SurveyDir(surveyId)];
      var report := SurveyOutcome(uploads, surveyId, languageCode, listing, classify, advise).value;
      && (forall f :: f in listing && IsJpg(f) ==> classify(dir[f]).Success?)
      && |report.diagnosis| == 1 && report.diagnosis[0].probability == 1.0
      && report.diagnosis[0].name.Some?
      && (report.diagnosis[0].name.value == HEALTHY_PHRASE <==>
            forall f :: f in listing && IsJpg(f) ==> Diagnose(classify(dir[f]).value).None?)
      && report.language == ResolveLanguage(languageCode)
  {
    var dir := uploads[SurveyDir(surveyId)];
    var files := JpgFiles(listing);
    JpgFilesExact(listing);
    var tops := ClassifyAll(dir, files, classify).value;
    ClassifyAllMeaning(dir, files, classify);
    SurveyCounts(tops);
    forall f | f in listing && IsJpg(f)
      ensures classify(dir[f]).Success?
      ensures Diagnose(classify(dir[f]).value) in tops
    {
      assert f in files;
      var k :| 0 <= k < |files| && files[k] == f;
      assert tops[k] == Diagnose(classify(dir[f]).value);
    }
    if forall f :: f in listing && IsJpg(f) ==> Diagnose(classify(dir[f]).value).None? {
      forall k | 0 <= k < |tops| ensures tops[k].None? {
        assert files[k] in files;
      }
    }
  }

  /** The report's summary is the phrase of a dictionary that counts, for each name,
      the survey's `.jpg` files diagnosed with it. */
  lemma SurveyReportCounts(
    uploads: map<string, map<string, Image>>, surveyId: string, languageCode: string,
    listing: seq<string>, classify: Classifier, advise: Advisor)
    requires ListingFits(uploads, surveyId, listing)
    requires SurveyOutcome(uploads, surveyId, languageCode, listing, classify, advise).Success?
    ensures SurveyDir(surveyId) in uploads
    ensures ClassifySurvey(uploads[SurveyDir(surveyId)], listing, classify).Success?
    ensures var dir := uploads[SurveyDir(surveyId)];
      var counts := Tally(Present(ClassifySurvey(dir, listing, classify).value));
      && SurveyOutcome(uploads, surveyId, languageCode, listing, classify, advise).value.diagnosis
           == Consolidated(Phrase(counts))
      && forall name :: Get(counts, name) == DiagnosedAs(dir, listing, classify, name)
  {
    var dir := uploads[SurveyDir(surveyId)];
    var tops := ClassifySurvey(dir, listing, classify).value;
    SurveyCounts(tops);
    forall name ensures Get(Tally(Present(tops)), name) == DiagnosedAs(dir, listing, classify, name) {
      DiagnosedAsCounts(dir, listing, classify, name);
    }
  }

  /** Classification reads only the listed files, so two directories that agree on
      them classify alike. */
  lemma {:induction false} ClassifyAllAgree(
    dir: map<string, Image>, dir': map<string, Image>, files: seq<string>, classify: Classifier)
    requires forall f :: f in files ==> f in dir && f in dir' && dir[f] == dir'[f]
    ensures ClassifyAll(dir, files, classify) == ClassifyAll(dir', files, classify)
  {
    if files != [] {
      ClassifyAllAgree(dir, dir', files[..|files| - 1], classify);
    }
  }

  /** Only `.jpg` names are classified: adding a file of any other name to the
      survey's directory leaves the job's outcome as it was. */
  lemma NonJpgIgnored(
    uploads: map<string, map<string, Image>>, surveyId: string, languageCode: string,
    listing: seq<string>, classify: Classifier, advise: Advisor, name: string, image: Image)
    requires ListingFits(uploads, surveyId, listing)
    requires SurveyDir(surveyId) in uploads
    requires !IsJpg(name) && name !in uploads[SurveyDir(surveyId)]
    ensures var dir := SurveyDir(surveyId);
      var uploads' := uploads[dir := uploads[dir][name := image]];
      && ListingFits(uploads', surveyId, listing + [name])
      && SurveyOutcome(uploads', surveyId, languageCode, listing + [name], classify, advise)
         == SurveyOutcome(uploads, surveyId, languageCode, listing, classify, advise)
  {
    var dir := SurveyDir(surveyId);
    var d, d' := uploads[dir], uploads[dir][name := image];
    var longer := listing + [name];
    JpgFilesSnoc(listing, name);
    assert IsListingOf(longer, d') by {
      forall i, j | 0 <= i < j < |longer| ensures longer[i] != longer[j] {
        if j < |listing| {
          assert longer[i] == listing[i] && longer[j] == listing[j];
        } else {
          assert longer[i] == listing[i] && longer[i] in d;
        }
      }
    }
    JpgFilesExact(listing);
    ClassifyAllAgree(d, d', JpgFiles(listing), classify);
  }

  // ---------------------------------------------------------------------------
  // The stores and what a finished job does to them
  // ---------------------------------------------------------------------------

  datatype Stores = Stores(
    uploads: map<string, map<string, Image>>,
    reports: map<string, Report>,
    events: seq<Effect>)

  /** main.py:296-308 after a successful run: write the report, then remove the upload
      directory, then publish; a failed run changes nothing. */
  function Commit(s: Stores, surveyId: string, outcome: Result<Report, JobError>): (t: Stores)
    ensures outcome.Failure? ==> t == s
    ensures outcome.Success? ==>
      && t.uploads.Keys == s.uploads.Keys - {SurveyDir(surveyId)}
      && t.reports.Keys == s.reports.Keys + {ReportPath(surveyId)}
      && |t.events| == |s.events| + 3 && t.events[..|s.events|] == s.events
  {
    match outcome
    case Failure(_) => s
    case Success(report) =>
      var dir, path := SurveyDir(surveyId), ReportPath(surveyId);
      Stores(
        s.uploads - {dir},
        s.reports[path := report],
        s.events + [ReportWritten(path), DirectoryRemoved(dir), Published(REPORT_READY_TOPIC, surveyId)])
  }

  /** A job touches only its own survey: every other survey's upload directory and
      report are as they were, whatever the outcome. */
  lemma CommitIsolated(s: Stores, surveyId: string, outcome: Result<Report, JobError>, other: string)
    requires other != surveyId
    ensures Uploaded(Commit(s, surveyId, outcome).uploads, other) == Uploaded(s.uploads, other)
    ensures var path := ReportPath(other);
      (path in Commit(s, surveyId, outcome).reports <==> path in s.reports)
      && (path in s.reports ==> Commit(s, surveyId, outcome).reports[path] == s.reports[path])
  {
    PathsInjective(surveyId, other);
  }

  /** A successful job leaves its report at the survey's report path and its upload
      directory gone, and the removal is recorded before the notification. */
  lemma CommitSucceeded(s: Stores, surveyId: string, report: Report)
    ensures var t := Commit(s, surveyId, Success(report));
      && ReportPath(surveyId) in t.reports && t.reports[ReportPath(surveyId)] == report
      && Uploaded(t.uploads, surveyId).None?
      && |t.events| == |s.events| + 3
      && t.events[|s.events|] == ReportWritten(ReportPath(surveyId))
      && t.events[|s.events| + 1] == DirectoryRemoved(SurveyDir(surveyId))
      && t.events[|s.events| + 2] == Published(REPORT_READY_TOPIC, surveyId)
  {
  }

  /** `survey_complete`'s check of its body (main.py:334-337): a missing or empty
      survey id is a 400; otherwise one job, with the language defaulting to "en". */
  function Admit(request: CompleteRequest): (r: Result<Job, HttpError>)
    ensures r.Failure? <==> request.surveyId.None? || request.surveyId.value == ""
    ensures r.Failure? ==> r.error.status == 400
    ensures r.Success? ==> r.value.surveyId == request.surveyId.value
    ensures r.Success? && request.languageCode.None? ==> r.value.languageCode == DEFAULT_LANGUAGE
    ensures r.Success? && request.languageCode.Some? ==> r.value.languageCode == request.languageCode.value
  {
    if request.surveyId.None? || request.surveyId.value == "" then
      Failure(HttpError(400, "Survey ID is required."))
    else
      Success(Job(request.surveyId.value, request.languageCode.GetOr("en")))
  }

  // ---------------------------------------------------------------------------
  // The service
  // ---------------------------------------------------------------------------

  class SurveyStore {
    /** Upload directories by path; each maps a file name to its bytes. */
    var uploads: map<string, map<string, Image>>
    /** Report files by path. */
    var reports: map<string, Report>
    /** Background tasks scheduled and not yet run, in scheduling order. */
    var queue: seq<Job>
    /** Report writes, directory removals and notifications, in order. */
    var events: seq<Effect>

    function Snapshot(): Stores
      reads this
    {
      Stores(uploads, reports, events)
    }

    constructor ()
      ensures uploads == map[] && reports == map[] && queue == [] && events == []
    {
      uploads, reports, queue, events := map[], map[], [], [];
    }

    /** `upload_rover_image` (main.py:319-328): create the survey's directory if
        needed, then store the file under its name, replacing any earlier one. */
    method UploadImage(surveyId: string, filename: string, image: Image) returns (ack: UploadAck)
      modifies this
      ensures ack == UploadAck("success", filename, surveyId)
      ensures uploads == old(uploads)[SurveyDir(surveyId) := Uploaded(old(uploads), surveyId).GetOr(map[])[filename := image]]
      ensures forall other :: other != surveyId ==> Uploaded(uploads, other) == Uploaded(old(uploads), other)
      ensures reports == old(reports) && queue == old(queue) && events == old(events)
    {
      var dir := SurveyDir(surveyId);
      if dir !in uploads {
        uploads := uploads[dir := map[]];
      }
      uploads := uploads[dir := uploads[dir][filename := image]];
      forall other | other != surveyId
        ensures Uploaded(uploads, other) == Uploaded(old(uploads), other)
      {
        PathsInjective(surveyId, other);
      }
      ack := UploadAck("success", filename, surveyId);
    }

    /** `survey_complete` (main.py:332-342): reject or schedule exactly one job, and
        acknowledge at once. No check that the survey exists or is not already queued. */
    method SurveyComplete(request: CompleteRequest) returns (r: Result<Ack, HttpError>)
      modifies this
      ensures Admit(request).Failure? ==> r == Failure(Admit(request).error) && queue == old(queue)
      ensures Admit(request).Success? ==>
        && r == Success(Ack("processing_started", "Analysis for survey " + request.surveyId.value + " has begun."))
        && queue == old(queue) + [Admit(request).value]
      ensures uploads == old(uploads) && reports == old(reports) && events == old(events)
    {
      var admitted := Admit(request);
      if admitted.Failure? {
        return Failure(admitted.error);
      }
      queue := queue + [admitted.value];
      r := Success(Ack("processing_started", "Analysis for survey " + admitted.value.surveyId + " has begun."));
    }

    /** `process_survey_report` (main.py:253-308). There is no exception handler: a
        failure stops the job where it happens, before anything is written. */
    method ProcessSurveyReport(
      surveyId: string, languageCode: string, listing: seq<string>,
      classify: Classifier, advise: Advisor)
      returns (r: Result<Report, JobError>)
      requires ListingFits(uploads, surveyId, listing)
      modifies this
      ensures r == SurveyOutcome(old(uploads), surveyId, languageCode, listing, classify, advise)
      ensures Snapshot() == Commit(old(Snapshot()), surveyId, r)
      ensures queue == old(queue)
    {
      var dir := SurveyDir(surveyId);
      if dir !in uploads {
        return Failure(DirectoryMissing(dir));
      }
      var files := JpgFiles(listing);
      JpgFilesExact(listing);
      ghost var classified := ClassifyAll(uploads[dir], files, classify);
      var counted := CountDiseases(uploads[dir], files, classify);
      if counted.Failure? {
        return Failure(ClassificationFailed(counted.error));
      }
      var summary := Phrase(counted.value);
      assert summary == SurveySummary(classified.value);
      var language := ResolveLanguage(languageCode);
      var advice := advise(summary, language);
      if advice.Failure? {
        return Failure(AdvisoryFailed(advice.error));
      }
      var report := Report(Consolidated(summary), advice.value.analysis.GetOr(map[]), advice.value.labels.GetOr(map[]), language);
      assert SurveyOutcome(uploads, surveyId, languageCode, listing, classify, advise) == Success(report);
      Finish(surveyId, report);
      r := Success(report);
    }

    /** The last steps of a successful job (main.py:297-308): write the report,
        remove the upload directory, then publish the survey id. */
    method Finish(surveyId: string, report: Report)
      modifies this
      ensures Snapshot() == Commit(old(Snapshot()), surveyId, Success(report))
      ensures queue == old(queue)
    {
      var dir, path := SurveyDir(surveyId), ReportPath(surveyId);
      reports := reports[path := report];
      events := events + [ReportWritten(path)];
      uploads := uploads - {dir};
      events := events + [DirectoryRemoved(dir)];
      events := events + [Published(REPORT_READY_TOPIC, surveyId)];
    }

    /** The background runner: take the oldest scheduled job, if any, and run it. */
    method RunNextJob(listing: seq<string>, classify: Classifier, advise: Advisor)
      returns (r: Option<Result<Report, JobError>>)
      requires queue != [] ==> ListingFits(uploads, queue[0].surveyId, listing)
      modifies this
      ensures old(queue) == [] ==> r.None? && queue == [] && Snapshot() == old(Snapshot())
      ensures old(queue) != [] ==>
        var job := old(queue)[0];
        && queue == old(queue)[1..]
        && r == Some(SurveyOutcome(old(uploads), job.surveyId, job.languageCode, listing, classify, advise))
        && Snapshot() == Commit(old(Snapshot()), job.surveyId, r.value)
    {
      if queue == [] {
        return None;
      }
      var job := queue[0];
      queue := queue[1..];
      var outcome := ProcessSurveyReport(job.surveyId, job.languageCode, listing, classify, advise);
      r := Some(outcome);
    }

    /** `get_report` (main.py:346-351): the report at the survey's path, or a 404. */
    function GetReport(surveyId: string): (r: Result<Report, HttpError>)
      reads this
      ensures r.Failure? <==> ReportPath(surveyId) !in reports
      ensures r.Failure? ==> r.error == HttpError(404, "Report not found or not yet ready.")
      ensures r.Success? ==> r.value == reports[ReportPath(surveyId)]
    {
      var path := ReportPath(surveyId);
      if path !in reports then Failure(HttpError(404, "Report not found or not yet ready."))
      else Success(reports[path])
    }
  }
}
