/** End-to-end runs of the survey pipeline on concrete uploads, with stand-in
    classification and advisory services. */
module Scenarios {
  import opened Results
  import opened DiseaseSummary
  import opened Survey

  /** Which of the file names of the examples count as images. */
  lemma ExampleNames()
    ensures !IsJpg("notes.txt") && !IsJpg("log.txt")
    ensures IsJpg("a.jpg") && IsJpg("b.jpg") && IsJpg("c.jpg")
  {
    assert "notes.txt"[5..] == ".txt" && "log.txt"[3..] == ".txt";
    assert "a.jpg"[1..] == ".jpg" && "b.jpg"[1..] == ".jpg" && "c.jpg"[1..] == ".jpg";
  }

  /** A non-image name listed first is skipped; the three images keep their order. */
  lemma JpgListing(note: string, a: string, b: string, c: string)
    requires !IsJpg(note) && IsJpg(a) && IsJpg(b) && IsJpg(c)
    ensures JpgFiles([note, a, b, c]) == [a, b, c]
  {
    JpgFilesSnoc([], note);
    assert [] + [note] == [note];
    JpgFilesSnoc([note], a);
    assert [note] + [a] == [note, a];
    JpgFilesSnoc([note, a], b);
    assert [note, a] + [b] == [note, a, b];
    JpgFilesSnoc([note, a, b], c);
    assert [note, a, b] + [c] == [note, a, b, c];
  }

  /** A plant-identification service that sees rust on the image `[3]` and leaf blight on every other. */
  function FieldClassifier(img: Image): Result<KindwiseReply, ServiceError> {
    if img == [3] then Success(KindwiseReply(Some([Suggestion(Some("Rust"), 0.9)])))
    else Success(KindwiseReply(Some([Suggestion(Some("Leaf Blight"), 0.8)])))
  }

  function SilentAdvisor(summary: string, language: Locale.LanguageConfig): Result<AdvisoryReply, ServiceError> {
    Success(AdvisoryReply(None, None))
  }

  const FIELD_DIR: map<string, Image> :=
    map["a.jpg" := [1 as Byte], "b.jpg" := [2], "c.jpg" := [3], "notes.txt" := [4]]

  const FIELD_LISTING: seq<string> := ["notes.txt", "a.jpg", "b.jpg", "c.jpg"]

  /** The listing names every file of the directory exactly once. */
  lemma FieldListing()
    ensures IsListingOf(FIELD_LISTING, FIELD_DIR)
  {
    assert forall f :: f in FIELD_LISTING <==> f == "notes.txt" || f == "a.jpg" || f == "b.jpg" || f == "c.jpg";
    assert forall f :: f in FIELD_DIR <==> f == "notes.txt" || f == "a.jpg" || f == "b.jpg" || f == "c.jpg";
  }

  /** Two images classified as leaf blight, one as rust, in listing order. */
  lemma FieldClassified()
    ensures ClassifyAll(FIELD_DIR, ["a.jpg", "b.jpg", "c.jpg"], FieldClassifier)
         == Success([Some("Leaf Blight"), Some("Leaf Blight"), Some("Rust")])
  {
    var files := ["a.jpg", "b.jpg", "c.jpg"];
    assert FieldClassifier(FIELD_DIR[files[0]]) == Success(KindwiseReply(Some([Suggestion(Some("Leaf Blight"), 0.8)])));
    assert FieldClassifier(FIELD_DIR[files[1]]) == Success(KindwiseReply(Some([Suggestion(Some("Leaf Blight"), 0.8)])));
    assert FieldClassifier(FIELD_DIR[files[2]]) == Success(KindwiseReply(Some([Suggestion(Some("Rust"), 0.9)])));
    ClassifyAllMeaning(FIELD_DIR, files, FieldClassifier);
    var tops := ClassifyAll(FIELD_DIR, files, FieldClassifier);
    assert tops.value == [Some("Leaf Blight"), Some("Leaf Blight"), Some("Rust")];
  }

  /** Three images, two with leaf blight and one with rust, give one consolidated report. */
  lemma FieldOutcome()
    ensures IsListingOf(FIELD_LISTING, FIELD_DIR)
    ensures SurveyOutcome(map[SurveyDir("s1") := FIELD_DIR], "s1", "en", FIELD_LISTING, FieldClassifier, SilentAdvisor)
         == Success(Report([Suggestion(Some("2 plant(s) with Leaf Blight, 1 plant(s) with Rust"), 1.0)],
                           map[], map[], Locale.LanguageConfig("English", "NotoSans")))
  {
    FieldListing();
    ExampleNames();
    JpgListing("notes.txt", "a.jpg", "b.jpg", "c.jpg");
    FieldClassified();
    SurveySummaryExample();
  }

  /** Four uploads to one survey build its directory one file at a time. */
  method FieldUploads() returns (store: SurveyStore)
    ensures fresh(store)
    ensures store.uploads == map[SurveyDir("s1") := FIELD_DIR]
    ensures store.reports == map[] && store.queue == [] && store.events == []
  {
    store := new SurveyStore();
    var up1 := store.UploadImage("s1", "a.jpg", [1]);
    var up2 := store.UploadImage("s1", "b.jpg", [2]);
    var up3 := store.UploadImage("s1", "c.jpg", [3]);
    var up4 := store.UploadImage("s1", "notes.txt", [4]);
  }

  /** Upload, trigger, run the queued job, download: the report carries the consolidated
      summary and the survey's upload directory is gone. */
  method LeafBlightSurvey()
  {
    var store := FieldUploads();
    var ack := store.SurveyComplete(CompleteRequest(Some("s1"), None));
    FieldOutcome();
    var outcome := store.RunNextJob(FIELD_LISTING, FieldClassifier, SilentAdvisor);
    assert store.GetReport("s1").value.diagnosis == [Suggestion(Some("2 plant(s) with Leaf Blight, 1 plant(s) with Rust"), 1.0)];
    assert Uploaded(store.uploads, "s1").None?;
  }

  /** A classification service that is down for every image. */
  function OutageClassifier(img: Image): Result<KindwiseReply, ServiceError> {
    Failure(ServiceError("unreachable"))
  }

  /** A classification service that answers 503 for the image `[2]` and rust for every other. */
  function FlakyClassifier(img: Image): Result<KindwiseReply, ServiceError> {
    if img == [2] then Failure(ServiceError("503"))
    else Success(KindwiseReply(Some([Suggestion(Some("Rust"), 0.9)])))
  }

  /** A classification service whose replies carry no `suggestions` key. */
  function BlankClassifier(img: Image): Result<KindwiseReply, ServiceError> {
    Success(KindwiseReply(None))
  }

  const LOG_DIR: map<string, Image> := map["log.txt" := [9 as Byte]]

  const FLAKY_DIR: map<string, Image> := map["a.jpg" := [1 as Byte], "b.jpg" := [2]]

  /** A directory without `.jpg` files yields the healthy phrase, in the requested language,
      without consulting the classifier. */
  lemma EmptyOutcome()
    ensures IsListingOf(["log.txt"], LOG_DIR)
    ensures SurveyOutcome(map[SurveyDir("s2") := LOG_DIR], "s2", "hi", ["log.txt"], OutageClassifier, SilentAdvisor)
         == Success(Report([Suggestion(Some(HEALTHY_PHRASE), 1.0)],
                           map[], map[], Locale.LanguageConfig("Hindi", "NotoSansDevanagari")))
  {
    assert !IsJpg("log.txt");
    assert JpgFiles(["log.txt"]) == [];
  }

  /** A survey with no `.jpg` image still produces a report, headed by the healthy phrase. */
  method EmptySurvey()
  {
    var store := new SurveyStore();
    var up := store.UploadImage("s2", "log.txt", [9]);
    var ack := store.SurveyComplete(CompleteRequest(Some("s2"), Some("hi")));
    EmptyOutcome();
    var outcome := store.RunNextJob(["log.txt"], OutageClassifier, SilentAdvisor);
    assert store.GetReport("s2").value.diagnosis == [Suggestion(Some(HEALTHY_PHRASE), 1.0)];
  }

  /** Both files are listed once and both are images. */
  lemma FlakyListing()
    ensures IsListingOf(["a.jpg", "b.jpg"], FLAKY_DIR)
    ensures JpgFiles(["a.jpg", "b.jpg"]) == ["a.jpg", "b.jpg"]
  {
    var listing := ["a.jpg", "b.jpg"];
    assert IsJpg("a.jpg") && IsJpg("b.jpg");
    assert listing[..1] == ["a.jpg"];
  }

  /** The second image's classification fails, and with it the job. */
  lemma FlakyOutcome()
    ensures IsListingOf(["a.jpg", "b.jpg"], FLAKY_DIR)
    ensures SurveyOutcome(map[SurveyDir("s3") := FLAKY_DIR], "s3", "en", ["a.jpg", "b.jpg"], FlakyClassifier, SilentAdvisor)
         == Failure(ClassificationFailed(ServiceError("503")))
  {
    FlakyListing();
    var files := ["a.jpg", "b.jpg"];
    assert files[..1] == ["a.jpg"];
    assert ClassifyAll(FLAKY_DIR, files[..1], FlakyClassifier).Success?;
    assert FlakyClassifier(FLAKY_DIR[files[1]]) == Failure(ServiceError("503"));
  }

  /** Two images uploaded to survey "s3". */
  method FlakyUploads() returns (store: SurveyStore)
    ensures fresh(store)
    ensures store.uploads == map[SurveyDir("s3") := FLAKY_DIR]
    ensures store.reports == map[] && store.queue == []
  {
    store := new SurveyStore();
    var up1 := store.UploadImage("s3", "a.jpg", [1]);
    var up2 := store.UploadImage("s3", "b.jpg", [2]);
  }

  /** One failed classification aborts the job: no report is written and the uploaded
      images stay where they are. */
  method FailingClassifier()
  {
    var store := FlakyUploads();
    var ack := store.SurveyComplete(CompleteRequest(Some("s3"), None));
    FlakyOutcome();
    var outcome := store.RunNextJob(["a.jpg", "b.jpg"], FlakyClassifier, SilentAdvisor);
    assert outcome == Some(Failure(ClassificationFailed(ServiceError("503"))));
    assert store.GetReport("s3").Failure?;
    assert store.uploads == map[SurveyDir("s3") := FLAKY_DIR];
  }

  const SINGLE_DIR: map<string, Image> := map["a.jpg" := [1 as Byte]]

  /** A reply without suggestions still lets the job finish. */
  lemma BlankOutcome()
    ensures IsListingOf(["a.jpg"], SINGLE_DIR)
    ensures SurveyOutcome(map[SurveyDir("s4") := SINGLE_DIR], "s4", "en", ["a.jpg"], BlankClassifier, SilentAdvisor).Success?
  {
    assert IsJpg("a.jpg");
    assert JpgFiles(["a.jpg"]) == ["a.jpg"];
  }

  /** A classification service whose top suggestion carries no name. */
  function UnnamedClassifier(img: Image): Result<KindwiseReply, ServiceError> {
    Success(KindwiseReply(Some([Suggestion(None, 0.6)])))
  }

  /** The one image is classified, with no name on its top suggestion. */
  lemma UnnamedClassified()
    ensures JpgFiles(["a.jpg"]) == ["a.jpg"]
    ensures ClassifyAll(SINGLE_DIR, ["a.jpg"], UnnamedClassifier) == Success([TopName([Suggestion(None, 0.6)])])
  {
    assert IsJpg("a.jpg");
    var files := ["a.jpg"];
    assert files[..0] == [];
    var reply := KindwiseReply(Some([Suggestion(None, 0.6)]));
    assert UnnamedClassifier(SINGLE_DIR[files[0]]) == Success(reply);
    assert Diagnose(reply) == TopName([Suggestion(None, 0.6)]);
    assert ClassifyAll(SINGLE_DIR, files[..0], UnnamedClassifier) == Success([]);
    assert [] + [Diagnose(reply)] == [Diagnose(reply)];
  }

  /** An unnamed diagnosis is counted under "Unknown" in the written report. */
  lemma UnnamedOutcome()
    ensures IsListingOf(["a.jpg"], SINGLE_DIR)
    ensures SurveyOutcome(map[SurveyDir("s5") := SINGLE_DIR], "s5", "en", ["a.jpg"], UnnamedClassifier, SilentAdvisor)
         == Success(Report([Suggestion(Some("1 plant(s) with Unknown"), 1.0)],
                           map[], map[], Locale.LanguageConfig("English", "NotoSans")))
  {
    UnnamedClassified();
    UnknownSummary(0.6);
  }

  /** The same survey triggered twice: two jobs wait in the queue. */
  method TriggerTwice() returns (store: SurveyStore)
    ensures fresh(store)
    ensures store.uploads == map[SurveyDir("s4") := SINGLE_DIR]
    ensures store.reports == map[] && store.queue == [Job("s4", "en"), Job("s4", "en")]
  {
    store := new SurveyStore();
    var up := store.UploadImage("s4", "a.jpg", [1]);
    var ack1 := store.SurveyComplete(CompleteRequest(Some("s4"), None));
    var ack2 := store.SurveyComplete(CompleteRequest(Some("s4"), None));
  }

  /** Nothing stops a second trigger for the same survey: both jobs are queued, the second
      finds the directory already removed and fails, and the first report stays available.
      An empty survey id is refused with a 400 and queues nothing. */
  method DoubleTrigger()
  {
    var store := TriggerTwice();
    BlankOutcome();
    var first := store.RunNextJob(["a.jpg"], BlankClassifier, SilentAdvisor);
    assert first.Some? && first.value.Success?;
    var second := store.RunNextJob([], BlankClassifier, SilentAdvisor);
    assert second == Some(Failure(DirectoryMissing(SurveyDir("s4"))));
    assert store.GetReport("s4").Success?;
    var rejected := store.SurveyComplete(CompleteRequest(Some(""), Some("en")));
    assert rejected == Failure(HttpError(400, "Survey ID is required.")) && store.queue == [];
  }
}
