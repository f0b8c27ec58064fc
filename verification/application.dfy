/**
 The data side of the registration form and of the "clear data" button: the guard,
 BMI, classification, description, the appended log row and the certificate file
 (`pagina_cadastro` without its widgets, and `limpar_dados`).
 */
module Application {
  import opened Results
  import opened Classifier
  import opened Measurement
  import opened Certificate
  import opened RecordStore

  /** Everything the application persists: the measurement log and the files inside the certificate folder. */
  datatype Storage = Storage(log: LogFile, certificates: set<string>)

  /** The values a user submits; the weigh date arrives already formatted as text. */
  datatype Form = Form(name: string, age: int, height: real, weight: real, sex: string, weighDate: string)

  /** What a completed submission shows the user. */
  datatype Report = Report(bmi: real, classification: Category, description: string, certificate: string)

  /**
   The storage after a submission, and how the submission ended. A submission can fail after
   its row was saved, so the storage is returned in every case.
   */
  datatype Response = Response(storage: Storage, outcome: Result<Report>)

  /** The log row a submission with the given BMI appends. */
  function RowOf(form: Form, bmi: real): Row {
    Row(form.name, form.age, form.height, form.weight, bmi, form.weighDate, form.sex)
  }

  /** Height and weight pass the guard and the cohort is in the table: the row gets saved. */
  predicate Accepted(form: Form) {
    form.height > 0.0 && form.weight > 0.0 && SupportedCohort(form.age, form.sex)
  }

  /**
   Rejects non-positive height or weight, computes and classifies the BMI (a cohort outside
   the table fails before anything is saved), then appends the row and writes the certificate.
   */
  function Submit(storage: Storage, form: Form): (r: Response)
    ensures r.outcome.Ok? <==> Accepted(form) && FolderEntry(form.name, form.weighDate).Some?
    ensures Accepted(form) && '/' !in form.name ==> r.outcome.Ok?
    ensures !(form.height > 0.0 && form.weight > 0.0) ==> r == Response(storage, Err(InvalidMeasurement))
    ensures form.height > 0.0 && form.weight > 0.0 && !SupportedCohort(form.age, form.sex) ==>
      r == Response(storage, Err(UnsupportedCohort(form.age, form.sex)))
    ensures Accepted(form) ==>
      Contents(r.storage.log) == Contents(storage.log) + [RowOf(form, ComputeBmi(form.weight, form.height))]
    ensures Accepted(form) && FolderEntry(form.name, form.weighDate).None? ==>
      && r.outcome == Err(CertificateNotWritten(CertificatePath(form.name, form.weighDate)))
      && r.storage.certificates == storage.certificates
    ensures r.outcome.Ok? ==> r.outcome.value.bmi > 0.0 && IsBmiOf(r.outcome.value.bmi, form.weight, form.height)
    ensures r.outcome.Ok? ==> Classify(r.outcome.value.bmi, form.age, form.sex) == Ok(r.outcome.value.classification)
    ensures r.outcome.Ok? ==> r.outcome.value.description == Recommendation(r.outcome.value.classification)
    ensures r.outcome.Ok? ==> r.outcome.value.certificate == CertificatePath(form.name, form.weighDate)
    ensures r.outcome.Ok? ==>
      r.storage.certificates == storage.certificates + {FolderEntry(form.name, form.weighDate).value}
  {
    match CheckedBmi(form.weight, form.height)
    case Err(e) => Response(storage, Err(e))
    case Ok(bmi) =>
      match Classify(bmi, form.age, form.sex)
      case Err(e) =>
        assert e == UnsupportedCohort(form.age, form.sex);
        Response(storage, Err(e))
      case Ok(classification) => Record(storage, form, bmi, classification)
  }

  /**
   The effects of an accepted submission: the row is appended first, then the certificate is
   written. The report names the path as the application builds it; the file that appears is
   the folder entry that path resolves to. When no entry exists (see `FolderEntry`), the write
   is modelled as failing: no certificate is added, while the row stays saved.
   */
  function Record(storage: Storage, form: Form, bmi: real, classification: Category): (r: Response)
    ensures Contents(r.storage.log) == Contents(storage.log) + [RowOf(form, bmi)]
    ensures r.outcome.Ok? <==> FolderEntry(form.name, form.weighDate).Some?
    ensures '/' !in form.name ==> r.outcome.Ok?
    ensures FolderEntry(form.name, form.weighDate).None? ==>
      && r.outcome == Err(CertificateNotWritten(CertificatePath(form.name, form.weighDate)))
      && r.storage.certificates == storage.certificates
    ensures r.outcome.Ok? ==> r.outcome.value == Report(bmi, classification, Recommendation(classification),
                                                        CertificatePath(form.name, form.weighDate))
    ensures r.outcome.Ok? ==>
      r.storage.certificates == storage.certificates + {FolderEntry(form.name, form.weighDate).value}
  {
    var description := Describe(Label(classification));
    var log := Save(storage.log, RowOf(form, bmi));
    var certificate := CertificatePath(form.name, form.weighDate);
    match FolderEntry(form.name, form.weighDate)
    case None => Response(Storage(log, storage.certificates), Err(CertificateNotWritten(certificate)))
    case Some(file) =>
      Response(Storage(log, storage.certificates + {file}), Ok(Report(bmi, classification, description, certificate)))
  }

  /** A storage whose log loads without a lookup failure. */
  predicate Loadable(storage: Storage) {
    AllClassifiable(Contents(storage.log))
  }

  /** Removes the log file and the certificate folder with everything in it. */
  function ClearAll(storage: Storage): (r: Storage)
    ensures Loadable(r)
    ensures Load(r.log) == Ok([])
    ensures r.certificates == {}
  {
    Storage(Absent, {})
  }

  /**
   Submitting then loading: the log still loads, the earlier rows come back unchanged, and an
   accepted form's row comes last with the classification of its BMI, which is also the one the
   submission reported when it completed.
   */
  lemma SubmitThenLoad(storage: Storage, form: Form)
    requires Loadable(storage)
    requires Accepted(form)
    ensures Loadable(Submit(storage, form).storage)
    ensures var bmi := ComputeBmi(form.weight, form.height);
      Load(Submit(storage, form).storage.log)
        == Ok(Load(storage.log).value + [LoadedRow(RowOf(form, bmi), Classify(bmi, form.age, form.sex).value)])
    ensures Submit(storage, form).outcome.Ok? ==>
      Classify(ComputeBmi(form.weight, form.height), form.age, form.sex).value
        == Submit(storage, form).outcome.value.classification
  {
    var r := Submit(storage, form);
    var bmi := ComputeBmi(form.weight, form.height);
    var row := RowOf(form, bmi);
    assert Contents(r.storage.log) == Contents(Save(storage.log, row));
    SaveThenLoad(storage.log, row);
    if r.outcome.Ok? {
      var b := r.outcome.value.bmi;
      assert b * (form.height * form.height) == bmi * (form.height * form.height);
      SquarePositive(form.height);
      assert b == bmi;
    }
  }

  /** Replays submissions in order; each one leaves the storage its response reports. */
  function SubmitAll(storage: Storage, forms: seq<Form>): Storage
    decreases |forms|
  {
    if forms == [] then storage
    else SubmitAll(Submit(storage, forms[0]).storage, forms[1..])
  }

  /** Any sequence of submissions from an empty or cleared storage leaves a loadable log. */
  lemma {:induction false} SubmissionsStayLoadable(storage: Storage, forms: seq<Form>)
    requires Loadable(storage)
    ensures Loadable(SubmitAll(storage, forms))
    decreases |forms|
  {
    if forms != [] {
      if Accepted(forms[0]) {
        SubmitThenLoad(storage, forms[0]);
      }
      SubmissionsStayLoadable(Submit(storage, forms[0]).storage, forms[1..]);
    }
  }

  /** A boundary scenario: 17.3 kg at 1 m for a girl of 5 completes as obese. */
  lemma SubmitExampleObese(storage: Storage)
    ensures Submit(storage, Form("Ana", 5, 1.0, 17.3, "F", "09/10/2026")).outcome.Ok?
    ensures Submit(storage, Form("Ana", 5, 1.0, 17.3, "F", "09/10/2026")).outcome.value.classification == Obese
  {
    var form := Form("Ana", 5, 1.0, 17.3, "F", "09/10/2026");
    assert form.name[0] != '/' && form.name[1] != '/' && form.name[2] != '/';
    ClassifyExamples();
    SubmitAtUnitHeight(storage, form);
  }

  /** A boundary scenario: 14.0 kg at 1 m for a boy of 4 completes as normal. */
  lemma SubmitExampleNormal(storage: Storage)
    ensures Submit(storage, Form("Rui", 4, 1.0, 14.0, "M", "09/10/2026")).outcome.Ok?
    ensures Submit(storage, Form("Rui", 4, 1.0, 14.0, "M", "09/10/2026")).outcome.value.classification == Normal
  {
    var form := Form("Rui", 4, 1.0, 14.0, "M", "09/10/2026");
    assert form.name[0] != '/' && form.name[1] != '/' && form.name[2] != '/';
    ClassifyExamples();
    SubmitAtUnitHeight(storage, form);
  }

  /** For a name without '/' at a height of 1 m, the submission completes and classifies the weight itself. */
  lemma SubmitAtUnitHeight(storage: Storage, form: Form)
    requires form.height == 1.0 && form.weight > 0.0
    requires SupportedCohort(form.age, form.sex)
    requires '/' !in form.name
    ensures Submit(storage, form).outcome.Ok?
    ensures Classify(form.weight, form.age, form.sex) == Ok(Submit(storage, form).outcome.value.classification)
  {
  }

  /** A zero height and an age outside the table are rejected with nothing saved. */
  lemma SubmitRejections(storage: Storage)
    ensures Submit(storage, Form("Rui", 4, 0.0, 14.0, "M", "09/10/2026")) == Response(storage, Err(InvalidMeasurement))
    ensures Submit(storage, Form("Rui", 6, 1.0, 14.0, "M", "09/10/2026"))
      == Response(storage, Err(UnsupportedCohort(6, "M")))
  {
  }

  /** A name with '/': the row is kept, but the certificate is not written. */
  lemma SubmitNameWithSlash(storage: Storage)
    ensures var r := Submit(storage, Form("a/b", 4, 1.0, 15.0, "M", "09/10/2026"));
      && r.outcome == Err(CertificateNotWritten(CertificatePath("a/b", "09/10/2026")))
      && |Contents(r.storage.log)| == |Contents(storage.log)| + 1
      && r.storage.certificates == storage.certificates
  {
  }

  /**
   Leading "/" and "./" parts name the certificate folder itself: "/Ana" completes, and the
   folder gains the same file the name "Ana" would have produced.
   */
  lemma SubmitLeadingSlash(storage: Storage)
    ensures var r := Submit(storage, Form("/Ana", 4, 1.0, 15.0, "M", "09/10/2026"));
      && r.outcome.Ok?
      && r.outcome.value.certificate == CertificatePath("/Ana", "09/10/2026")
      && r.storage.certificates == storage.certificates + {CertificatePath("Ana", "09/10/2026")}
  {
    var name := "/Ana";
    assert SelfReferencePrefix(name[1..]) == 0;
    assert SelfReferencePrefix(name) == 1;
    assert DropSelfReferences(name) == "Ana";
    assert "Ana"[0] != '/' && "Ana"[1] != '/' && "Ana"[2] != '/';
  }
}
