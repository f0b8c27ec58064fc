# IMCKIDS: BMI classification for preschool children, in Dafny

IMCKIDS is a small school application. It records the height and weight of children aged 4 and 5,
computes their Body Mass Index (BMI), and classifies it against a percentile table
specific to age and sex. It appends each measurement to a log, writes a PDF certificate
per measurement, and can wipe the log and the certificates together.

This project models the logic behind those actions as pure Dafny functions:

- `results.dfy` (`Results`): the error values and the `Option`/`Result` wrappers. An unsupported cohort is
  the table lookup failure in `classificar_imc_infantil`. A non-positive height or weight is the rejection
  made by the entry form's guard. An unwritable certificate is the model's outcome for every name that still
  contains `/` once its leading `/` and `./` parts are resolved. When the next part names a sub-folder of
  `certificados`, which the application never creates, this is the failure of the PDF write; a leading
  `..` part is the exception listed under "Left out".
- `classifier.dfy` (`Classifier`): the percentile table, the four half-open bands
  ("Abaixo do peso", "Peso normal", "Sobrepeso", "Obesidade") and the classifier. It also holds the
  recommendation text attached to each band.
- `measurement.dfy` (`Measurement`): BMI = weight / height², and the guard that rejects non-positive
  inputs before the BMI is computed.
- `certificate.dfy` (`Certificate`): the certificate path `certificados/{name}_{date}_certificado.pdf`,
  where the date has every `/` replaced by `-`, and the file that path names inside the folder. On a POSIX
  file system `//` and `/./` in a path name the same folder, so a name starting with `/` or `./` still
  writes directly into `certificados`, under the name without those parts.
- `record_store.dfy` (`RecordStore`): the measurement log as an abstract sequence of rows. Saving appends a
  row. Loading recomputes every row's classification. An absent file loads as empty.
- `application.dfy` (`Application`): what one form submission and the "clear data" button do to the
  stored data, without the widgets. The row is saved before the certificate is written. The only folder the
  application creates is `certificados` itself. A name that, after its leading `/` and `./` parts, still
  contains `/` is modelled as leaving its row in the log without producing a certificate. That is what
  happens when the next part names a sub-folder; a next part `..` leaves the folder instead (see "Left out").

BMI values and thresholds are exact `real`s, so a table entry such as 13.8 is the exact rational
138/10, and every comparison is exact.

Notes on the code:

- Sex is the text code `"M"` or `"F"`.
- `calcular_imc` itself validates nothing. In exact arithmetic only a zero height makes it fail (division by zero), so
  `ComputeBmi` requires `height != 0.0`. The rejection of non-positive height or weight belongs to the form
  handler, and `CheckedBmi` models it.
- Loading catches only a missing file. A stored row whose cohort is outside the table makes the whole
  load fail, at the first such row in file order.

## Model

| member | source | states |
|---|---|---|
| Classifier.Thresholds | imckids.py:19-29 | the lookup succeeds exactly for ages 4 and 5 with sex "M" or "F"; its cut-points are then strictly ordered p5 < p85 < p95; any other key fails with an unsupported-cohort error naming that age and sex |
| Classifier.Band | imckids.py:31-39 | for ordered cut-points, the decision chain returns a band whose half-open interval, closed at its lower end, contains the BMI |
| Classifier.Classify | imckids.py:16-39 | classification succeeds exactly for a supported cohort and otherwise fails with that cohort's error; on success the band's interval from the cohort's table row contains the BMI |
| Classifier.BandsPartition | imckids.py:32-39 | for ordered cut-points exactly one band contains any BMI, and it is the one the decision chain picks |
| Classifier.ClassifyIsBand | imckids.py:19-39 | for a supported cohort, classification yields band c if and only if c's interval contains the BMI (both directions) |
| Classifier.LowerBoundsInclusive | imckids.py:32-39 | a BMI equal to p5 is normal, equal to p85 is overweight, equal to p95 is obese; underweight holds exactly below p5 and obesity exactly from p95 up |
| Classifier.ClassifyMonotone | imckids.py:32-39 | within one cohort a larger BMI never gets a lighter band (rank Underweight < Normal < Overweight < Obese) |
| Classifier.ClassifyExamples | imckids.py:20-39 | a boy of 4 at BMI 14.0 is normal and at 13.99 underweight; a girl of 5 at 17.3 is obese; age 6 fails as unsupported |
| Classifier.ParseLabel | imckids.py:33-39 | reading a label back yields the band that has exactly that label, or nothing when no band has it |
| Classifier.LabelRoundTrip | imckids.py:33-39 | the label of a band reads back as that band, and a text reads back as band c exactly when it is c's label |
| Classifier.LabelInjective | imckids.py:33-39 | different bands have different labels |
| Classifier.Describe | imckids.py:59-67 | each of the four labels gets its band's recommendation; every other text falls through to the obesity recommendation; in closed form, the result is the recommendation of the band the text names, or the obesity one when it names none |
| Classifier.RecommendationsDistinct | imckids.py:60-67 | the four recommendation texts are pairwise different |
| Classifier.DescriptionsDistinct | imckids.py:59-67 | different bands' labels are described by different recommendations, so describing is one-to-one on the four labels |
| Measurement.ComputeBmi | imckids.py:55-56 | the BMI times the squared height gives back the weight, and a positive weight gives a positive BMI |
| Measurement.CheckedBmi | imckids.py:148-151 | a BMI is produced exactly when height and weight are both positive; it is then positive and is the weight over the squared height; otherwise the result is the invalid-measurement error |
| Measurement.BmiMonotoneInWeight | imckids.py:55-56 | at a fixed positive height a heavier child's BMI is at least as large |
| Measurement.BmiAntitoneInHeight | imckids.py:55-56 | at a fixed positive weight a taller child's BMI is no larger |
| Measurement.BmiExamples | imckids.py:55-56 | 14.0 kg and 17.3 kg at 1 m give BMI 14.0 and 17.3; a zero height is rejected |
| Certificate.ReplaceSlashes | imckids.py:80-81 | the result has the date's length, every '/' becomes '-', every other character is kept in place, and no '/' remains |
| Certificate.CertificatePath | imckids.py:81-82 | the path is the folder prefix, then the name, then '_', then the date with slashes replaced, then the fixed suffix, with the total length to match |
| Certificate.ReplaceSlashesIdempotent | imckids.py:81 | replacing slashes in an already converted date changes nothing |
| Certificate.CertificatePathInjective | imckids.py:81-82 | for dates of equal length, two paths coincide exactly when the names are equal and the converted dates are equal |
| Certificate.CertificatePathSingleLevel | imckids.py:80-82 | below the folder the path contains no '/' exactly when the name contains none; the date never adds one |
| Certificate.ReplaceSlashesExample | imckids.py:81 | the date 09/10/2026 becomes 09-10-2026 |
| Certificate.SelfReferencePrefix | imckids.py:82-84 | the measured prefix lies within the name and consists of leading "/" and "./" parts (so a ".." part is never counted); after it the name starts with neither "/" nor "./"; a name without '/' has an empty prefix |
| Certificate.SelfReferencePrefixExamples | imckids.py:82-84 | "../a" has no self-reference prefix, since ".." is a parent reference; "/./a" drops its first three characters |
| Certificate.FolderEntry | imckids.py:77-96 | a certificate write creates a file exactly when the name without its leading "/" and "./" parts holds no '/'; the file is then the certificate path of that shortened name, and for a name without '/' it is the path as built |
| Certificate.FolderEntryInFolder | imckids.py:77-84 | every file a certificate write creates starts with the folder prefix and holds no further '/': it lies directly in the folder |
| RecordStore.Save | imckids.py:70-73 | appending leaves the file present, with the earlier rows unchanged and the new row last |
| RecordStore.ClassifyRows | imckids.py:46-49 | rows are classified in order, one result per row, each row unchanged and paired with its own classification; it fails exactly when some row's cohort is unsupported, and then with the error of the first such row |
| RecordStore.Load | imckids.py:42-52 | an absent file loads as empty; otherwise the load returns the file's rows in order, each paired with the classification of its stored BMI, age and sex, and fails exactly when a row is unclassifiable, reporting the first one |
| RecordStore.SaveAllContents | imckids.py:70-73 | appending rows one by one yields the earlier rows followed by the new rows in insertion order |
| RecordStore.LoadAfterSaves | imckids.py:44-49 | after n classifiable rows are appended to an absent file, loading yields exactly those n rows in insertion order, each classified from its own fields |
| RecordStore.SaveThenLoad | imckids.py:44-49 | appending one classifiable row to a loadable log extends the loaded result by exactly that row and its classification |
| Application.Submit | imckids.py:147-160 | a submission completes exactly when height and weight are positive, the cohort is supported and the name without its leading "/" and "./" parts holds no '/'; in particular every name without '/' completes. Non-positive height or weight gives the invalid-measurement error, and an unsupported cohort its lookup error; both leave the storage unchanged. Once both checks pass, exactly one row is appended, holding the BMI of the measurements. Otherwise the certificate is modelled as not written: the folder is unchanged and the unwritable-certificate error names the path. On completion: the BMI is positive and consistent with the measurements; the classification is that of the BMI; the description is that band's recommendation; the reported path is the one built from name and date; the folder gains the file that path resolves to |
| Application.Record | imckids.py:153-159 | an accepted submission always appends its row after the existing ones; it completes exactly when the name without its leading "/" and "./" parts holds no '/' (always so for a name without '/'), reporting its BMI, band, that band's recommendation and the path as built, while the resolved file joins the folder; otherwise the folder is unchanged and the unwritable-certificate error names the path |
| Application.ClearAll | imckids.py:100-107 | after clearing, the log loads as empty (so it is loadable) and the certificate folder holds nothing |
| Application.SubmitThenLoad | imckids.py:151-159 | after a submission that passes the guard and the table lookup, the log still loads; the earlier rows come back unchanged and the last row is the submitted one, classified from its BMI; when the submission completed, that is the classification it reported |
| Application.SubmissionsStayLoadable | imckids.py:147-155 | any sequence of submissions starting from a loadable (for example cleared) storage leaves a log that loads without a lookup failure |
| Application.SubmitExampleObese | imckids.py:147-153 | 17.3 kg at 1 m for a girl of 5 completes as obese |
| Application.SubmitExampleNormal | imckids.py:147-153 | 14.0 kg at 1 m for a boy of 4 completes as normal |
| Application.SubmitAtUnitHeight | imckids.py:147-159 | at a height of 1 m, with positive weight, a supported cohort and a name without '/', the submission completes and reports the classification of the weight itself |
| Application.SubmitRejections | imckids.py:147-152 | a zero height is an invalid measurement and age 6 an unsupported cohort, each leaving the storage unchanged |
| Application.SubmitNameWithSlash | imckids.py:77-96 | the name "a/b" keeps its appended row but gets no certificate: the folder is unchanged and the unwritable-certificate error names the path |
| Application.SubmitLeadingSlash | imckids.py:77-96 | the name "/Ana" completes, reports the path built from "/Ana", and the folder gains the file the name "Ana" would have produced |

## Left out

- The web interface (page layout, navigation, form widgets, session state, download buttons, messages):
  presentation only. Its input ranges (age 4 to 5, height 0.5 to 2.5 m, weight 5 to 100 kg, sex "M"/"F")
  are not imposed. The model accepts any form values and models the errors the code itself raises.
- Chart construction with Plotly and PDF drawing with ReportLab: calls into graphics libraries with a
  fixed layout. The model keeps only the certificate's path, and it tracks the certificate folder as a
  set of paths.
- The file system and CSV encoding (`open`, `csv.writer`, `pd.read_csv`, `os.remove`, `shutil.rmtree`,
  `os.listdir`): the log is an abstract `Absent | Present(rows)`. Other I/O failures are not modelled.
  Neither is the parser's behaviour on an existing but empty file, which the operations never create.
- Certificate.FolderEntry, Application.Record, Application.Submit: treat every name that still contains
  `/` after its leading `/` and `./` parts as a failed certificate write, which is exact only when the next
  part names a sub-folder of `certificados` (never created). A next part `..` leaves the folder for its
  parent, which exists, and the outcome then depends on the directory tree, which is not modelled: the path
  can resolve through existing directories, so the program writes the certificate and completes. The file
  lands outside the folder (for example for `../x`, and clearing the data later leaves it behind) or back
  inside it (for example `../certificados/Ana` writes `certificados/Ana_<date>_certificado.pdf`). The model
  reports the unwritable-certificate error and leaves the folder unchanged in all these cases. Other names
  the operating system refuses (for example one containing a NUL character, or a file name that is too
  long) are not modelled either.
- Date formatting with `strftime("%d/%m/%Y")`: the weigh date enters the model as opaque text.
- Measurement.ComputeBmi: does not model IEEE-754 double rounding or the power operator `altura ** 2`. It
  uses exact real division by `height * height`, so an exact tie at a cut-point falls in the higher
  band, even where rounded floating point might fall on the other side. Neither does it model the
  underflow or overflow of `altura ** 2` for extreme heights.
- The two-decimal display of BMI, height and weight: formatting only.
- Concurrent submissions from several sessions: the application is single-threaded per request, and
  interleaved appends are not modelled.
