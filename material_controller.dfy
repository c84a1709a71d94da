/** The material controller's rules: the extension-to-type lookup and the defaults of an
    uploaded material, and the partial progress update with an accumulating time. The file
    system read, the generated external id and the clock are parameters. */
module MaterialController {
  import opened Common
  import opened LearningMaterial

  // ---------------------------------------------------------------------------------------
  // Extensions and types

  /** The position of the last `.` in `s`. */
  function LastDot(s: string): (r: Option<nat>)
    ensures r.Some? ==> r.value < |s| && s[r.value] == '.' && forall j :: r.value < j < |s| ==> s[j] != '.'
    ensures r.None? ==> forall j :: 0 <= j < |s| ==> s[j] != '.'
    decreases |s|
  {
    if s == [] then None
    else if s[|s| - 1] == '.' then Some(|s| - 1)
    else LastDot(s[..|s| - 1])
  }

  /** `path.extname` of a file name without `/`: from the last `.` to the end, except that a
      name without a dot, a name whose only dot leads it, and the name `..` have none. */
  function Extname(name: string): (r: string)
    ensures r != "" ==> r[0] == '.' && |r| < |name| && r == name[|name| - |r|..]
    ensures forall j :: 1 <= j < |r| ==> r[j] != '.'
    ensures name == ".." ==> r == ""
    ensures forall k :: 0 < k < |name| && name[k] == '.' && (forall j :: k < j < |name| ==> name[j] != '.') && name != ".." ==>
      r == name[k..]
  {
    match LastDot(name)
    case None => ""
    case Some(k) =>
      if k == 0 || name == ".." then ""
      else name[k..]
  }

  lemma {:induction false} LastDotOfLower(s: string)
    ensures LastDot(ToLower(s)) == LastDot(s)
    decreases |s|
  {
    if s != [] {
      assert ToLower(s)[..|s| - 1] == ToLower(s[..|s| - 1]);
      LastDotOfLower(s[..|s| - 1]);
    }
  }

  /** The last dot is the one with no dot after it. */
  lemma LastDotIs(s: string, k: nat)
    requires k < |s| && s[k] == '.'
    requires forall j :: k < j < |s| ==> s[j] != '.'
    ensures LastDot(s) == Some(k)
  {
  }

  /** Lower-casing the name before or after taking the extension is the same. */
  lemma ExtnameOfLower(name: string)
    ensures Extname(ToLower(name)) == ToLower(Extname(name))
  {
    LastDotOfLower(name);
    assert ToLower(name) == ".." <==> name == "..";
    match LastDot(name)
    case None =>
    case Some(k) =>
      if k != 0 && name != ".." {
        assert ToLower(name)[k..] == ToLower(name[k..]);
      }
  }

  const TypeMap: map<string, string> := map[".pdf" := "pdf", ".doc" := "document", ".docx" := "document", ".txt" := "notes", ".md" := "notes"]

  /** `determineType`: an exact lookup of the extension, `document` when it is unknown. */
  function DetermineType(ext: string): (r: string)
    ensures r in MaterialTypes
    ensures r == "pdf" <==> ext == ".pdf"
    ensures r == "notes" <==> ext == ".txt" || ext == ".md"
    ensures r == "document" <==> ext != ".pdf" && ext != ".txt" && ext != ".md"
  {
    if ext in TypeMap then TypeMap[ext] else "document"
  }

  /** The type an uploaded file gets: from its lower-cased extension. */
  function UploadType(originalName: string): (r: string)
    ensures r in MaterialTypes
  {
    DetermineType(ToLower(Extname(originalName)))
  }

  /** A file whose name ends in an extension gets the type of that extension, lower-cased. */
  lemma UploadTypeOfExtension(base: string, ext: string)
    requires base != [] && base + ext != ".."
    requires ext != [] && ext[0] == '.' && forall j :: 1 <= j < |ext| ==> ext[j] != '.'
    ensures UploadType(base + ext) == DetermineType(ToLower(ext))
  {
    var name := base + ext;
    assert forall j :: |base| < j < |name| ==> name[j] == ext[j - |base|];
    LastDotIs(name, |base|);
    assert name[|base|..] == ext;
  }

  /** A file whose name has no dot after its first character is a document. */
  lemma UploadTypeWithoutExtension(name: string)
    requires forall j :: 0 < j < |name| ==> name[j] != '.'
    ensures UploadType(name) == "document"
  {
  }

  /** The case of the file name does not change its type. */
  lemma UploadTypeIgnoresCase(originalName: string)
    ensures UploadType(ToLower(originalName)) == UploadType(originalName)
  {
    ExtnameOfLower(originalName);
    ToLowerIdempotent(Extname(originalName));
  }

  /** `report.PDF` uploads as a PDF, `notes.Md` as notes and `archive.tar.gz` as a document. */
  lemma UploadTypeExamples()
    ensures UploadType("report.PDF") == "pdf"
    ensures UploadType("notes.Md") == "notes"
    ensures UploadType("archive.tar.gz") == "document"
    ensures UploadType(".pdf") == "document"
  {
    LastDotIs("report.PDF", 6);
    assert Extname("report.PDF") == ".PDF";
    assert ToLower(".PDF") == ".pdf";
    LastDotIs("notes.Md", 5);
    assert Extname("notes.Md") == ".Md";
    assert ToLower(".Md") == ".md";
    LastDotIs("archive.tar.gz", 11);
    assert Extname("archive.tar.gz") == ".gz";
    LastDotIs(".pdf", 0);
  }

  // ---------------------------------------------------------------------------------------
  // Upload

  datatype UploadedFile = UploadedFile(originalName: string, size: int)

  /** The form fields; `topics` is the already parsed list when the field is non-empty. */
  datatype UploadForm = UploadForm(title: Option<string>, category: Option<string>, subject: Option<string>,
                                   topics: Option<seq<string>>)

  datatype UploadError = NoFileUploaded

  /** `x || fallback` on an optional string: missing and empty both fall back. */
  function StringOr(x: Option<string>, fallback: string): (r: string)
    ensures x.Some? && x.value != "" ==> r == x.value
    ensures !(x.Some? && x.value != "") ==> r == fallback
  {
    if x.Some? && x.value != "" then x.value else fallback
  }

  /** `uploadMaterial`: the fixed fields and metadata of the new material. `fileText` is what
      reading a `.txt` upload gives; other types carry no text. */
  function UploadRecord(userId: string, externalId: string, form: UploadForm, file: Option<UploadedFile>, fileText: string)
    : (r: Result<(MaterialInfo, Metadata), UploadError>)
    ensures file.None? ==> r == Err(NoFileUploaded)
    ensures file.Some? ==>
      r.Ok? &&
      var (info, metadata) := r.value;
      && info.userId == userId && info.connectorId == "local_upload" && info.externalId == externalId
      && info.title == StringOr(form.title, file.value.originalName)
      && info.kind == UploadType(file.value.originalName) && info.kind in MaterialTypes
      && info.category == StringOr(form.category, "study_material")
      && info.subject == form.subject
      && info.topics == (if form.topics.Some? then form.topics.value else [])
      && (info.text.Some? <==> ToLower(Extname(file.value.originalName)) == ".txt" && fileText != "")
      && (info.text.Some? ==> info.text.value == fileText)
      && metadata == Metadata("local_upload", None, Some(file.value.size), None, None)
  {
    if file.None? then Err(NoFileUploaded)
    else
      var f := file.value;
      var ext := ToLower(Extname(f.originalName));
      var content := if ext == ".txt" then fileText else "";
      Ok((MaterialInfo(userId, "local_upload", externalId, StringOr(form.title, f.originalName), DetermineType(ext),
                       StringOr(form.category, "study_material"), form.subject,
                       if form.topics.Some? then form.topics.value else [],
                       if content != "" then Some(content) else None),
          Metadata("local_upload", None, Some(f.size), None, None)))
  }

  /** Only a `.txt` upload carries text, and such an upload is stored as notes. */
  lemma UploadTextOnlyForNotes(userId: string, externalId: string, form: UploadForm, file: Option<UploadedFile>, fileText: string)
    ensures var r := UploadRecord(userId, externalId, form, file, fileText);
      r.Ok? && r.value.0.text.Some? ==> r.value.0.kind == "notes"
  {
  }

  /** `uploadMaterial`: no file is an error and creates nothing; otherwise a new material
      with the upload's fields, unanalysed and not started. */
  method UploadMaterial(userId: string, externalId: string, form: UploadForm, file: Option<UploadedFile>, fileText: string)
    returns (r: Result<Material, UploadError>)
    ensures file.None? <==> r == Err(NoFileUploaded)
    ensures r.Ok? ==>
      && fresh(r.value)
      && UploadRecord(userId, externalId, form, file, fileText) == Ok((r.value.info, r.value.metadata))
      && r.value.analysis == NotAnalyzed && r.value.progress == NotStarted
  {
    var record := UploadRecord(userId, externalId, form, file, fileText);
    if record.Err? {
      return Err(record.error);
    }
    var m := new Material(record.value.0, record.value.1);
    return Ok(m);
  }

  // ---------------------------------------------------------------------------------------
  // Progress

  /** The body of a progress update; `None` for a field that is not sent. */
  datatype ProgressUpdate = ProgressUpdate(
    status: Option<string>,
    completionPercentage: Option<real>,
    timeSpent: Option<real>,
    notes: Option<string>)

  datatype MaterialError = MaterialNotFound

  /** The progress after an update at time `now`. */
  function ApplyProgressUpdate(p: Progress, u: ProgressUpdate, now: Time): (r: Progress)
    ensures r.status == StringOr(u.status, p.status)
    ensures r.completionPercentage == (if u.completionPercentage.Some? then u.completionPercentage.value else p.completionPercentage)
    ensures r.timeSpent == p.timeSpent + (if u.timeSpent.Some? then u.timeSpent.value else 0.0)
    ensures r.notes == (if u.notes.Some? && u.notes.value != "" then u.notes else p.notes)
    ensures r.lastAccessed == Some(now)
  {
    Progress(
      StringOr(u.status, p.status),
      if u.completionPercentage.Some? then u.completionPercentage.value else p.completionPercentage,
      Some(now),
      p.timeSpent + (if u.timeSpent.Some? then u.timeSpent.value else 0.0),
      if u.notes.Some? && u.notes.value != "" then u.notes else p.notes)
  }

  /** The progress after a series of updates, all at time `now`. */
  function ApplyAll(p: Progress, us: seq<ProgressUpdate>, now: Time): Progress
    decreases |us|
  {
    if us == [] then p else ApplyAll(ApplyProgressUpdate(p, us[0], now), us[1..], now)
  }

  function TimeDeltas(us: seq<ProgressUpdate>): real
    decreases |us|
  {
    if us == [] then 0.0 else (if us[0].timeSpent.Some? then us[0].timeSpent.value else 0.0) + TimeDeltas(us[1..])
  }

  /** Time spent is never overwritten: after any series of updates it is the old value plus
      the sum of the times sent. */
  lemma {:induction false} TimeSpentAccumulates(p: Progress, us: seq<ProgressUpdate>, now: Time)
    ensures ApplyAll(p, us, now).timeSpent == p.timeSpent + TimeDeltas(us)
    decreases |us|
  {
    if us != [] {
      TimeSpentAccumulates(ApplyProgressUpdate(p, us[0], now), us[1..], now);
    }
  }

  /** An update that sends no time is idempotent. */
  lemma UpdateWithoutTimeIdempotent(p: Progress, u: ProgressUpdate, now: Time)
    requires u.timeSpent.None?
    ensures ApplyProgressUpdate(ApplyProgressUpdate(p, u, now), u, now) == ApplyProgressUpdate(p, u, now)
  {
  }

  /** An update that sends nothing only records the access time. */
  lemma EmptyUpdateOnlyTouches(p: Progress, now: Time)
    ensures ApplyProgressUpdate(p, ProgressUpdate(None, None, None, None), now) == p.(lastAccessed := Some(now))
  {
  }

  /** `updateMaterialProgress`: a material that the lookup does not find is an error and
      nothing changes; otherwise the fields are updated in place, one rule at a time. */
  method UpdateMaterialProgress(material: Material?, u: ProgressUpdate, now: Time)
    returns (r: Result<Progress, MaterialError>)
    modifies material
    ensures material == null ==> r == Err(MaterialNotFound)
    ensures material != null ==>
      && material.progress == ApplyProgressUpdate(old(material.progress), u, now)
      && r == Ok(material.progress)
      && material.metadata == old(material.metadata) && material.analysis == old(material.analysis)
  {
    if material == null {
      return Err(MaterialNotFound);
    }
    if u.status.Some? && u.status.value != "" {
      material.progress := material.progress.(status := u.status.value);
    }
    if u.completionPercentage.Some? {
      material.progress := material.progress.(completionPercentage := u.completionPercentage.value);
    }
    if u.timeSpent.Some? {
      material.progress := material.progress.(timeSpent := material.progress.timeSpent + u.timeSpent.value);
    }
    if u.notes.Some? && u.notes.value != "" {
      material.progress := material.progress.(notes := u.notes);
    }
    material.progress := material.progress.(lastAccessed := Some(now));
    return Ok(material.progress);
  }
}
