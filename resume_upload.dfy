/** The resume upload page: the file-type check and the status the page passes through while
    the skills are extracted. The extraction itself is not modelled; its outcome is an input. */
module ResumeUpload {
  import opened Text
  import opened Types
  import opened AppContext

  datatype UploadStatus = Idle | Analyzing | Complete

  const PdfType: string := "application/pdf"
  const DocType: string := "application/msword"
  const DocxType: string := "application/vnd.openxmlformats-officedocument.wordprocessingml.document"

  const AllowedTypes: seq<string> := [PdfType, DocType, DocxType]

  /** `allowedTypes.includes(file.type)`. */
  predicate Accepted(mimeType: string)
  {
    mimeType in AllowedTypes
  }

  /** Exactly the PDF, DOC and DOCX types are accepted. */
  lemma AcceptedTypes(mimeType: string)
    ensures Accepted(mimeType) <==> mimeType == PdfType || mimeType == DocType || mimeType == DocxType
  {
  }

  /** The page's own state and the application state it dispatches to. */
  class UploadPage {
    var uploadStatus: UploadStatus
    var extractedSkillsCount: nat
    var app: AppState

    constructor(app0: AppState)
      ensures uploadStatus == Idle && extractedSkillsCount == 0 && app == app0
    {
      uploadStatus := Idle;
      extractedSkillsCount := 0;
      app := app0;
    }

    /** The synchronous part of `handleFileUpload`: a file of another type is refused and
        nothing changes; an accepted file is stored and the page starts analysing. */
    method BeginUpload(file: UploadedFile) returns (accepted: bool)
      modifies this
      ensures accepted == Accepted(file.mimeType)
      ensures !accepted ==> uploadStatus == old(uploadStatus) && app == old(app)
      ensures accepted ==> (uploadStatus == Analyzing &&
                            app == Reduce(Reduce(old(app), SetResumeFile(Some(file))), SetIsAnalyzing(true)))
      ensures extractedSkillsCount == old(extractedSkillsCount)
    {
      if !Accepted(file.mimeType) {
        return false;
      }
      app := Reduce(app, SetResumeFile(Some(file)));
      uploadStatus := Analyzing;
      app := Reduce(app, SetIsAnalyzing(true));
      accepted := true;
    }

    /** The extraction succeeded: the skills are stored and counted, the status is complete,
        and the `finally` clause ends the analysis. */
    method FinishExtraction(skills: seq<string>)
      modifies this
      ensures app == Reduce(Reduce(old(app), SetResumeSkills(skills)), SetIsAnalyzing(false))
      ensures extractedSkillsCount == |skills| && uploadStatus == Complete
    {
      app := Reduce(app, SetResumeSkills(skills));
      extractedSkillsCount := |skills|;
      uploadStatus := Complete;
      app := Reduce(app, SetIsAnalyzing(false));
    }

    /** The extraction failed: the status returns to idle and the analysis ends; the stored
        file stays. */
    method FailExtraction()
      modifies this
      ensures app == Reduce(old(app), SetIsAnalyzing(false))
      ensures extractedSkillsCount == old(extractedSkillsCount) && uploadStatus == Idle
    {
      uploadStatus := Idle;
      app := Reduce(app, SetIsAnalyzing(false));
    }

    /** `handleFileUpload` from start to end, with the extraction's outcome given: `Some`
        skills on success, `None` on failure. */
    method HandleFileUpload(file: UploadedFile, outcome: Option<seq<string>>) returns (accepted: bool)
      modifies this
      ensures accepted == Accepted(file.mimeType)
      ensures !accepted ==> uploadStatus == old(uploadStatus) && app == old(app) &&
                            extractedSkillsCount == old(extractedSkillsCount)
      ensures accepted ==> app.resumeFile == Some(file) && !app.isAnalyzing
      ensures accepted ==> forall f :: f != FileField && f != SkillsField && f != AnalyzingField ==>
                             SameAt(old(app), app, f)
      ensures accepted && outcome.Some? ==>
        uploadStatus == Complete && app.resumeSkills == outcome.value && extractedSkillsCount == |outcome.value|
      ensures accepted && outcome.None? ==>
        uploadStatus == Idle && app.resumeSkills == old(app.resumeSkills) &&
        extractedSkillsCount == old(extractedSkillsCount)
    {
      accepted := BeginUpload(file);
      if !accepted {
        return;
      }
      if outcome.Some? {
        FinishExtraction(outcome.value);
      } else {
        FailExtraction();
      }
    }
  }
}
