/**
  * The earlier four-step builder component: a per-step completeness check
  * that an effect keeps in `canProceed`, the "Previous" button, and the
  * preview and download actions guarded on the personal information.
  */
module LegacyBuilder {
  import opened Wrappers

  /**
    * Its record: personal information as an untyped object (its keys and
    * their text values) and three lists whose entries are untyped objects.
    */
  datatype LegacyData = LegacyData(
    personalInfo: map<string, string>,
    experience: seq<map<string, string>>,
    education: seq<map<string, string>>,
    skills: seq<map<string, string>>)

  /** The initial record: no personal keys and three empty lists. */
  const EmptyData := LegacyData(map[], [], [], [])

  /** The notice both guarded actions show. */
  const FillInFirst := "Please fill in your information first"

  /** The notices of a download attempt that got past the guard. */
  const Downloaded := "CV downloaded successfully!"
  const DownloadFailed := "Failed to download CV"

  /** `Object.keys(personalInfo).length > 0`. */
  predicate HasPersonalInfo(d: LegacyData) {
    |d.personalInfo.Keys| > 0
  }

  /** `validateSection`: whether the step's own part of the record is filled in; false past the skills step. */
  function ValidateSection(step: int, d: LegacyData): (r: bool)
    ensures step == 0 ==> (r <==> HasPersonalInfo(d))
    ensures step == 1 ==> (r <==> |d.experience| > 0)
    ensures step == 2 ==> (r <==> |d.education| > 0)
    ensures step == 3 ==> (r <==> |d.skills| > 0)
    ensures !(0 <= step <= 3) ==> !r
  {
    match step
    case 0 => |d.personalInfo.Keys| > 0
    case 1 => |d.experience| > 0
    case 2 => |d.education| > 0
    case 3 => |d.skills| > 0
    case _ => false
  }

  /** The "CV is ready to generate!" banner's condition. */
  predicate IsReady(d: LegacyData) {
    |d.personalInfo.Keys| > 0 && |d.experience| > 0 && |d.education| > 0 && |d.skills| > 0
  }

  /** The banner shows exactly when every one of the four steps passes its check. */
  lemma ReadyIffEveryStep(d: LegacyData)
    ensures IsReady(d) <==> forall step :: 0 <= step <= 3 ==> ValidateSection(step, d)
  {
    if forall step :: 0 <= step <= 3 ==> ValidateSection(step, d) {
      assert ValidateSection(0, d) && ValidateSection(1, d) && ValidateSection(2, d) && ValidateSection(3, d);
    }
  }

  /** The initial record passes no step. */
  lemma EmptyPassesNoStep(step: int)
    ensures !ValidateSection(step, EmptyData)
  {
  }

  /** The download name: `${fullName || 'my'}_cv.pdf`. */
  function DownloadFileName(d: LegacyData): (r: string)
    ensures "fullName" in d.personalInfo && |d.personalInfo["fullName"]| > 0 ==> r == d.personalInfo["fullName"] + "_cv.pdf"
    ensures !("fullName" in d.personalInfo && |d.personalInfo["fullName"]| > 0) ==> r == "my_cv.pdf"
  {
    var name := if "fullName" in d.personalInfo && |d.personalInfo["fullName"]| > 0 then d.personalInfo["fullName"] else "my";
    name + "_cv.pdf"
  }

  /** Every download name ends in `_cv.pdf` and has a non-empty stem. */
  lemma FileNameShape(d: LegacyData)
    ensures |DownloadFileName(d)| > |"_cv.pdf"|
    ensures DownloadFileName(d)[|DownloadFileName(d)| - |"_cv.pdf"|..] == "_cv.pdf"
  {
  }

  /** The forward button's label: "Finish" on the skills step, "Next" elsewhere. */
  function ForwardLabel(step: int): (r: string)
    ensures r == "Finish" <==> step == 3
    ensures r != "Finish" ==> r == "Next"
  {
    if step == 3 then "Finish" else "Next"
  }

  class LegacyCVBuilder {
    var currentStep: int
    var showPreview: bool
    var cvData: LegacyData
    var canProceed: bool

    /** The step is never negative and the completeness effect has run on the current step and record. */
    predicate Valid()
      reads this
    {
      currentStep >= 0 && canProceed == ValidateSection(currentStep, cvData)
    }

    /** The initial state, after the effect has run once. */
    constructor()
      ensures Valid() && currentStep == 0 && !showPreview && cvData == EmptyData && !canProceed
    {
      currentStep := 0;
      showPreview := false;
      cvData := EmptyData;
      canProceed := ValidateSection(0, EmptyData);
    }

    /** "Previous": `Math.max(0, currentStep - 1)`, then the effect. */
    method Previous()
      requires Valid()
      modifies this
      ensures Valid()
      ensures old(currentStep) > 0 ==> currentStep == old(currentStep) - 1
      ensures old(currentStep) == 0 ==> currentStep == 0
      ensures cvData == old(cvData) && showPreview == old(showPreview)
    {
      currentStep := if currentStep - 1 < 0 then 0 else currentStep - 1;
      canProceed := ValidateSection(currentStep, cvData);
    }

    /** `handlePreview`: opens the preview only when some personal information exists. */
    method HandlePreview() returns (notice: Option<string>)
      requires Valid()
      modifies this
      ensures Valid()
      ensures HasPersonalInfo(cvData) ==> notice.None? && showPreview
      ensures !HasPersonalInfo(cvData) ==> notice == Some(FillInFirst) && showPreview == old(showPreview)
      ensures cvData == old(cvData) && currentStep == old(currentStep) && canProceed == old(canProceed)
    {
      if |cvData.personalInfo.Keys| == 0 {
        notice := Some(FillInFirst);
        return;
      }
      notice := None;
      showPreview := true;
    }

    /**
      * `handleDownload`: refuses without personal information. Otherwise it
      * generates the PDF; when that throws (`pdfFails`) the catch shows
      * `DownloadFailed` and nothing is downloaded, and when it succeeds the
      * file is named and `Downloaded` is shown. The state never changes.
      */
    method HandleDownload(pdfFails: bool) returns (notice: string, fileName: Option<string>)
      ensures !HasPersonalInfo(cvData) ==> notice == FillInFirst && fileName.None?
      ensures HasPersonalInfo(cvData) && pdfFails ==> notice == DownloadFailed && fileName.None?
      ensures HasPersonalInfo(cvData) && !pdfFails ==> notice == Downloaded && fileName == Some(DownloadFileName(cvData))
      ensures fileName.Some? <==> HasPersonalInfo(cvData) && !pdfFails
    {
      if |cvData.personalInfo.Keys| == 0 {
        notice := FillInFirst;
        fileName := None;
        return;
      }
      if pdfFails {
        notice := DownloadFailed;
        fileName := None;
        return;
      }
      notice := Downloaded;
      fileName := Some(DownloadFileName(cvData));
    }
  }
}
