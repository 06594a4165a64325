/**
  * The interactive builder component: the record being edited, the step the
  * form shows, the validation results the component keeps in step with the
  * record, and the preview, Markdown and download actions that validity gates.
  */
module Builder {
  import opened Wrappers
  import opened CvRecord
  import opened Validator

  /** The six form steps: personal information, experience, education, skills, certifications, languages. */
  const StepCount := 6

  /** The themes the theme selector offers; "blue" is the initial one. */
  const Themes := ["blue", "earth", "green"]

  /** The "Previous" button: `Math.max(0, activeStep - 1)`. */
  function PreviousStep(step: int): (r: int)
    ensures r >= 0
    ensures step > 0 ==> r == step - 1
    ensures step <= 0 ==> r == 0
  {
    if step - 1 < 0 then 0 else step - 1
  }

  /** The "Next" button: `Math.min(steps.length - 1, activeStep + 1)`. */
  function NextStep(step: int): (r: int)
    ensures r <= StepCount - 1
    ensures step < StepCount - 1 ==> r == step + 1
    ensures step >= StepCount - 1 ==> r == StepCount - 1
  {
    if step + 1 > StepCount - 1 then StepCount - 1 else step + 1
  }

  /** Both buttons keep the step among the six step ids. */
  lemma StepsStayInRange(step: int)
    requires 0 <= step < StepCount
    ensures 0 <= PreviousStep(step) < StepCount && 0 <= NextStep(step) < StepCount
  {
  }

  /** "Previous" undoes "Next" except on the last step, and "Next" undoes "Previous" except on the first. */
  lemma PreviousUndoesNext(step: int)
    requires 0 <= step < StepCount
    ensures step < StepCount - 1 ==> PreviousStep(NextStep(step)) == step
    ensures step > 0 ==> NextStep(PreviousStep(step)) == step
  {
  }

  /** The notice shown when an action is refused because the record is incomplete. */
  function Refusal(action: string): string {
    "Please complete all required fields before " + action + "."
  }

  class CVBuilder {
    var cvData: CVData
    var activeStep: int
    var isFormValid: bool
    var validationErrors: seq<Message>
    var isSaving: bool
    var showPreview: bool
    var showMarkdownPreview: bool
    var selectedTheme: string

    /**
      * The state after every render: the step is one of the six ids, the
      * theme is one the selector offers, and the validation effect has run on
      * the current record.
      */
    predicate Valid()
      reads this
    {
      0 <= activeStep < StepCount
      && selectedTheme in Themes
      && validationErrors == Errors(cvData)
      && (isFormValid <==> |validationErrors| == 0)
    }

    /** The initial state, after the validation effect has run once on the empty record. */
    constructor()
      ensures Valid()
      ensures cvData == EmptyCV && activeStep == 0 && selectedTheme == "blue"
      ensures !isFormValid && !isSaving && !showPreview && !showMarkdownPreview
    {
      cvData := EmptyCV;
      activeStep := 0;
      isSaving := false;
      showPreview := false;
      showMarkdownPreview := false;
      selectedTheme := "blue";
      var errors, valid := ValidateForm(EmptyCV);
      validationErrors := errors;
      isFormValid := valid;
      assert NameMissing(EmptyCV.personalInfo);
    }

    /** `validateForm` as the effect calls it: stores the error list and the verdict, and returns the verdict. */
    method Validate() returns (ok: bool)
      requires 0 <= activeStep < StepCount && selectedTheme in Themes
      modifies this
      ensures Valid()
      ensures ok == isFormValid && (ok <==> Complete(cvData))
      ensures cvData == old(cvData) && activeStep == old(activeStep) && isSaving == old(isSaving)
      ensures showPreview == old(showPreview) && showMarkdownPreview == old(showMarkdownPreview)
      ensures selectedTheme == old(selectedTheme)
    {
      var errors, valid := ValidateForm(cvData);
      validationErrors := errors;
      isFormValid := valid;
      ok := valid;
      ValidIffComplete(cvData);
    }

    /** `setCvData` followed by the validation effect `useEffect(validateForm, [cvData])`. */
    method SetCvData(next: CVData)
      requires Valid()
      modifies this
      ensures Valid() && cvData == next
      ensures isFormValid <==> Complete(next)
      ensures activeStep == old(activeStep) && isSaving == old(isSaving)
      ensures showPreview == old(showPreview) && showMarkdownPreview == old(showMarkdownPreview)
      ensures selectedTheme == old(selectedTheme)
    {
      cvData := next;
      var _ := Validate();
    }

    /** `addExperience` and its siblings: one blank entry at the end of the chosen list. */
    method AddEntry(s: Section)
      requires Valid()
      modifies this
      ensures Valid()
      ensures cvData == match s
        case Experiences => AddExperience(old(cvData))
        case Educations => AddEducation(old(cvData))
        case Skills => AddSkill(old(cvData))
        case Certifications => AddCertification(old(cvData))
        case Languages => AddLanguage(old(cvData))
      ensures SectionLength(cvData, s) == SectionLength(old(cvData), s) + 1
      ensures OthersUnchanged(old(cvData), cvData, s)
      ensures activeStep == old(activeStep)
      ensures showPreview == old(showPreview) && showMarkdownPreview == old(showMarkdownPreview)
      ensures selectedTheme == old(selectedTheme) && isSaving == old(isSaving)
    {
      var next := match s
        case Experiences => AddExperience(cvData)
        case Educations => AddEducation(cvData)
        case Skills => AddSkill(cvData)
        case Certifications => AddCertification(cvData)
        case Languages => AddLanguage(cvData);
      SetCvData(next);
    }

    /** `removeItem(section, index)`. */
    method RemoveEntry(s: Section, index: int)
      requires Valid()
      modifies this
      ensures Valid() && cvData == RemoveItem(old(cvData), s, index)
      ensures OthersUnchanged(old(cvData), cvData, s)
      ensures activeStep == old(activeStep)
      ensures showPreview == old(showPreview) && showMarkdownPreview == old(showMarkdownPreview)
      ensures selectedTheme == old(selectedTheme) && isSaving == old(isSaving)
    {
      SetCvData(RemoveItem(cvData, s, index));
    }

    /** `updateExperience(index, field, value)`. */
    method EditExperience(index: int, f: ExperienceField, v: string)
      requires Valid()
      modifies this
      ensures Valid() && cvData == UpdateExperience(old(cvData), index, f, v)
      ensures activeStep == old(activeStep)
      ensures showPreview == old(showPreview) && showMarkdownPreview == old(showMarkdownPreview)
      ensures selectedTheme == old(selectedTheme) && isSaving == old(isSaving)
    {
      SetCvData(UpdateExperience(cvData, index, f, v));
    }

    /** `updateEducation(index, field, value)`. */
    method EditEducation(index: int, f: EducationField, v: string)
      requires Valid()
      modifies this
      ensures Valid() && cvData == UpdateEducation(old(cvData), index, f, v)
      ensures activeStep == old(activeStep)
      ensures showPreview == old(showPreview) && showMarkdownPreview == old(showMarkdownPreview)
      ensures selectedTheme == old(selectedTheme) && isSaving == old(isSaving)
    {
      SetCvData(UpdateEducation(cvData, index, f, v));
    }

    /** `updateSkill(index, field, value)`. */
    method EditSkill(index: int, f: SkillField, v: string)
      requires Valid()
      modifies this
      ensures Valid() && cvData == UpdateSkill(old(cvData), index, f, v)
      ensures activeStep == old(activeStep)
      ensures showPreview == old(showPreview) && showMarkdownPreview == old(showMarkdownPreview)
      ensures selectedTheme == old(selectedTheme) && isSaving == old(isSaving)
    {
      SetCvData(UpdateSkill(cvData, index, f, v));
    }

    /** `updateCertification(index, field, value)`. */
    method EditCertification(index: int, f: CertificationField, v: string)
      requires Valid()
      modifies this
      ensures Valid() && cvData == UpdateCertification(old(cvData), index, f, v)
      ensures activeStep == old(activeStep)
      ensures showPreview == old(showPreview) && showMarkdownPreview == old(showMarkdownPreview)
      ensures selectedTheme == old(selectedTheme) && isSaving == old(isSaving)
    {
      SetCvData(UpdateCertification(cvData, index, f, v));
    }

    /** `updateLanguage(index, field, value)`. */
    method EditLanguage(index: int, f: LanguageField, v: string)
      requires Valid()
      modifies this
      ensures Valid() && cvData == UpdateLanguage(old(cvData), index, f, v)
      ensures activeStep == old(activeStep)
      ensures showPreview == old(showPreview) && showMarkdownPreview == old(showMarkdownPreview)
      ensures selectedTheme == old(selectedTheme) && isSaving == old(isSaving)
    {
      SetCvData(UpdateLanguage(cvData, index, f, v));
    }

    /** `updatePersonal(field, value)`, synchronous part. */
    method EditPersonal(field: string, value: InputValue)
      requires Valid() && (value.File? ==> field == "photo")
      modifies this
      ensures Valid() && cvData == UpdatePersonal(old(cvData), field, value)
      ensures activeStep == old(activeStep)
      ensures showPreview == old(showPreview) && showMarkdownPreview == old(showMarkdownPreview)
      ensures selectedTheme == old(selectedTheme) && isSaving == old(isSaving)
    {
      SetCvData(UpdatePersonal(cvData, field, value));
    }

    /** The "Previous" button. */
    method Previous()
      requires Valid()
      modifies this
      ensures Valid() && activeStep == PreviousStep(old(activeStep))
      ensures old(activeStep) > 0 ==> activeStep == old(activeStep) - 1
      ensures old(activeStep) == 0 ==> activeStep == 0
      ensures cvData == old(cvData) && isFormValid == old(isFormValid)
      ensures showPreview == old(showPreview) && showMarkdownPreview == old(showMarkdownPreview)
      ensures selectedTheme == old(selectedTheme) && isSaving == old(isSaving)
    {
      activeStep := PreviousStep(activeStep);
    }

    /** The "Next" button. */
    method Next()
      requires Valid()
      modifies this
      ensures Valid() && activeStep == NextStep(old(activeStep))
      ensures old(activeStep) < StepCount - 1 ==> activeStep == old(activeStep) + 1
      ensures old(activeStep) == StepCount - 1 ==> activeStep == StepCount - 1
      ensures cvData == old(cvData) && isFormValid == old(isFormValid)
      ensures showPreview == old(showPreview) && showMarkdownPreview == old(showMarkdownPreview)
      ensures selectedTheme == old(selectedTheme) && isSaving == old(isSaving)
    {
      activeStep := NextStep(activeStep);
    }

    /** A click on the tab of step `id`; the tabs carry the ids 0 to 5. */
    method SelectStep(id: int)
      requires Valid() && 0 <= id < StepCount
      modifies this
      ensures Valid() && activeStep == id
      ensures cvData == old(cvData) && isFormValid == old(isFormValid)
      ensures showPreview == old(showPreview) && showMarkdownPreview == old(showMarkdownPreview)
      ensures selectedTheme == old(selectedTheme) && isSaving == old(isSaving)
    {
      activeStep := id;
    }

    /** The theme selector; its options carry the values in `Themes`. */
    method SelectTheme(theme: string)
      requires Valid() && theme in Themes
      modifies this
      ensures Valid() && selectedTheme == theme
      ensures cvData == old(cvData) && activeStep == old(activeStep)
      ensures showPreview == old(showPreview) && showMarkdownPreview == old(showMarkdownPreview)
      ensures isSaving == old(isSaving)
    {
      selectedTheme := theme;
    }

    /** `handlePreview`: opens the preview only for a complete record, otherwise shows the refusal. */
    method HandlePreview() returns (notice: Option<string>)
      requires Valid()
      modifies this
      ensures Valid()
      ensures isFormValid ==> notice.None? && showPreview
      ensures !isFormValid ==> notice == Some(Refusal("previewing")) && showPreview == old(showPreview)
      ensures showPreview && !old(showPreview) ==> Complete(cvData)
      ensures cvData == old(cvData) && activeStep == old(activeStep) && showMarkdownPreview == old(showMarkdownPreview)
      ensures selectedTheme == old(selectedTheme) && isSaving == old(isSaving)
    {
      ValidIffComplete(cvData);
      if !isFormValid {
        notice := Some(Refusal("previewing"));
        return;
      }
      notice := None;
      showPreview := true;
    }

    /** The "View Markdown" button: opens the Markdown view only for a complete record. */
    method ViewMarkdown() returns (notice: Option<string>)
      requires Valid()
      modifies this
      ensures Valid()
      ensures isFormValid ==> notice.None? && showMarkdownPreview
      ensures !isFormValid ==> notice == Some(Refusal("generating Markdown")) && showMarkdownPreview == old(showMarkdownPreview)
      ensures showMarkdownPreview && !old(showMarkdownPreview) ==> Complete(cvData)
      ensures cvData == old(cvData) && activeStep == old(activeStep) && showPreview == old(showPreview)
      ensures selectedTheme == old(selectedTheme) && isSaving == old(isSaving)
    {
      ValidIffComplete(cvData);
      if !isFormValid {
        notice := Some(Refusal("generating Markdown"));
        return;
      }
      notice := None;
      showMarkdownPreview := true;
    }

    /**
      * The "Save & Download CV" button: for a complete record it opens the
      * preview and schedules the download; otherwise it shows the refusal.
      */
    method SaveAndDownload() returns (notice: Option<string>, downloadScheduled: bool)
      requires Valid()
      modifies this
      ensures Valid()
      ensures downloadScheduled <==> isFormValid
      ensures downloadScheduled ==> Complete(cvData) && notice.None? && showPreview
      ensures !downloadScheduled ==> notice == Some(Refusal("downloading")) && showPreview == old(showPreview)
      ensures cvData == old(cvData) && activeStep == old(activeStep) && isSaving == old(isSaving)
      ensures selectedTheme == old(selectedTheme) && showMarkdownPreview == old(showMarkdownPreview)
    {
      ValidIffComplete(cvData);
      if !isFormValid {
        notice := Some(Refusal("downloading"));
        downloadScheduled := false;
        return;
      }
      notice := None;
      showPreview := true;
      downloadScheduled := true;
    }

    /** Closing the preview modal. */
    method ClosePreview()
      requires Valid()
      modifies this
      ensures Valid() && !showPreview
      ensures cvData == old(cvData) && activeStep == old(activeStep)
      ensures showMarkdownPreview == old(showMarkdownPreview) && selectedTheme == old(selectedTheme) && isSaving == old(isSaving)
    {
      showPreview := false;
    }

    /** Closing the Markdown modal. */
    method CloseMarkdown()
      requires Valid()
      modifies this
      ensures Valid() && !showMarkdownPreview
      ensures cvData == old(cvData) && activeStep == old(activeStep)
      ensures showPreview == old(showPreview) && selectedTheme == old(selectedTheme) && isSaving == old(isSaving)
    {
      showMarkdownPreview := false;
    }
  }
}
