/**
  * The CV record of the builder and the updaters its editors hand to
  * `setCvData`: each one maps the previous record to the next one.
  */
module CvRecord {
  import opened Wrappers
  import opened Text
  import Seqs

  datatype SocialMedia = SocialMedia(linkedin: string, github: string, website: string)

  datatype PersonalInfo = PersonalInfo(
    fullName: string,
    email: string,
    phone: string,
    address: string,
    summary: string,
    photo: string,            // an encoded image, filled in by the asynchronous photo reader
    socialMedia: SocialMedia,
    additionalInfo: string)

  datatype Experience = Experience(
    title: string, company: string, location: string,
    startDate: string, endDate: string, description: string)

  datatype Education = Education(
    degree: string, school: string, location: string, graduationDate: string, gpa: string)

  datatype Skill = Skill(name: string, level: string)

  datatype Certification = Certification(name: string, issuingOrganization: string, date: string)

  datatype Language = Language(name: string, proficiency: string)

  datatype CVData = CVData(
    personalInfo: PersonalInfo,
    experience: seq<Experience>,
    education: seq<Education>,
    skills: seq<Skill>,
    certifications: seq<Certification>,
    languages: seq<Language>)

  /** The five list-valued sections `removeItem` accepts. */
  datatype Section = Experiences | Educations | Skills | Certifications | Languages

  /** The record the builder starts from: every text empty, every list empty. */
  const EmptyCV := CVData(
    PersonalInfo("", "", "", "", "", "", SocialMedia("", "", ""), ""),
    [], [], [], [], [])

  /** The proficiency a new skill or language starts at. */
  const DefaultLevel := "Intermediate"

  function SectionLength(d: CVData, s: Section): nat {
    match s
    case Experiences => |d.experience|
    case Educations => |d.education|
    case Skills => |d.skills|
    case Certifications => |d.certifications|
    case Languages => |d.languages|
  }

  /** `d` and `e` agree on the personal block and on every list except section `s`. */
  predicate OthersUnchanged(d: CVData, e: CVData, s: Section) {
    && e.personalInfo == d.personalInfo
    && (s != Experiences ==> e.experience == d.experience)
    && (s != Educations ==> e.education == d.education)
    && (s != Skills ==> e.skills == d.skills)
    && (s != Certifications ==> e.certifications == d.certifications)
    && (s != Languages ==> e.languages == d.languages)
  }

  // ---------------------------------------------------------------------------
  // Fields of the list entries, as named by the editors' inputs
  // ---------------------------------------------------------------------------

  datatype ExperienceField = Title | Company | ExperienceLocation | StartDate | EndDate | Description
  datatype EducationField = Degree | School | EducationLocation | GraduationDate | Gpa
  datatype SkillField = SkillName | SkillLevel
  datatype CertificationField = CertificationName | IssuingOrganization | IssueDate
  datatype LanguageField = LanguageName | Proficiency

  function GetExperienceField(e: Experience, f: ExperienceField): string {
    match f
    case Title => e.title
    case Company => e.company
    case ExperienceLocation => e.location
    case StartDate => e.startDate
    case EndDate => e.endDate
    case Description => e.description
  }

  /** `{ ...exp, [field]: value }`: field `f` becomes `v`, every other field keeps its value. */
  function SetExperienceField(e: Experience, f: ExperienceField, v: string): (r: Experience)
    ensures forall g :: GetExperienceField(r, g) == if g == f then v else GetExperienceField(e, g)
  {
    match f
    case Title => e.(title := v)
    case Company => e.(company := v)
    case ExperienceLocation => e.(location := v)
    case StartDate => e.(startDate := v)
    case EndDate => e.(endDate := v)
    case Description => e.(description := v)
  }

  function GetEducationField(e: Education, f: EducationField): string {
    match f
    case Degree => e.degree
    case School => e.school
    case EducationLocation => e.location
    case GraduationDate => e.graduationDate
    case Gpa => e.gpa
  }

  /** `{ ...edu, [field]: value }`. */
  function SetEducationField(e: Education, f: EducationField, v: string): (r: Education)
    ensures forall g :: GetEducationField(r, g) == if g == f then v else GetEducationField(e, g)
  {
    match f
    case Degree => e.(degree := v)
    case School => e.(school := v)
    case EducationLocation => e.(location := v)
    case GraduationDate => e.(graduationDate := v)
    case Gpa => e.(gpa := v)
  }

  function GetSkillField(s: Skill, f: SkillField): string {
    match f
    case SkillName => s.name
    case SkillLevel => s.level
  }

  /** `{ ...skill, [field]: value }`. */
  function SetSkillField(s: Skill, f: SkillField, v: string): (r: Skill)
    ensures forall g :: GetSkillField(r, g) == if g == f then v else GetSkillField(s, g)
  {
    match f
    case SkillName => s.(name := v)
    case SkillLevel => s.(level := v)
  }

  function GetCertificationField(c: Certification, f: CertificationField): string {
    match f
    case CertificationName => c.name
    case IssuingOrganization => c.issuingOrganization
    case IssueDate => c.date
  }

  /** `{ ...cert, [field]: value }`. */
  function SetCertificationField(c: Certification, f: CertificationField, v: string): (r: Certification)
    ensures forall g :: GetCertificationField(r, g) == if g == f then v else GetCertificationField(c, g)
  {
    match f
    case CertificationName => c.(name := v)
    case IssuingOrganization => c.(issuingOrganization := v)
    case IssueDate => c.(date := v)
  }

  function GetLanguageField(l: Language, f: LanguageField): string {
    match f
    case LanguageName => l.name
    case Proficiency => l.proficiency
  }

  /** `{ ...lang, [field]: value }`. */
  function SetLanguageField(l: Language, f: LanguageField, v: string): (r: Language)
    ensures forall g :: GetLanguageField(r, g) == if g == f then v else GetLanguageField(l, g)
  {
    match f
    case LanguageName => l.(name := v)
    case Proficiency => l.(proficiency := v)
  }

  // ---------------------------------------------------------------------------
  // add*: append one entry with its default values
  // ---------------------------------------------------------------------------

  const BlankExperience := Experience("", "", "", "", "", "")
  const BlankEducation := Education("", "", "", "", "")
  const BlankSkill := Skill("", DefaultLevel)
  const BlankCertification := Certification("", "", "")
  const BlankLanguage := Language("", DefaultLevel)

  function AddExperience(d: CVData): (r: CVData)
    ensures OthersUnchanged(d, r, Experiences)
    ensures |r.experience| == |d.experience| + 1 && r.experience[..|d.experience|] == d.experience
    ensures forall f :: GetExperienceField(r.experience[|d.experience|], f) == ""
  {
    d.(experience := d.experience + [BlankExperience])
  }

  function AddEducation(d: CVData): (r: CVData)
    ensures OthersUnchanged(d, r, Educations)
    ensures |r.education| == |d.education| + 1 && r.education[..|d.education|] == d.education
    ensures forall f :: GetEducationField(r.education[|d.education|], f) == ""
  {
    d.(education := d.education + [BlankEducation])
  }

  function AddSkill(d: CVData): (r: CVData)
    ensures OthersUnchanged(d, r, Skills)
    ensures |r.skills| == |d.skills| + 1 && r.skills[..|d.skills|] == d.skills
    ensures r.skills[|d.skills|].name == "" && r.skills[|d.skills|].level == "Intermediate"
  {
    d.(skills := d.skills + [BlankSkill])
  }

  function AddCertification(d: CVData): (r: CVData)
    ensures OthersUnchanged(d, r, Certifications)
    ensures |r.certifications| == |d.certifications| + 1 && r.certifications[..|d.certifications|] == d.certifications
    ensures forall f :: GetCertificationField(r.certifications[|d.certifications|], f) == ""
  {
    d.(certifications := d.certifications + [BlankCertification])
  }

  function AddLanguage(d: CVData): (r: CVData)
    ensures OthersUnchanged(d, r, Languages)
    ensures |r.languages| == |d.languages| + 1 && r.languages[..|d.languages|] == d.languages
    ensures r.languages[|d.languages|].name == "" && r.languages[|d.languages|].proficiency == "Intermediate"
  {
    d.(languages := d.languages + [BlankLanguage])
  }

  // ---------------------------------------------------------------------------
  // removeItem: drop one entry of one section by index
  // ---------------------------------------------------------------------------

  /** `removeItem(section, index)`; the entry-level effect is the contract of `Seqs.RemoveAt`. */
  function RemoveItem(d: CVData, s: Section, index: int): (r: CVData)
    ensures OthersUnchanged(d, r, s)
    ensures SectionLength(r, s) == if 0 <= index < SectionLength(d, s) then SectionLength(d, s) - 1 else SectionLength(d, s)
    ensures !(0 <= index < SectionLength(d, s)) ==> r == d
  {
    match s
    case Experiences => d.(experience := Seqs.RemoveAt(d.experience, index))
    case Educations => d.(education := Seqs.RemoveAt(d.education, index))
    case Skills => d.(skills := Seqs.RemoveAt(d.skills, index))
    case Certifications => d.(certifications := Seqs.RemoveAt(d.certifications, index))
    case Languages => d.(languages := Seqs.RemoveAt(d.languages, index))
  }

  /** Removing an experience at a valid index keeps the earlier entries and shifts the later ones down by one. */
  lemma RemoveExperienceShifts(d: CVData, index: int)
    requires 0 <= index < |d.experience|
    ensures var r := RemoveItem(d, Experiences, index).experience;
      && |r| == |d.experience| - 1
      && r == d.experience[..index] + d.experience[index + 1..]
  {
    var r := RemoveItem(d, Experiences, index).experience;
    assert r == Seqs.RemoveAt(d.experience, index);
    assert r == d.experience[..index] + d.experience[index + 1..] by {
      forall j | 0 <= j < |r| ensures r[j] == (d.experience[..index] + d.experience[index + 1..])[j] {
        if j < index {
        } else {
          assert (d.experience[..index] + d.experience[index + 1..])[j] == d.experience[j + 1];
        }
      }
    }
  }

  // ---------------------------------------------------------------------------
  // update*: rewrite one field of the entry at an index
  // ---------------------------------------------------------------------------

  function UpdateExperience(d: CVData, index: int, f: ExperienceField, v: string): (r: CVData)
    ensures OthersUnchanged(d, r, Experiences)
    ensures |r.experience| == |d.experience|
    ensures forall j, g :: 0 <= j < |d.experience| ==>
      GetExperienceField(r.experience[j], g) == if j == index && g == f then v else GetExperienceField(d.experience[j], g)
  {
    d.(experience := Seqs.UpdateAt(d.experience, index, e => SetExperienceField(e, f, v)))
  }

  function UpdateEducation(d: CVData, index: int, f: EducationField, v: string): (r: CVData)
    ensures OthersUnchanged(d, r, Educations)
    ensures |r.education| == |d.education|
    ensures forall j, g :: 0 <= j < |d.education| ==>
      GetEducationField(r.education[j], g) == if j == index && g == f then v else GetEducationField(d.education[j], g)
  {
    d.(education := Seqs.UpdateAt(d.education, index, e => SetEducationField(e, f, v)))
  }

  function UpdateSkill(d: CVData, index: int, f: SkillField, v: string): (r: CVData)
    ensures OthersUnchanged(d, r, Skills)
    ensures |r.skills| == |d.skills|
    ensures forall j, g :: 0 <= j < |d.skills| ==>
      GetSkillField(r.skills[j], g) == if j == index && g == f then v else GetSkillField(d.skills[j], g)
  {
    d.(skills := Seqs.UpdateAt(d.skills, index, s => SetSkillField(s, f, v)))
  }

  function UpdateCertification(d: CVData, index: int, f: CertificationField, v: string): (r: CVData)
    ensures OthersUnchanged(d, r, Certifications)
    ensures |r.certifications| == |d.certifications|
    ensures forall j, g :: 0 <= j < |d.certifications| ==>
      GetCertificationField(r.certifications[j], g) == if j == index && g == f then v else GetCertificationField(d.certifications[j], g)
  {
    d.(certifications := Seqs.UpdateAt(d.certifications, index, c => SetCertificationField(c, f, v)))
  }

  function UpdateLanguage(d: CVData, index: int, f: LanguageField, v: string): (r: CVData)
    ensures OthersUnchanged(d, r, Languages)
    ensures |r.languages| == |d.languages|
    ensures forall j, g :: 0 <= j < |d.languages| ==>
      GetLanguageField(r.languages[j], g) == if j == index && g == f then v else GetLanguageField(d.languages[j], g)
  {
    d.(languages := Seqs.UpdateAt(d.languages, index, l => SetLanguageField(l, f, v)))
  }

  /** An update at an index that is not in the list leaves the record as it was. */
  lemma UpdateOutOfRangeIsNoOp(d: CVData, index: int, f: ExperienceField, v: string)
    requires !(0 <= index < |d.experience|)
    ensures UpdateExperience(d, index, f, v) == d
  {
  }

  // ---------------------------------------------------------------------------
  // updatePersonal: route a field name to the personal block or its social links
  // ---------------------------------------------------------------------------

  datatype PersonalField =
    | FullName | Email | Phone | Address | Summary | Photo | AdditionalInfo
    | LinkedIn | GitHub | Website

  /** What an input hands to `updatePersonal`: typed text, or the file chosen for the photo. */
  datatype InputValue = Text(text: string) | File

  function GetPersonal(p: PersonalInfo, f: PersonalField): string {
    match f
    case FullName => p.fullName
    case Email => p.email
    case Phone => p.phone
    case Address => p.address
    case Summary => p.summary
    case Photo => p.photo
    case AdditionalInfo => p.additionalInfo
    case LinkedIn => p.socialMedia.linkedin
    case GitHub => p.socialMedia.github
    case Website => p.socialMedia.website
  }

  /** Field `f` of the personal block becomes `v`; nothing else changes. */
  function SetPersonal(p: PersonalInfo, f: PersonalField, v: string): (r: PersonalInfo)
    ensures forall g :: GetPersonal(r, g) == if g == f then v else GetPersonal(p, g)
  {
    match f
    case FullName => p.(fullName := v)
    case Email => p.(email := v)
    case Phone => p.(phone := v)
    case Address => p.(address := v)
    case Summary => p.(summary := v)
    case Photo => p.(photo := v)
    case AdditionalInfo => p.(additionalInfo := v)
    case LinkedIn => p.(socialMedia := p.socialMedia.(linkedin := v))
    case GitHub => p.(socialMedia := p.socialMedia.(github := v))
    case Website => p.(socialMedia := p.socialMedia.(website := v))
  }

  const SocialPrefix := "socialMedia."

  /** `field.split('.')[1]`: the text after the first dot, up to the next one. */
  function SocialKey(field: string): string {
    var parts := Split(field, '.');
    if |parts| > 1 then parts[1] else ""
  }

  /** The social link a key after `socialMedia.` names, if any. */
  function SocialField(key: string): Option<PersonalField> {
    if key == "linkedin" then Some(LinkedIn)
    else if key == "github" then Some(GitHub)
    else if key == "website" then Some(Website)
    else None
  }

  /** The field of the personal block a plain key names, if any. */
  function PlainField(key: string): Option<PersonalField> {
    if key == "fullName" then Some(FullName)
    else if key == "email" then Some(Email)
    else if key == "phone" then Some(Phone)
    else if key == "address" then Some(Address)
    else if key == "summary" then Some(Summary)
    else if key == "photo" then Some(Photo)
    else if key == "additionalInfo" then Some(AdditionalInfo)
    else None
  }

  /** The typed field a field name of `updatePersonal` reaches, if it names one. */
  function RouteKey(field: string): (r: Option<PersonalField>)
    ensures r.Some? && r.value in {LinkedIn, GitHub, Website} ==> StartsWith(field, SocialPrefix)
    ensures r.Some? && r.value !in {LinkedIn, GitHub, Website} ==> !StartsWith(field, SocialPrefix)
  {
    if StartsWith(field, SocialPrefix) then SocialField(SocialKey(field)) else PlainField(field)
  }

  /** `socialMedia.<name>` reaches the social link `name` when `name` has no dot of its own. */
  lemma {:induction false} SocialKeyOf(name: string)
    requires '.' !in name
    ensures StartsWith(SocialPrefix + name, SocialPrefix)
    ensures SocialKey(SocialPrefix + name) == name
  {
    assert SocialPrefix + name == "socialMedia" + ['.'] + name;
    SplitAtFirstSeparator("socialMedia", name, '.');
    SplitNoSeparator(name, '.');
    assert (SocialPrefix + name)[..|SocialPrefix|] == SocialPrefix;
  }

  /** `socialMedia.<name>` is routed to the social link `name`, when `name` has no dot of its own. */
  lemma SocialKeysRoute(name: string)
    requires '.' !in name
    ensures RouteKey(SocialPrefix + name) == SocialField(name)
  {
    SocialKeyOf(name);
  }

  /**
    * `updatePersonal(field, value)`. A file for the photo is read
    * asynchronously, so the synchronous update returns the record unchanged;
    * otherwise the routed field takes the text. A name that reaches no typed
    * field leaves the record unchanged.
    */
  function UpdatePersonal(d: CVData, field: string, value: InputValue): (r: CVData)
    requires value.File? ==> field == "photo"
    ensures value.File? ==> r == d
    ensures r == d.(personalInfo := r.personalInfo)
    ensures value.Text? ==> forall g ::
      GetPersonal(r.personalInfo, g) == if RouteKey(field) == Some(g) then value.text else GetPersonal(d.personalInfo, g)
  {
    if field == "photo" && value.File? then d
    else match RouteKey(field)
      case Some(f) => d.(personalInfo := SetPersonal(d.personalInfo, f, value.text))
      case None => d
  }
}
