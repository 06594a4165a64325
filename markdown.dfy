/**
  * `generateMarkdownCV` of the builder: the record rendered as a Markdown
  * document, section by section. Every section only ever appends to the text
  * built so far, and a section whose source is empty appends nothing.
  *
  * The specification below follows the generator's own order of appends, one
  * function per section, each taking the document so far.
  */
module Markdown {
  import opened Text
  import opened CvRecord

  // ---------------------------------------------------------------------------
  // Lines and blocks
  // ---------------------------------------------------------------------------

  /** The first line of the document: the name as a level-one heading. */
  function TitleLine(p: PersonalInfo): string {
    "# " + p.fullName + "\n\n"
  }

  /** The title and the three contact lines that are always present. */
  function Contact(p: PersonalInfo): (r: string)
    ensures StartsWith(r, TitleLine(p))
  {
    var r := TitleLine(p) + "**Contact Information:**\n" + ("- Email: " + p.email + "\n")
      + ("- Phone: " + p.phone + "\n") + ("- Address: " + p.address + "\n");
    assert r[..|TitleLine(p)|] == TitleLine(p);
    r
  }

  /** `if (cond) markdown += line`. */
  function AppendIf(m: string, cond: bool, line: string): (r: string)
    ensures StartsWith(r, m)
    ensures !cond ==> r == m
  {
    if cond then
      assert (m + line)[..|m|] == m;
      m + line
    else m
  }

  /** One line per social profile that is filled in, in the order LinkedIn, GitHub, website. */
  function WithSocial(m: string, s: SocialMedia): (r: string)
    ensures StartsWith(r, m)
    ensures r == m <==> |s.linkedin| == 0 && |s.github| == 0 && |s.website| == 0
  {
    var m1 := AppendIf(m, |s.linkedin| > 0, "- LinkedIn: " + s.linkedin + "\n");
    var m2 := AppendIf(m1, |s.github| > 0, "- GitHub: " + s.github + "\n");
    var r := AppendIf(m2, |s.website| > 0, "- Website: " + s.website + "\n");
    StartsWithTrans(r, m2, m1);
    StartsWithTrans(r, m1, m);
    r
  }

  /** The summary section, when there is a summary. */
  function WithSummary(m: string, summary: string): (r: string)
    ensures StartsWith(r, m)
    ensures |summary| == 0 ==> r == m
    ensures |summary| > 0 ==> r == m + ("## Professional Summary\n" + (summary + "\n\n"))
  {
    if |summary| > 0 then
      var r := m + "## Professional Summary\n" + (summary + "\n\n");
      assert r[..|m|] == m;
      r
    else m
  }

  /** `### title at company`, then `location | start - end`, then the description and a blank line. */
  function ExperienceBlock(e: Experience): string {
    "### " + e.title + " at " + e.company + "\n"
      + (e.location + " | " + e.startDate + " - " + e.endDate + "\n")
      + (e.description + "\n\n")
  }

  /** `### degree from school`, then `location | Graduated: date`, the GPA line only when there is a GPA, and a blank line. */
  function EducationBlock(e: Education): string {
    "### " + e.degree + " from " + e.school + "\n"
      + (e.location + " | Graduated: " + e.graduationDate + "\n")
      + (if |e.gpa| > 0 then "GPA: " + e.gpa + "\n" else "")
      + "\n"
  }

  /** `### name`, then `issuer | Issued: date` and a blank line. */
  function CertificationBlock(c: Certification): string {
    "### " + c.name + "\n" + (c.issuingOrganization + " | Issued: " + c.date + "\n\n")
  }

  /** `### name`, then `Proficiency: level` and a blank line. */
  function LanguageBlock(l: Language): string {
    "### " + l.name + "\n" + ("Proficiency: " + l.proficiency + "\n\n")
  }

  /** `forEach(item => markdown += ...)`: the block of every item, in order, after `m`. */
  function AppendBlocks<T>(m: string, items: seq<T>, block: T -> string): (r: string)
    ensures StartsWith(r, m)
  {
    if items == [] then m
    else
      var prev := AppendBlocks(m, items[..|items| - 1], block);
      StartsWithAppend(prev, m, block(items[|items| - 1]));
      prev + block(items[|items| - 1])
  }

  /** A section made of one block per entry, under its heading; nothing at all for an empty list. */
  function WithList<T>(m: string, heading: string, items: seq<T>, block: T -> string): (r: string)
    ensures StartsWith(r, m)
    ensures |items| == 0 ==> r == m
    ensures |items| > 0 ==> StartsWith(r, m + heading)
  {
    if |items| > 0 then
      var begun := m + heading;
      assert begun[..|m|] == m;
      StartsWithTrans(AppendBlocks(begun, items, block), begun, m);
      AppendBlocks(begun, items, block)
    else m
  }

  /** `name (level)`. */
  function SkillLabel(s: Skill): string {
    s.name + " (" + s.level + ")"
  }

  /** The label of every skill, in order. */
  function SkillLabels(skills: seq<Skill>): (r: seq<string>)
    ensures |r| == |skills|
    ensures forall i :: 0 <= i < |skills| ==> r[i] == SkillLabel(skills[i])
  {
    seq(|skills|, i requires 0 <= i < |skills| => SkillLabel(skills[i]))
  }

  /** The skills section: every label on one line, separated by commas. */
  function WithSkills(m: string, skills: seq<Skill>): (r: string)
    ensures StartsWith(r, m)
    ensures |skills| == 0 ==> r == m
    ensures |skills| > 0 ==> r == m + "## Skills\n" + (Join(SkillLabels(skills), ", ") + "\n\n")
  {
    if |skills| > 0 then
      var r := m + "## Skills\n" + (Join(SkillLabels(skills), ", ") + "\n\n");
      assert r[..|m|] == m;
      r
    else m
  }

  /** The closing section, when there is additional information. */
  function WithAdditional(m: string, info: string): (r: string)
    ensures StartsWith(r, m)
    ensures |info| == 0 ==> r == m
    ensures |info| > 0 ==> r == m + "## Additional Information\n" + (info + "\n\n")
  {
    if |info| > 0 then
      var r := m + "## Additional Information\n" + (info + "\n\n");
      assert r[..|m|] == m;
      r
    else m
  }

  // ---------------------------------------------------------------------------
  // The document
  // ---------------------------------------------------------------------------

  /** The contact block, closed by a blank line. */
  function HeaderOf(p: PersonalInfo): (r: string)
    ensures StartsWith(r, TitleLine(p))
  {
    var r := WithSocial(Contact(p), p.socialMedia) + "\n";
    StartsWithAppend(WithSocial(Contact(p), p.socialMedia), Contact(p), "\n");
    StartsWithTrans(r, Contact(p), TitleLine(p));
    r
  }

  /** The number of sections the generator writes, the contact block included. */
  const Sections := 8

  /** The document as it stands once the first `stage` sections are written, in the generator's order. */
  function Document(d: CVData, stage: nat): string
    requires 1 <= stage <= Sections
  {
    var p := d.personalInfo;
    if stage == 1 then HeaderOf(p)
    else if stage == 2 then WithSummary(Document(d, 1), p.summary)
    else if stage == 3 then WithList(Document(d, 2), "## Work Experience\n", d.experience, ExperienceBlock)
    else if stage == 4 then WithList(Document(d, 3), "## Education\n", d.education, EducationBlock)
    else if stage == 5 then WithSkills(Document(d, 4), d.skills)
    else if stage == 6 then WithList(Document(d, 5), "## Certifications\n", d.certifications, CertificationBlock)
    else if stage == 7 then WithList(Document(d, 6), "## Languages\n", d.languages, LanguageBlock)
    else WithAdditional(Document(d, 7), p.additionalInfo)
  }

  /** The document `generateMarkdownCV` returns for `d`. */
  function MarkdownCV(d: CVData): string {
    Document(d, Sections)
  }

  /** `generateMarkdownCV`: the component appends the blocks below in this order. */
  method GenerateMarkdownCV(d: CVData) returns (markdown: string)
    ensures markdown == MarkdownCV(d)
  {
    var p := d.personalInfo;
    markdown := WriteContact(p);
    assert markdown == Document(d, 1);
    markdown := WriteSummary(markdown, p.summary);
    assert markdown == Document(d, 2);
    markdown := WriteExperience(markdown, d.experience);
    assert markdown == Document(d, 3);
    markdown := WriteEducation(markdown, d.education);
    assert markdown == Document(d, 4);
    markdown := WriteSkills(markdown, d.skills);
    assert markdown == Document(d, 5);
    markdown := WriteCertifications(markdown, d.certifications);
    assert markdown == Document(d, 6);
    markdown := WriteLanguages(markdown, d.languages);
    assert markdown == Document(d, 7);
    markdown := WriteAdditional(markdown, p.additionalInfo);
  }

  /** The title, the contact lines, one line per filled-in social profile and a blank line. */
  method WriteContact(p: PersonalInfo) returns (markdown: string)
    ensures markdown == HeaderOf(p)
  {
    markdown := "# " + p.fullName + "\n\n";
    markdown := markdown + "**Contact Information:**\n";
    markdown := markdown + ("- Email: " + p.email + "\n");
    markdown := markdown + ("- Phone: " + p.phone + "\n");
    markdown := markdown + ("- Address: " + p.address + "\n");

    if |p.socialMedia.linkedin| > 0 { markdown := markdown + ("- LinkedIn: " + p.socialMedia.linkedin + "\n"); }
    if |p.socialMedia.github| > 0 { markdown := markdown + ("- GitHub: " + p.socialMedia.github + "\n"); }
    if |p.socialMedia.website| > 0 { markdown := markdown + ("- Website: " + p.socialMedia.website + "\n"); }
    markdown := markdown + "\n";
  }

  /** `if (summary) { ... }`. */
  method WriteSummary(start: string, summary: string) returns (markdown: string)
    ensures markdown == WithSummary(start, summary)
  {
    markdown := start;
    if |summary| > 0 {
      markdown := markdown + "## Professional Summary\n";
      markdown := markdown + (summary + "\n\n");
    }
  }

  /** `if (experience.length > 0) { ... forEach ... }`. */
  method WriteExperience(start: string, entries: seq<Experience>) returns (markdown: string)
    ensures markdown == WithList(start, "## Work Experience\n", entries, ExperienceBlock)
  {
    markdown := start;
    if |entries| > 0 {
      markdown := markdown + "## Work Experience\n";
      ghost var begun := markdown;
      for i := 0 to |entries|
        invariant markdown == AppendBlocks(begun, entries[..i], ExperienceBlock)
      {
        var exp := entries[i];
        markdown := markdown + ("### " + exp.title + " at " + exp.company + "\n");
        markdown := markdown + (exp.location + " | " + exp.startDate + " - " + exp.endDate + "\n");
        markdown := markdown + (exp.description + "\n\n");
        assert entries[..i + 1][..i] == entries[..i];
      }
      assert entries[..|entries|] == entries;
    }
  }

  /** `if (education.length > 0) { ... forEach ... }`, with the GPA line only for entries that have one. */
  method WriteEducation(start: string, entries: seq<Education>) returns (markdown: string)
    ensures markdown == WithList(start, "## Education\n", entries, EducationBlock)
  {
    markdown := start;
    if |entries| > 0 {
      markdown := markdown + "## Education\n";
      ghost var begun := markdown;
      for i := 0 to |entries|
        invariant markdown == AppendBlocks(begun, entries[..i], EducationBlock)
      {
        var edu := entries[i];
        markdown := markdown + ("### " + edu.degree + " from " + edu.school + "\n");
        markdown := markdown + (edu.location + " | Graduated: " + edu.graduationDate + "\n");
        if |edu.gpa| > 0 { markdown := markdown + ("GPA: " + edu.gpa + "\n"); }
        markdown := markdown + "\n";
        assert entries[..i + 1][..i] == entries[..i];
      }
      assert entries[..|entries|] == entries;
    }
  }

  /** `if (skills.length > 0) { ... map ... join(', ') }`. */
  method WriteSkills(start: string, skills: seq<Skill>) returns (markdown: string)
    ensures markdown == WithSkills(start, skills)
  {
    markdown := start;
    if |skills| > 0 {
      markdown := markdown + "## Skills\n";
      markdown := markdown + (Join(SkillLabels(skills), ", ") + "\n\n");
    }
  }

  /** `if (certifications.length > 0) { ... forEach ... }`. */
  method WriteCertifications(start: string, entries: seq<Certification>) returns (markdown: string)
    ensures markdown == WithList(start, "## Certifications\n", entries, CertificationBlock)
  {
    markdown := start;
    if |entries| > 0 {
      markdown := markdown + "## Certifications\n";
      ghost var begun := markdown;
      for i := 0 to |entries|
        invariant markdown == AppendBlocks(begun, entries[..i], CertificationBlock)
      {
        var cert := entries[i];
        markdown := markdown + ("### " + cert.name + "\n");
        markdown := markdown + (cert.issuingOrganization + " | Issued: " + cert.date + "\n\n");
        assert entries[..i + 1][..i] == entries[..i];
      }
      assert entries[..|entries|] == entries;
    }
  }

  /** `if (languages.length > 0) { ... forEach ... }`. */
  method WriteLanguages(start: string, entries: seq<Language>) returns (markdown: string)
    ensures markdown == WithList(start, "## Languages\n", entries, LanguageBlock)
  {
    markdown := start;
    if |entries| > 0 {
      markdown := markdown + "## Languages\n";
      ghost var begun := markdown;
      for i := 0 to |entries|
        invariant markdown == AppendBlocks(begun, entries[..i], LanguageBlock)
      {
        var lang := entries[i];
        markdown := markdown + ("### " + lang.name + "\n");
        markdown := markdown + ("Proficiency: " + lang.proficiency + "\n\n");
        assert entries[..i + 1][..i] == entries[..i];
      }
      assert entries[..|entries|] == entries;
    }
  }

  /** `if (additionalInfo) { ... }`. */
  method WriteAdditional(start: string, info: string) returns (markdown: string)
    ensures markdown == WithAdditional(start, info)
  {
    markdown := start;
    if |info| > 0 {
      markdown := markdown + "## Additional Information\n";
      markdown := markdown + (info + "\n\n");
    }
  }

  // ---------------------------------------------------------------------------
  // Properties of the document
  // ---------------------------------------------------------------------------

  /** Later sections never change what earlier ones wrote: each stage of the document is a prefix of every later one. */
  lemma {:induction false} EarlierStagesArePrefixes(d: CVData, early: nat, late: nat)
    requires 1 <= early <= late <= Sections
    ensures StartsWith(Document(d, late), Document(d, early))
    decreases late
  {
    if early == late {
      assert Document(d, late)[..|Document(d, early)|] == Document(d, early);
    } else {
      EarlierStagesArePrefixes(d, early, late - 1);
      StartsWithTrans(Document(d, late), Document(d, late - 1), Document(d, early));
    }
  }

  /** The document always opens with the name as its title, whatever else is filled in. */
  lemma TitleComesFirst(d: CVData)
    ensures StartsWith(MarkdownCV(d), "# " + d.personalInfo.fullName + "\n\n")
  {
    EarlierStagesArePrefixes(d, 1, Sections);
    StartsWithTrans(MarkdownCV(d), Document(d, 1), TitleLine(d.personalInfo));
  }

  /** The block of every item occurs among the blocks appended for the list. */
  lemma {:induction false} BlockAppears<T>(m: string, items: seq<T>, block: T -> string, i: int)
    requires 0 <= i < |items|
    ensures Contains(AppendBlocks(m, items, block), block(items[i]))
  {
    var n := |items| - 1;
    var prev := AppendBlocks(m, items[..n], block);
    if i == n {
      ContainsTail(prev, block(items[n]));
    } else {
      assert items[..n][i] == items[i];
      BlockAppears(m, items[..n], block, i);
      assert StartsWith(prev + block(items[n]), prev) by {
        assert (prev + block(items[n]))[..|prev|] == prev;
      }
      ContainsInPrefix(prev + block(items[n]), prev, block(items[i]));
    }
  }

  /** What a stage of the document contains, the whole document contains. */
  lemma StageContentStays(d: CVData, stage: nat, t: string)
    requires 1 <= stage <= Sections && Contains(Document(d, stage), t)
    ensures Contains(MarkdownCV(d), t)
  {
    EarlierStagesArePrefixes(d, stage, Sections);
    ContainsInPrefix(MarkdownCV(d), Document(d, stage), t);
  }

  /** The block of every experience entry appears in the document. */
  lemma ExperienceAppears(d: CVData, i: int)
    requires 0 <= i < |d.experience|
    ensures Contains(MarkdownCV(d), ExperienceBlock(d.experience[i]))
  {
    BlockAppears(Document(d, 2) + "## Work Experience\n", d.experience, ExperienceBlock, i);
    StageContentStays(d, 3, ExperienceBlock(d.experience[i]));
  }

  /** The block of every education entry appears in the document. */
  lemma EducationAppears(d: CVData, i: int)
    requires 0 <= i < |d.education|
    ensures Contains(MarkdownCV(d), EducationBlock(d.education[i]))
  {
    BlockAppears(Document(d, 3) + "## Education\n", d.education, EducationBlock, i);
    StageContentStays(d, 4, EducationBlock(d.education[i]));
  }

  /** The label of every skill appears in the document. */
  lemma SkillAppears(d: CVData, i: int)
    requires 0 <= i < |d.skills|
    ensures Contains(MarkdownCV(d), SkillLabel(d.skills[i]))
  {
    var before := Document(d, 4) + "## Skills\n";
    var line := Join(SkillLabels(d.skills), ", ");
    JoinContainsPart(SkillLabels(d.skills), ", ", i);
    ContainsInTail(before, line, SkillLabel(d.skills[i]));
    assert StartsWith(Document(d, 5), before + line) by {
      assert Document(d, 5) == before + line + "\n\n";
      assert (before + line + "\n\n")[..|before + line|] == before + line;
    }
    ContainsInPrefix(Document(d, 5), before + line, SkillLabel(d.skills[i]));
    StageContentStays(d, 5, SkillLabel(d.skills[i]));
  }

  /** The block of every certification appears in the document. */
  lemma CertificationAppears(d: CVData, i: int)
    requires 0 <= i < |d.certifications|
    ensures Contains(MarkdownCV(d), CertificationBlock(d.certifications[i]))
  {
    BlockAppears(Document(d, 5) + "## Certifications\n", d.certifications, CertificationBlock, i);
    StageContentStays(d, 6, CertificationBlock(d.certifications[i]));
  }

  /** The block of every language appears in the document. */
  lemma LanguageAppears(d: CVData, i: int)
    requires 0 <= i < |d.languages|
    ensures Contains(MarkdownCV(d), LanguageBlock(d.languages[i]))
  {
    BlockAppears(Document(d, 6) + "## Languages\n", d.languages, LanguageBlock, i);
    StageContentStays(d, 7, LanguageBlock(d.languages[i]));
  }

  /** A summary, when given, appears in the document, and so does the additional information. */
  lemma FreeTextAppears(d: CVData)
    ensures |d.personalInfo.summary| > 0 ==> Contains(MarkdownCV(d), d.personalInfo.summary)
    ensures |d.personalInfo.additionalInfo| > 0 ==> Contains(MarkdownCV(d), d.personalInfo.additionalInfo)
  {
    var p := d.personalInfo;
    if |p.summary| > 0 {
      Appears(Document(d, 1) + "## Professional Summary\n", p.summary, "\n\n");
      assert Document(d, 2) == Document(d, 1) + "## Professional Summary\n" + p.summary + "\n\n";
      StageContentStays(d, 2, p.summary);
    }
    if |p.additionalInfo| > 0 {
      Appears(Document(d, 7) + "## Additional Information\n", p.additionalInfo, "\n\n");
      assert MarkdownCV(d) == Document(d, 7) + "## Additional Information\n" + p.additionalInfo + "\n\n";
    }
  }

  /** `t` occurs in `a + t + b`. */
  lemma Appears(a: string, t: string, b: string)
    ensures Contains(a + t + b, t)
  {
    assert (a + t + b)[|a|..|a| + |t|] == t;
    assert OccursAt(a + t + b, t, |a|);
  }

  /** A stage adds text exactly when its section has content. */
  lemma StageGrowsIff(d: CVData, stage: nat)
    requires 2 <= stage <= Sections
    ensures |Document(d, stage)| >= |Document(d, stage - 1)|
    ensures Document(d, stage) == Document(d, stage - 1) <==> SectionEmpty(d, stage)
  {
  }

  /** The section written at `stage` has nothing to show: no summary, an empty list or no additional information. */
  predicate SectionEmpty(d: CVData, stage: nat) {
    match stage
    case 2 => |d.personalInfo.summary| == 0
    case 3 => |d.experience| == 0
    case 4 => |d.education| == 0
    case 5 => |d.skills| == 0
    case 6 => |d.certifications| == 0
    case 7 => |d.languages| == 0
    case _ => |d.personalInfo.additionalInfo| == 0
  }

  /** A record with no summary, no entries and no additional information yields the contact block alone, and only such a record does. */
  lemma ContactOnlyIff(d: CVData)
    ensures MarkdownCV(d) == HeaderOf(d.personalInfo) <==> forall stage :: 2 <= stage <= Sections ==> SectionEmpty(d, stage)
  {
    forall stage | 2 <= stage <= Sections {
      StageGrowsIff(d, stage);
    }
    if MarkdownCV(d) == HeaderOf(d.personalInfo) {
      forall stage | 2 <= stage <= Sections ensures SectionEmpty(d, stage) {
        EarlierStagesArePrefixes(d, stage, Sections);
        EarlierStagesArePrefixes(d, 1, stage - 1);
      }
    }
  }
}
