# CV builder — a verified model of its editing, validation and export logic

This project models in Dafny the logic of a React CV-builder web
application. The model covers:

- **The CV record and its editors.** The record is a personal block (name,
  e-mail, phone, address, summary, photo, three social links, additional
  information) plus five ordered lists: experience, education, skills,
  certifications and languages. The editors add a blank entry, remove an
  entry by position, rewrite one field of one entry, or route a personal
  field name, including `socialMedia.<link>` names, to the field it names
  (module `CvRecord`).
- **The validator.** It builds the ordered list of error messages. Its
  verdict is "valid" exactly when the list is empty (module `Validator`).
- **The Markdown generator.** It writes the CV as Markdown, section by
  section, with a loop over each list (module `Markdown`).
- **The builder component.** It holds the record, the current form step
  (one of six), the validation results kept in step with the record, and the
  preview, Markdown and download actions that only a valid record unlocks
  (module `Builder`, class `CVBuilder`).
- **The admin dashboard.** It loads stored submissions, counts them by type,
  searches them case-insensitively by name or e-mail, and exports them as
  comma-separated text. It also has two helpers for the browser store
  (module `Admin`, class `AdminDashboard`).
- **The featured-books carousel.** It filters by category, cuts the result
  into slides of three books, and moves between slides with wrapping arrows
  (module `Carousel`, class `FeaturedBooks`).
- **The earlier four-step builder.** It has a per-step completeness check, a
  "Previous" button, guarded preview and download actions, and a default
  download file name (module `LegacyBuilder`).
- **The stand-alone skills editor.** Its name and level edits assign into
  skill objects that the copied list shares with the previous list. The model
  states this aliasing (module `SkillsSection`).

Shared pieces:

- `Seqs` holds the list operations the components use: `filter`, filtering
  out one position, and rewriting one position.
- `Text` holds the string operations: JavaScript `trim`, `toLowerCase`,
  `includes`, `startsWith`, `join` and `split`.
- `Wrappers` holds `Option`.

JavaScript's truthiness test on a string is written as `|s| > 0`.
JSON parsing, date formatting and the browser store are parameters of the
functions that use them.

## Model

| member | source | states |
|---|---|---|
| CvRecord.AddExperience | src/components/CVBuilder.tsx:104-116 | exactly one entry is appended at the end, with every field empty; the earlier entries, the other four lists and the personal block are unchanged |
| CvRecord.AddEducation | src/components/CVBuilder.tsx:118-129 | one all-empty education entry is appended at the end; nothing else changes |
| CvRecord.AddSkill | src/components/CVBuilder.tsx:131-136 | one skill with an empty name and level "Intermediate" is appended at the end; nothing else changes |
| CvRecord.AddCertification | src/components/CVBuilder.tsx:138-143 | one all-empty certification is appended at the end; nothing else changes |
| CvRecord.AddLanguage | src/components/CVBuilder.tsx:145-150 | one language with an empty name and proficiency "Intermediate" is appended at the end; nothing else changes |
| CvRecord.RemoveItem | src/components/CVBuilder.tsx:153-164 | an in-range index shortens the chosen list by one and an out-of-range index returns the record unchanged; the other lists and the personal block are never touched |
| CvRecord.RemoveExperienceShifts | src/components/CVBuilder.tsx:153-164 | after a removal, entries before the index are unchanged and entries after it move down by one |
| CvRecord.UpdateExperience | src/components/CVBuilder.tsx:199-206 | the list keeps its length; only the named field of the entry at the index takes the value; every other field, entry and list is unchanged |
| CvRecord.UpdateEducation | src/components/CVBuilder.tsx:208-215 | as UpdateExperience, for education entries |
| CvRecord.UpdateSkill | src/components/CVBuilder.tsx:217-224 | as UpdateExperience, for skills |
| CvRecord.UpdateCertification | src/components/CVBuilder.tsx:226-233 | as UpdateExperience, for certifications |
| CvRecord.UpdateLanguage | src/components/CVBuilder.tsx:235-242 | as UpdateExperience, for languages |
| CvRecord.UpdateOutOfRangeIsNoOp | src/components/CVBuilder.tsx:199-206 | an edit at an index outside the list returns the record unchanged |
| CvRecord.SetPersonal | src/components/CVBuilder.tsx:178-195 | the chosen personal or social field takes the value and every other one keeps its value |
| CvRecord.RouteKey | src/components/CVBuilder.tsx:178-195 | a name reaches a social link only if it starts with `socialMedia.`, and a plain personal field only if it does not |
| CvRecord.SocialKeyOf | src/components/CVBuilder.tsx:178-179 | `split('.')[1]` of `socialMedia.<name>` is `name` when `name` has no dot |
| CvRecord.SocialKeysRoute | src/components/CVBuilder.tsx:178-189 | `socialMedia.<name>` updates the social link `name` |
| CvRecord.UpdatePersonal | src/components/CVBuilder.tsx:166-197 | a photo file returns the record unchanged; otherwise exactly the routed personal field takes the text; the five lists are never touched |
| Text.TrimEmptyIff | src/components/CVBuilder.tsx:248-249 | `s.trim()` is empty exactly when `s` is made only of whitespace |
| Validator.LooksLikeEmailIffRegex | src/components/CVBuilder.tsx:250 | the email check accepts exactly the strings with a substring of non-space characters, `@`, non-space characters, `.`, non-space characters |
| Validator.BlankIsNotEmail | src/components/CVBuilder.tsx:250 | no whitespace-only string passes the email check |
| Validator.ValidateForm | src/components/CVBuilder.tsx:244-272 | the loop-free push sequence produces the error list `Errors(d)` defines, and the verdict is true exactly when that list is empty |
| Validator.ValidIffComplete | src/components/CVBuilder.tsx:244-272 | the error list is empty exactly when the name and e-mail are not blank, the e-mail passes the check, and all five lists are non-empty |
| Validator.MessageIff | src/components/CVBuilder.tsx:248-267 | each of the eight messages is reported exactly when its own check fails |
| Validator.BlankEmailDrawsBoth | src/components/CVBuilder.tsx:249-252 | a non-empty whitespace-only e-mail draws both "Email is required" and "Valid email is required" |
| Validator.MessageTextInjective | src/components/CVBuilder.tsx:248-267 | the eight messages have eight different texts, so a shown text names exactly one failed check |
| Validator.ErrorsInOrder | src/components/CVBuilder.tsx:248-267 | the reported messages appear in the fixed order name, e-mail required, e-mail valid, experience, education, skills, certifications, languages |
| Markdown.Contact | src/components/CVBuilder.tsx:347-351 | the contact block begins with `# ` + full name + a blank line |
| Markdown.WithSocial | src/components/CVBuilder.tsx:353-355 | social lines only extend the text, and they add nothing exactly when all three links are empty |
| Markdown.WithSummary | src/components/CVBuilder.tsx:358-361 | the summary section is appended exactly when the summary is non-empty |
| Markdown.AppendBlocks | src/components/CVBuilder.tsx:365-369 | the per-entry blocks only extend the text before them |
| Markdown.WithList | src/components/CVBuilder.tsx:363-370 | an empty list adds nothing; a non-empty one adds its heading and then its blocks after the text so far |
| Markdown.SkillLabels | src/components/CVBuilder.tsx:384 | one `name (level)` label per skill, in order |
| Markdown.WithSkills | src/components/CVBuilder.tsx:382-385 | an empty list adds nothing; otherwise the heading and the labels joined by `, ` |
| Markdown.WithAdditional | src/components/CVBuilder.tsx:403-406 | the additional-information section is appended exactly when the text is non-empty |
| Markdown.HeaderOf | src/components/CVBuilder.tsx:347-356 | the header begins with the title line |
| Markdown.GenerateMarkdownCV | src/components/CVBuilder.tsx:346-409 | the generator returns the document the section functions define, section by section in the fixed order |
| Markdown.WriteContact | src/components/CVBuilder.tsx:347-356 | the title, the three contact lines, one line per non-empty social link, and a blank line |
| Markdown.WriteSummary | src/components/CVBuilder.tsx:358-361 | appends the summary section when the summary is non-empty |
| Markdown.WriteExperience | src/components/CVBuilder.tsx:363-370 | the `forEach` loop appends one block per entry, in order, under the heading; nothing for an empty list |
| Markdown.WriteEducation | src/components/CVBuilder.tsx:372-380 | as WriteExperience; the GPA line appears only for a non-empty GPA |
| Markdown.WriteSkills | src/components/CVBuilder.tsx:382-385 | appends the skills line when there are skills |
| Markdown.WriteCertifications | src/components/CVBuilder.tsx:387-393 | as WriteExperience, for certifications |
| Markdown.WriteLanguages | src/components/CVBuilder.tsx:395-401 | as WriteExperience, for languages |
| Markdown.WriteAdditional | src/components/CVBuilder.tsx:403-406 | appends the additional information when it is non-empty |
| Markdown.EarlierStagesArePrefixes | src/components/CVBuilder.tsx:346-409 | each section is appended after the earlier ones and never changes them, so the section order is fixed |
| Markdown.TitleComesFirst | src/components/CVBuilder.tsx:347 | every document begins with `# ` + full name + `\n\n` |
| Markdown.BlockAppears | src/components/CVBuilder.tsx:365-369 | the block of every entry occurs in the appended text |
| Markdown.ExperienceAppears | src/components/CVBuilder.tsx:363-370 | every experience entry's block occurs in the document |
| Markdown.EducationAppears | src/components/CVBuilder.tsx:372-380 | every education entry's block occurs in the document |
| Markdown.SkillAppears | src/components/CVBuilder.tsx:382-385 | every skill's `name (level)` label occurs in the document |
| Markdown.CertificationAppears | src/components/CVBuilder.tsx:387-393 | every certification's block occurs in the document |
| Markdown.LanguageAppears | src/components/CVBuilder.tsx:395-401 | every language's block occurs in the document |
| Markdown.FreeTextAppears | src/components/CVBuilder.tsx:358-406 | a non-empty summary and non-empty additional information both occur in the document |
| Markdown.StageGrowsIff | src/components/CVBuilder.tsx:358-406 | each section adds text exactly when its source is non-empty |
| Markdown.ContactOnlyIff | src/components/CVBuilder.tsx:346-409 | the document is the contact block alone exactly when the summary, the five lists and the additional information are all empty |
| Builder.PreviousStep | src/components/CVBuilder.tsx:1102 | `max(0, s - 1)` |
| Builder.NextStep | src/components/CVBuilder.tsx:1112 | `min(5, s + 1)` |
| Builder.CVBuilder.constructor | src/components/CVBuilder.tsx:65-93 | starts on step 0 with the empty record, the blue theme and nothing open; the mount validation marks the record invalid |
| Builder.CVBuilder.Validate | src/components/CVBuilder.tsx:244-272 | stores the error list and the verdict; the verdict is true exactly when the record is complete |
| Builder.CVBuilder.SetCvData | src/components/CVBuilder.tsx:274-276 | after every record change the validation effect runs, so the verdict always describes the current record |
| Builder.CVBuilder.AddEntry | src/components/CVBuilder.tsx:104-150 | the chosen list grows by one entry, the other lists are unchanged, and validity is recomputed; the preview flags, the theme and `isSaving` keep their values |
| Builder.CVBuilder.RemoveEntry | src/components/CVBuilder.tsx:153-164 | the record becomes `RemoveItem` of the old one, and validity is recomputed; the preview flags, the theme and `isSaving` keep their values |
| Builder.CVBuilder.EditExperience | src/components/CVBuilder.tsx:199-206 | the record becomes `UpdateExperience` of the old one, and validity is recomputed; the preview flags, the theme and `isSaving` keep their values |
| Builder.CVBuilder.EditEducation | src/components/CVBuilder.tsx:208-215 | likewise for education; the preview flags, the theme and `isSaving` keep their values |
| Builder.CVBuilder.EditSkill | src/components/CVBuilder.tsx:217-224 | likewise for skills; the preview flags, the theme and `isSaving` keep their values |
| Builder.CVBuilder.EditCertification | src/components/CVBuilder.tsx:226-233 | likewise for certifications; the preview flags, the theme and `isSaving` keep their values |
| Builder.CVBuilder.EditLanguage | src/components/CVBuilder.tsx:235-242 | likewise for languages; the preview flags, the theme and `isSaving` keep their values |
| Builder.CVBuilder.EditPersonal | src/components/CVBuilder.tsx:166-197 | the record becomes `UpdatePersonal` of the old one, and validity is recomputed; the preview flags, the theme and `isSaving` keep their values |
| Builder.CVBuilder.Previous | src/components/CVBuilder.tsx:1102 | the step drops by one but never below 0; the record, the verdict, the preview flags, the theme and `isSaving` are unchanged |
| Builder.CVBuilder.Next | src/components/CVBuilder.tsx:1112 | the step rises by one but never above 5; the record, the verdict, the preview flags, the theme and `isSaving` are unchanged |
| Builder.CVBuilder.SelectStep | src/components/CVBuilder.tsx:439 | a tab click sets the step to that tab's id; the record, the verdict, the preview flags, the theme and `isSaving` are unchanged |
| Builder.CVBuilder.SelectTheme | src/components/CVBuilder.tsx:454-463 | the theme is always one of the three the selector offers (`Themes`); selecting one sets it and changes nothing else |
| Builder.CVBuilder.HandlePreview | src/components/CVBuilder.tsx:278-284 | the preview opens only for a complete record; otherwise the refusal is shown and nothing changes; the record, the step, the Markdown view, the theme and `isSaving` are never touched |
| Builder.CVBuilder.ViewMarkdown | src/components/CVBuilder.tsx:482-488 | the Markdown view opens only for a complete record; otherwise the refusal is shown; the record, the step, the preview, the theme and `isSaving` are never touched |
| Builder.CVBuilder.SaveAndDownload | src/components/CVBuilder.tsx:502-509 | the preview opens and the download is scheduled exactly when the record is complete; the record, the step, the Markdown view, the theme and `isSaving` are never touched |
| Builder.CVBuilder.ClosePreview | src/components/CVBuilder.tsx:1126 | closes the preview and changes nothing else |
| Builder.CVBuilder.CloseMarkdown | src/components/CVBuilder.tsx:1156 | closes the Markdown view and changes nothing else |
| Admin.GetItem | src/components/AdminDashboard.tsx:32 | the stored text under a key, or nothing when the key is absent |
| Admin.Normalise | src/components/AdminDashboard.tsx:32-38 | nothing stored (or the empty text) gives no submissions; an array is kept as it is; any other value becomes a one-element list; a parse failure gives no result |
| Admin.StatsOf | src/components/AdminDashboard.tsx:41-45 | the total counts every submission; builder and upload count exactly the submissions of those types |
| Admin.TypeCountsBounded | src/components/AdminDashboard.tsx:41-45 | builder + upload never exceeds the total |
| Admin.TypeCountsExact | src/components/AdminDashboard.tsx:41-45 | builder + upload equals the total when every submission has one of the two types |
| Admin.FilteredSubmissions | src/components/AdminDashboard.tsx:74-77 | keeps exactly the submissions whose lower-cased name or e-mail contains the lower-cased term, in stored order, each as often as it is stored |
| Seqs.FilterMultiplicity | src/components/AdminDashboard.tsx:74-77 | `filter` keeps every element that satisfies the predicate exactly as often as the list holds it, and drops every other element |
| Admin.EmptyTermKeepsAll | src/components/AdminDashboard.tsx:74-77 | an empty search term keeps every submission |
| Admin.PhoneField | src/components/AdminDashboard.tsx:95 | a missing phone number is written as the empty field |
| Admin.Rows | src/components/AdminDashboard.tsx:90-97 | the header row comes first, then one five-field row per stored submission, in order |
| Admin.RowColumnsIff | src/components/AdminDashboard.tsx:99-100 | a row reads back as five columns exactly when no field contains a comma |
| Admin.ExportLines | src/components/AdminDashboard.tsx:89-101 | without line breaks in fields, the export has 1 + n lines, and the header line comes first |
| Admin.ExportRoundTrip | src/components/AdminDashboard.tsx:89-101 | without commas or line breaks in fields, splitting the export on line breaks and commas gives back every row |
| Admin.LineBreakSplitsRow | src/components/AdminDashboard.tsx:89-101 | a line break in any field yields more than 1 + n lines, since fields are not quoted |
| Admin.SaveToLocalStorage | src/components/AdminDashboard.tsx:123-131 | answers false exactly when the write throws, and then the store is unchanged; otherwise the key holds the text |
| Admin.GetFromLocalStorage | src/components/AdminDashboard.tsx:133-141 | null when the key is absent or holds the empty text; otherwise the parse result, which is null when parsing throws |
| Admin.SaveThenLoad | src/components/AdminDashboard.tsx:29-38 | saving an array of submissions and then loading gives back that array |
| Admin.AdminDashboard.constructor | src/components/AdminDashboard.tsx:18-27 | mounting loads the store; after a parse failure the list stays empty |
| Admin.AdminDashboard.LoadData | src/components/AdminDashboard.tsx:29-55 | on success the list and the counters are replaced; on failure both are kept; loading ends on both paths |
| Admin.AdminDashboard.SetSearchTerm | src/components/AdminDashboard.tsx:21 | sets the search term and changes nothing else |
| Admin.AdminDashboard.SelectSubmission | src/components/AdminDashboard.tsx:22 | sets the selected submission and changes nothing else |
| Admin.AdminDashboard.Shown | src/components/AdminDashboard.tsx:74-77 | the shown rows are the matching stored submissions, in order, each as often as it is stored |
| Admin.AdminDashboard.ExportData | src/components/AdminDashboard.tsx:89-101 | exports every stored submission, not just the filtered view, one line each when no field holds a line break |
| Carousel.FilteredBooks | src/components/FeaturedBooks.tsx:97-99 | "all" gives the whole catalogue; a category gives exactly that category's books in catalogue order, each as often as it occurs |
| Carousel.CategoriesPartition | src/components/FeaturedBooks.tsx:97-99 | the two category filters split the catalogue between them |
| Carousel.PageCount | src/components/FeaturedBooks.tsx:258 | `ceil(n / 3)`: the fewest slides of three that hold n books |
| Carousel.PageSizes | src/components/FeaturedBooks.tsx:261-262 | every rendered slide holds one to three books |
| Carousel.Slides | src/components/FeaturedBooks.tsx:258-263 | one slide per page, slide i being `slice(3i, 3i + 3)` |
| Carousel.SlidesConcat | src/components/FeaturedBooks.tsx:258-263 | reading the slides in order gives back the filtered list |
| Carousel.NextSlide | src/components/FeaturedBooks.tsx:101-103 | one slide on, wrapping from the last to the first, always in range |
| Carousel.PrevSlide | src/components/FeaturedBooks.tsx:105-107 | one slide back, wrapping from the first to the last, always in range |
| Carousel.ArrowsInverse | src/components/FeaturedBooks.tsx:101-107 | the two arrows undo each other |
| Carousel.CatalogueSlides | src/components/FeaturedBooks.tsx:22-96 | a check on the one catalogue the component ships: "all" has two slides and therefore arrows, and each category has one slide; the general facts are PageSizes, SlidesConcat and CategoriesPartition |
| Carousel.FeaturedBooks.Next | src/components/FeaturedBooks.tsx:101-103 | the slide becomes `NextSlide` of the old one and stays in range |
| Carousel.FeaturedBooks.Prev | src/components/FeaturedBooks.tsx:105-107 | the slide becomes `PrevSlide` of the old one and stays in range |
| Carousel.FeaturedBooks.SelectSlide | src/components/FeaturedBooks.tsx:292-297 | an indicator click sets the slide to its own index |
| Carousel.FeaturedBooks.SelectFilter | src/components/FeaturedBooks.tsx:236-239 | choosing a filter sets it and resets the slide to 0 |
| LegacyBuilder.ValidateSection | src/components/CVBuilder/index.tsx:19-35 | step 0 passes iff the personal object has a key; steps 1, 2 and 3 pass iff experience, education and skills are non-empty; any other step fails |
| LegacyBuilder.ReadyIffEveryStep | src/components/CVBuilder/index.tsx:122-125 | the "ready" banner shows exactly when all four step checks pass |
| LegacyBuilder.DownloadFileName | src/components/CVBuilder/index.tsx:60 | `fullName_cv.pdf`, or `my_cv.pdf` when the name is missing or empty |
| LegacyBuilder.ForwardLabel | src/components/CVBuilder/index.tsx:116 | "Finish" exactly on step 3, "Next" otherwise |
| LegacyBuilder.LegacyCVBuilder.Previous | src/components/CVBuilder/index.tsx:78 | the step drops by one but never below 0; the completeness check reruns |
| LegacyBuilder.LegacyCVBuilder.HandlePreview | src/components/CVBuilder/index.tsx:38-44 | the preview opens only when the personal object has a key; otherwise the notice is shown and nothing changes |
| LegacyBuilder.LegacyCVBuilder.HandleDownload | src/components/CVBuilder/index.tsx:47-70 | refuses when the personal object has no key; past that guard, a failing PDF step gives "Failed to download CV" and no file, and a succeeding one downloads `DownloadFileName`; a file is produced exactly when both hold |
| SkillsSection.SkillsEditor.Values | src/components/CVBuilder/SkillsSection.tsx:45 | the skills' values, read through their objects, position by position |
| SkillsSection.SkillsEditor.AddSkill | src/components/CVBuilder/SkillsSection.tsx:24-26 | exactly one fresh `{ name: '', level: 'Intermediate' }` object is appended at the end, and completion is reported |
| SkillsSection.SkillsEditor.RemoveSkill | src/components/CVBuilder/SkillsSection.tsx:28-30 | exactly that position is dropped, the rest keep their order, and an out-of-range index changes nothing |
| SkillsSection.SkillsEditor.SetName | src/components/CVBuilder/SkillsSection.tsx:50-54 | the length is unchanged and only entry i's name changes; the previous list holds the same object and shows the new name too |
| SkillsSection.SkillsEditor.SetLevel | src/components/CVBuilder/SkillsSection.tsx:60-64 | likewise for the level |
| SkillsSection.SkillsEditor.Report | src/components/CVBuilder/SkillsSection.tsx:18-22 | after every change, `onComplete` receives `skills.length > 0` and `onSkillsChange` receives the current list |

## Left out

- Photo upload: reading the chosen file with `FileReader` and storing it later is asynchronous browser I/O. Only the synchronous result is modelled, which returns the record unchanged.
- PDF export (`handleDownload` in CVBuilder.tsx) uses html2canvas and jsPDF with floating-point page scaling. The model stops at the gate in front of it: the download is only scheduled. The `isSaving` flag that the export sets and clears is not modelled.
- `saveCV`, `generateCV` and `previewCV` in CVBuilder.tsx are not wired to any control. Their store write, notices and clipboard use are browser plumbing.
- Notices (toasts) appear only as the strings the guarded actions return. Console logging is left out.
- `formatDate` in AdminDashboard.tsx depends on the locale, so it is a function parameter of the export. `JSON.parse` is a parameter returning `None` when it throws. `JSON.stringify` is represented by its output text.
- The Blob and anchor download in AdminDashboard.tsx and the export file name built from the current date are left out (browser plumbing and a clock).
- `loadCVData` in AdminDashboard.tsx fills a `cvData` list that nothing reads. It is not part of this model.
- The JSON value `loadData` receives is modelled as an array of submissions or a single submission. Other shapes (numbers, strings, objects without the fields) are not distinguished. The one other writer of the `cvAnalysis` key in the app, src/components/CVAnalysis.tsx:58, stores a single `{userInfo, analysisData, date}` object with no `name`, `email` or `submission_type`. The dashboard wraps it as a one-element list and counts it in the total; the search filter's `submission.name.toLowerCase()` then throws while rendering. That crash is not modelled.
- Text.ToLower: lowers only ASCII and Latin-1 capital letters. It does not model the full Unicode case mapping of `toLowerCase`.
- Validator.LooksLikeEmail decides the `\S+@\S+\.\S+` search with `\S` read as "not an ECMAScript whitespace character". The regular-expression engine itself is not modelled.
- CvRecord.UpdatePersonal: a field name that names no field of the typed record is left out. JavaScript would add that key to the object; the model returns the record unchanged. A file passed with any field other than `photo` is excluded by the precondition, since only the photo input passes a file.
- The update editors take the field name as an enumeration. Every call site passes one of the entry type's own field names as a literal.
- `handleNext` in CVBuilder/index.tsx is referenced but never defined, so the legacy builder's forward button is not modelled. Nothing in that component calls `setCvData`, so its record stays empty.
- LegacyBuilder.LegacyCVBuilder.HandleDownload: whether the PDF step fails is the parameter `pdfFails`. In the source `generatePDF` (CVBuilder/index.tsx:55) is never defined or imported, so the call always throws and the catch shows "Failed to download CV": `pdfFails` is always true there, and the success outcome, with its file name, is never reached. The PDF bytes are not modelled.
- Admin.ExportRoundTrip holds only when no field contains a comma. The Created At column is the en-US `toLocaleDateString` text with month, day, year, hour and minute, which contains commas (such as "Jan 5, 2024, 03:04 PM") for every valid date. So real exported rows do not split back into five columns: the fields are not quoted, and Admin.RowColumnsIff states what the export does then.
- Carousel.FeaturedBooks.Next and Carousel.FeaturedBooks.Prev require at least one slide. With an empty filter, JavaScript's `% 0` yields NaN, which is not modelled.
- The theme renderer, the preview modal's layout and the rest of the JSX are presentation only.
