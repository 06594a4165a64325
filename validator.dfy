/**
  * `validateForm` of the builder: the ordered list of messages naming what
  * the record still lacks. The record is complete exactly when the list is
  * empty.
  */
module Validator {
  import opened Text
  import opened CvRecord
  import Seqs

  /** The messages `validateForm` can push. */
  datatype Message =
    | NameRequired | EmailRequired | EmailInvalid | ExperienceRequired
    | EducationRequired | SkillRequired | CertificationRequired | LanguageRequired

  /** The text shown for each message. */
  function MessageText(m: Message): string {
    match m
    case NameRequired => "Name is required"
    case EmailRequired => "Email is required"
    case EmailInvalid => "Valid email is required"
    case ExperienceRequired => "At least one work experience is required"
    case EducationRequired => "At least one education entry is required"
    case SkillRequired => "At least one skill is required"
    case CertificationRequired => "At least one certification entry is required"
    case LanguageRequired => "At least one language entry is required"
  }

  /** Different messages show different texts, so a shown text names exactly one failed check. */
  lemma MessageTextInjective(a: Message, b: Message)
    ensures MessageText(a) == MessageText(b) <==> a == b
  {
  }

  /** Every message, in the order the checks run. */
  const AllMessages := [NameRequired, EmailRequired, EmailInvalid, ExperienceRequired,
                        EducationRequired, SkillRequired, CertificationRequired, LanguageRequired]

  // ---------------------------------------------------------------------------
  // The email pattern /\S+@\S+\.\S+/ (unanchored)
  // ---------------------------------------------------------------------------

  /** `s[lo..hi]` is a match of the pattern: three non-empty runs of non-space characters separated by `@` at `at` and `.` at `dot`. */
  predicate PatternAt(s: string, lo: int, at: int, dot: int, hi: int) {
    && 0 <= lo < at && at + 1 < dot && dot + 1 < hi <= |s|
    && s[at] == '@' && s[dot] == '.'
    && forall k :: lo <= k < hi ==> !IsSpace(s[k])
  }

  /** What `/\S+@\S+\.\S+/.test(s)` decides: some substring of `s` matches the pattern. */
  ghost predicate RegexMatches(s: string) {
    exists lo, at, dot, hi :: PatternAt(s, lo, at, dot, hi)
  }

  /** An `@` at `at` and a `.` at `dot`, with a non-space character before the `@`, after the `.` and everywhere between them. */
  predicate EmailWitness(s: string, at: int, dot: int) {
    && 0 < at && at + 1 < dot && dot + 1 < |s|
    && s[at] == '@' && s[dot] == '.'
    && !IsSpace(s[at - 1]) && !IsSpace(s[dot + 1])
    && forall k :: at < k < dot ==> !IsSpace(s[k])
  }

  /** The email check as the validator runs it: a search for the shortest possible match. */
  predicate LooksLikeEmail(s: string) {
    exists at, dot :: 0 <= at < |s| && 0 <= dot < |s| && EmailWitness(s, at, dot)
  }

  /** The shortest-match search accepts exactly the strings the regular expression matches. */
  lemma LooksLikeEmailIffRegex(s: string)
    ensures LooksLikeEmail(s) <==> RegexMatches(s)
  {
    if LooksLikeEmail(s) {
      var at, dot :| 0 <= at < |s| && 0 <= dot < |s| && EmailWitness(s, at, dot);
      assert PatternAt(s, at - 1, at, dot, dot + 2);
    }
    if RegexMatches(s) {
      var lo, at, dot, hi :| PatternAt(s, lo, at, dot, hi);
      assert EmailWitness(s, at, dot);
    }
  }

  /** A string made only of whitespace can never pass the email check. */
  lemma BlankIsNotEmail(s: string)
    requires AllSpace(s)
    ensures !LooksLikeEmail(s)
  {
    forall at, dot | 0 <= at < |s| && 0 <= dot < |s| ensures !EmailWitness(s, at, dot) {
      assert IsSpace(s[at]);
    }
  }

  // ---------------------------------------------------------------------------
  // The error list
  // ---------------------------------------------------------------------------

  /** `if (failed) errors.push(m)`. */
  function Push(errors: seq<Message>, failed: bool, m: Message): seq<Message> {
    if failed then errors + [m] else errors
  }

  /** `!personalInfo.fullName?.trim()`: the name is empty once trimmed. */
  predicate NameMissing(p: PersonalInfo) {
    |Trim(p.fullName)| == 0
  }

  /** `!personalInfo.email?.trim()`: the email is empty once trimmed. */
  predicate EmailMissing(p: PersonalInfo) {
    |Trim(p.email)| == 0
  }

  /** `personalInfo.email && !/\S+@\S+\.\S+/.test(personalInfo.email)`: an email is given but fails the pattern. */
  predicate EmailMalformed(p: PersonalInfo) {
    |p.email| > 0 && !LooksLikeEmail(p.email)
  }

  /** The eight checks of `validateForm`, in order, each true when it fails. */
  function Checks(d: CVData): (r: seq<bool>)
    ensures |r| == |AllMessages|
  {
    var p := d.personalInfo;
    [ NameMissing(p),
      EmailMissing(p),
      EmailMalformed(p),
      |d.experience| == 0,
      |d.education| == 0,
      |d.skills| == 0,
      |d.certifications| == 0,
      |d.languages| == 0 ]
  }

  /** The list the eight conditional pushes build, given which checks failed. */
  function Reported(failed: seq<bool>): seq<Message>
    requires |failed| == |AllMessages|
  {
    var e1 := Push([], failed[0], NameRequired);
    var e2 := Push(e1, failed[1], EmailRequired);
    var e3 := Push(e2, failed[2], EmailInvalid);
    var e4 := Push(e3, failed[3], ExperienceRequired);
    var e5 := Push(e4, failed[4], EducationRequired);
    var e6 := Push(e5, failed[5], SkillRequired);
    var e7 := Push(e6, failed[6], CertificationRequired);
    Push(e7, failed[7], LanguageRequired)
  }

  /** The messages `validateForm` pushes for `d`, check by check. */
  function Errors(d: CVData): seq<Message> {
    var p := d.personalInfo;
    var e1 := Push([], NameMissing(p), NameRequired);
    var e2 := Push(e1, EmailMissing(p), EmailRequired);
    var e3 := Push(e2, EmailMalformed(p), EmailInvalid);
    var e4 := Push(e3, |d.experience| == 0, ExperienceRequired);
    var e5 := Push(e4, |d.education| == 0, EducationRequired);
    var e6 := Push(e5, |d.skills| == 0, SkillRequired);
    var e7 := Push(e6, |d.certifications| == 0, CertificationRequired);
    Push(e7, |d.languages| == 0, LanguageRequired)
  }

  /** The pushes for `d` are the pushes for the outcome of its checks. */
  lemma ErrorsReported(d: CVData)
    ensures Errors(d) == Reported(Checks(d))
  {
  }

  /** `validateForm`: pushes one message per failed check and reports whether none failed. */
  method ValidateForm(d: CVData) returns (errors: seq<Message>, valid: bool)
    ensures errors == Errors(d)
    ensures valid <==> errors == []
  {
    var p := d.personalInfo;
    errors := [];
    if NameMissing(p) { errors := errors + [NameRequired]; }
    if EmailMissing(p) { errors := errors + [EmailRequired]; }
    if EmailMalformed(p) { errors := errors + [EmailInvalid]; }
    if |d.experience| == 0 { errors := errors + [ExperienceRequired]; }
    if |d.education| == 0 { errors := errors + [EducationRequired]; }
    if |d.skills| == 0 { errors := errors + [SkillRequired]; }
    if |d.certifications| == 0 { errors := errors + [CertificationRequired]; }
    if |d.languages| == 0 { errors := errors + [LanguageRequired]; }
    valid := |errors| == 0;
  }

  /** The record is complete: a non-blank name, a plausible email and at least one entry in every list. */
  predicate Complete(d: CVData) {
    && !AllSpace(d.personalInfo.fullName)
    && !AllSpace(d.personalInfo.email)
    && LooksLikeEmail(d.personalInfo.email)
    && |d.experience| > 0 && |d.education| > 0 && |d.skills| > 0
    && |d.certifications| > 0 && |d.languages| > 0
  }

  /** Nothing is reported exactly when no check failed. */
  lemma ReportedEmptyIff(failed: seq<bool>)
    requires |failed| == |AllMessages|
    ensures Reported(failed) == [] <==> forall i :: 0 <= i < |failed| ==> !failed[i]
  {
  }

  /** Message `i` is reported exactly when check `i` failed. */
  lemma ReportedMember(failed: seq<bool>, i: int)
    requires |failed| == |AllMessages| && 0 <= i < |AllMessages|
    ensures AllMessages[i] in Reported(failed) <==> failed[i]
  {
  }

  /** The validator reports nothing exactly for complete records. */
  lemma ValidIffComplete(d: CVData)
    ensures Errors(d) == [] <==> Complete(d)
  {
    TrimEmptyIff(d.personalInfo.fullName);
    TrimEmptyIff(d.personalInfo.email);
  }

  /** Each message is reported exactly when its check fails. */
  lemma MessageIff(d: CVData)
    ensures NameRequired in Errors(d) <==> AllSpace(d.personalInfo.fullName)
    ensures EmailRequired in Errors(d) <==> AllSpace(d.personalInfo.email)
    ensures EmailInvalid in Errors(d) <==> d.personalInfo.email != "" && !LooksLikeEmail(d.personalInfo.email)
    ensures ExperienceRequired in Errors(d) <==> d.experience == []
    ensures EducationRequired in Errors(d) <==> d.education == []
    ensures SkillRequired in Errors(d) <==> d.skills == []
    ensures CertificationRequired in Errors(d) <==> d.certifications == []
    ensures LanguageRequired in Errors(d) <==> d.languages == []
  {
    TrimEmptyIff(d.personalInfo.fullName);
    TrimEmptyIff(d.personalInfo.email);
    ErrorsReported(d);
    var failed := Checks(d);
    forall i | 0 <= i < |AllMessages| ensures AllMessages[i] in Errors(d) <==> failed[i] {
      ReportedMember(failed, i);
    }
  }

  /** A non-empty email made only of whitespace draws both email messages. */
  lemma BlankEmailDrawsBoth(d: CVData)
    requires d.personalInfo.email != "" && AllSpace(d.personalInfo.email)
    ensures EmailRequired in Errors(d) && EmailInvalid in Errors(d)
  {
    BlankIsNotEmail(d.personalInfo.email);
    MessageIff(d);
  }

  /** Extending both lists by the same element keeps one a subsequence of the other. */
  lemma {:induction false} SubsequenceSnoc(s: seq<Message>, t: seq<Message>, m: Message)
    requires Seqs.IsSubsequence(s, t)
    ensures Seqs.IsSubsequence(s + [m], t + [m]) && Seqs.IsSubsequence(s, t + [m])
  {
    if t == [] {
      assert s == [];
      assert Seqs.IsSubsequence([m][1..], []);
      assert Seqs.IsSubsequence(s, ([] + [m])[1..]);
    } else {
      assert (t + [m])[1..] == t[1..] + [m];
      if s != [] && s[0] == t[0] && Seqs.IsSubsequence(s[1..], t[1..]) {
        SubsequenceSnoc(s[1..], t[1..], m);
        assert (s + [m])[1..] == s[1..] + [m];
      } else {
        SubsequenceSnoc(s, t[1..], m);
      }
    }
  }

  /** A conditional push after the next message of the check order keeps the list a subsequence of that order. */
  lemma PushInOrder(e: seq<Message>, order: seq<Message>, failed: bool, m: Message)
    requires Seqs.IsSubsequence(e, order)
    ensures Seqs.IsSubsequence(Push(e, failed, m), order + [m])
  {
    SubsequenceSnoc(e, order, m);
  }

  /** The reported messages come in the fixed order of the checks, each at most once. */
  lemma ReportedInOrder(failed: seq<bool>)
    requires |failed| == |AllMessages|
    ensures Seqs.IsSubsequence(Reported(failed), AllMessages)
  {
    var e1 := Push([], failed[0], NameRequired);
    var e2 := Push(e1, failed[1], EmailRequired);
    var e3 := Push(e2, failed[2], EmailInvalid);
    var e4 := Push(e3, failed[3], ExperienceRequired);
    var e5 := Push(e4, failed[4], EducationRequired);
    var e6 := Push(e5, failed[5], SkillRequired);
    var e7 := Push(e6, failed[6], CertificationRequired);
    assert Seqs.IsSubsequence<Message>([], []);
    PushInOrder([], [], failed[0], NameRequired);
    assert [AllMessages[0]] == AllMessages[..1];
    PushInOrder(e1, AllMessages[..1], failed[1], EmailRequired);
    assert AllMessages[..1] + [AllMessages[1]] == AllMessages[..2];
    PushInOrder(e2, AllMessages[..2], failed[2], EmailInvalid);
    assert AllMessages[..2] + [AllMessages[2]] == AllMessages[..3];
    PushInOrder(e3, AllMessages[..3], failed[3], ExperienceRequired);
    assert AllMessages[..3] + [AllMessages[3]] == AllMessages[..4];
    PushInOrder(e4, AllMessages[..4], failed[4], EducationRequired);
    assert AllMessages[..4] + [AllMessages[4]] == AllMessages[..5];
    PushInOrder(e5, AllMessages[..5], failed[5], SkillRequired);
    assert AllMessages[..5] + [AllMessages[5]] == AllMessages[..6];
    PushInOrder(e6, AllMessages[..6], failed[6], CertificationRequired);
    assert AllMessages[..6] + [AllMessages[6]] == AllMessages[..7];
    PushInOrder(e7, AllMessages[..7], failed[7], LanguageRequired);
    assert AllMessages[..7] + [AllMessages[7]] == AllMessages;
  }

  /** The messages always come in the fixed order of the checks, each at most once. */
  lemma ErrorsInOrder(d: CVData)
    ensures Seqs.IsSubsequence(Errors(d), AllMessages)
  {
    ErrorsReported(d);
    ReportedInOrder(Checks(d));
  }
}
