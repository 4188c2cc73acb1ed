/**
 * The resume parser: the file-type dispatch and the not-a-resume rejection, the section
 * keyword count that decides whether a text is a resume, and the post-processing of the
 * extracted lists. The regular expressions (email, phone, name, year and tech-term tests,
 * the section finders and the job and project line matchers) are not modelled: what they
 * found in a text is an input, a `Matches` record.
 */
module ResumeParser {
  import opened Wrappers
  import opened Text

  // ---------------------------------------------------------------------------------------
  // Lists of strings

  /** `a` is `b` with some elements left out, the rest in their original order. */
  predicate Subsequence<T(==)>(a: seq<T>, b: seq<T>)
    decreases |b|
  {
    |a| == 0 || (|b| > 0 && ((a[0] == b[0] && Subsequence(a[1..], b[1..])) || Subsequence(a, b[1..])))
  }

  predicate NoDuplicates<T(==)>(xs: seq<T>) {
    forall i, j :: 0 <= i < j < |xs| ==> xs[i] != xs[j]
  }

  lemma {:induction false} SubsequenceTransitive<T>(a: seq<T>, b: seq<T>, c: seq<T>)
    requires Subsequence(a, b) && Subsequence(b, c)
    ensures Subsequence(a, c)
    decreases |c|
  {
    if |a| == 0 {
    } else if |b| == 0 {
      assert false;
    } else if b[0] == c[0] && Subsequence(b[1..], c[1..]) {
      if a[0] == b[0] && Subsequence(a[1..], b[1..]) {
        SubsequenceTransitive(a[1..], b[1..], c[1..]);
      } else {
        SubsequenceTransitive(a, b[1..], c[1..]);
      }
    } else {
      SubsequenceTransitive(a, b, c[1..]);
    }
  }

  /** The keys, in order, that occur in `hay`: the entries an `includes` loop would count. */
  function IncludedKeys(hay: string, keys: seq<string>): (r: seq<string>)
    ensures forall k :: k in r <==> k in keys && Includes(hay, k)
    ensures Subsequence(r, keys)
    decreases |keys|
  {
    if |keys| == 0 then []
    else
      var rest := IncludedKeys(hay, keys[1..]);
      if Includes(hay, keys[0]) then [keys[0]] + rest else rest
  }

  function Without<T(==,!new)>(xs: seq<T>, x: T): (r: seq<T>)
    ensures |r| <= |xs|
    ensures forall y :: y in r <==> y in xs && y != x
    ensures Subsequence(r, xs)
    decreases |xs|
  {
    if |xs| == 0 then []
    else
      var rest := Without(xs[1..], x);
      if xs[0] == x then rest else [xs[0]] + rest
  }

  /** The position of the first occurrence of `y` in `xs`. */
  function FirstIndex<T(==)>(xs: seq<T>, y: T): (i: nat)
    requires y in xs
    ensures i < |xs| && xs[i] == y
    ensures forall j :: 0 <= j < i ==> xs[j] != y
    decreases |xs|
  {
    if xs[0] == y then 0 else 1 + FirstIndex(xs[1..], y)
  }

  /** Every element of `r` occurs in `xs`, and `r` lists them in the order of their first occurrences there. */
  predicate FirstOccurrenceOrder<T(==)>(r: seq<T>, xs: seq<T>) {
    forall i, j :: 0 <= i < j < |r| ==> InFirstOccurrenceOrder(r, xs, i, j)
  }

  /** Positions `i` and `j` of `r` hold elements of `xs` whose first occurrences come in that order. */
  predicate InFirstOccurrenceOrder<T(==)>(r: seq<T>, xs: seq<T>, i: nat, j: nat)
    requires i < j < |r|
  {
    r[i] in xs && r[j] in xs && FirstIndex(xs, r[i]) < FirstIndex(xs, r[j])
  }

  /** Leaving out `x` keeps the relative order of first occurrences of everything else. */
  lemma {:induction false} WithoutKeepsOrder<T(!new)>(ys: seq<T>, x: T, y: T, z: T)
    requires y in Without(ys, x) && z in Without(ys, x)
    requires FirstIndex(Without(ys, x), y) < FirstIndex(Without(ys, x), z)
    ensures FirstIndex(ys, y) < FirstIndex(ys, z)
    decreases |ys|
  {
    var w := Without(ys, x);
    var tail := Without(ys[1..], x);
    if ys[0] == x {
      assert w == tail;
      WithoutKeepsOrder(ys[1..], x, y, z);
    } else {
      assert w == [ys[0]] + tail;
      if y != ys[0] {
        assert z != ys[0];
        assert FirstIndex(w, y) == 1 + FirstIndex(tail, y);
        assert FirstIndex(w, z) == 1 + FirstIndex(tail, z);
        WithoutKeepsOrder(ys[1..], x, y, z);
      }
    }
  }

  /** Without an occurrence of `x` there is nothing to leave out. */
  lemma {:induction false} WithoutAbsent<T(!new)>(ys: seq<T>, x: T)
    requires x !in ys
    ensures Without(ys, x) == ys
    decreases |ys|
  {
    if |ys| > 0 {
      WithoutAbsent(ys[1..], x);
      assert ys == [ys[0]] + ys[1..];
    }
  }

  /** Removing duplicates twice is removing them once. */
  lemma DedupIdempotent<T(!new)>(xs: seq<T>)
    ensures Dedup(Dedup(xs)) == Dedup(xs)
  {
  }

  /** `[...new Set(xs)]`: the first occurrence of every element, in order. */
  function Dedup<T(==,!new)>(xs: seq<T>): (r: seq<T>)
    ensures forall y :: y in r <==> y in xs
    ensures NoDuplicates(r)
    ensures Subsequence(r, xs)
    ensures FirstOccurrenceOrder(r, xs)
    ensures NoDuplicates(xs) ==> r == xs
    decreases |xs|
  {
    if |xs| == 0 then []
    else
      var rest := Without(xs[1..], xs[0]);
      var d := Dedup(rest);
      SubsequenceTransitive(d, rest, xs[1..]);
      assert xs[0] !in d;
      DedupOrder(xs, d);
      if NoDuplicates(xs) then
        WithoutAbsent(xs[1..], xs[0]);
        assert NoDuplicates(xs[1..]);
        [xs[0]] + d
      else
        [xs[0]] + d
  }

  /** The head's first occurrence comes first, and the rest keep their order after `Without`. */
  lemma DedupOrder<T(!new)>(xs: seq<T>, d: seq<T>)
    requires |xs| > 0
    requires forall y :: y in d <==> y in Without(xs[1..], xs[0])
    requires FirstOccurrenceOrder(d, Without(xs[1..], xs[0]))
    ensures FirstOccurrenceOrder([xs[0]] + d, xs)
  {
    var r := [xs[0]] + d;
    forall i, j | 0 <= i < j < |r|
      ensures InFirstOccurrenceOrder(r, xs, i, j)
    {
      DedupPair(xs, d, i, j);
    }
  }

  /** One pair of positions of the deduplicated list, as `DedupOrder` states for all. */
  lemma DedupPair<T(!new)>(xs: seq<T>, d: seq<T>, i: nat, j: nat)
    requires |xs| > 0 && i < j <= |d|
    requires forall y :: y in d <==> y in Without(xs[1..], xs[0])
    requires FirstOccurrenceOrder(d, Without(xs[1..], xs[0]))
    ensures InFirstOccurrenceOrder([xs[0]] + d, xs, i, j)
  {
    var r := [xs[0]] + d;
    var y, z := r[i], r[j];
    assert z == d[j - 1] && z in Without(xs[1..], xs[0]);
    if i > 0 {
      assert y == d[i - 1];
      assert InFirstOccurrenceOrder(d, Without(xs[1..], xs[0]), i - 1, j - 1);
    } else {
      assert y == xs[0];
    }
    KeptPair(xs, y, z);
  }

  /**
   * Two elements kept by `Without(xs[1..], xs[0])` keep their order in `xs`, and the head
   * comes before every kept element.
   */
  lemma KeptPair<T(!new)>(xs: seq<T>, y: T, z: T)
    requires |xs| > 0 && z in Without(xs[1..], xs[0])
    requires y == xs[0] || (y in Without(xs[1..], xs[0]) &&
      FirstIndex(Without(xs[1..], xs[0]), y) < FirstIndex(Without(xs[1..], xs[0]), z))
    ensures y in xs && z in xs && FirstIndex(xs, y) < FirstIndex(xs, z)
  {
    InTail(xs, z);
    if y != xs[0] {
      InTail(xs, y);
      WithoutKeepsOrder(xs[1..], xs[0], y, z);
    }
  }

  /** An element of the tail other than the head is first found one place later in the whole. */
  lemma InTail<T>(xs: seq<T>, y: T)
    requires |xs| > 0 && y in xs[1..] && y != xs[0]
    ensures y in xs && FirstIndex(xs, y) == 1 + FirstIndex(xs[1..], y)
  {
    assert xs == [xs[0]] + xs[1..];
  }

  /** `xs.slice(0, n)`. */
  function Take<T>(xs: seq<T>, n: nat): (r: seq<T>)
    ensures |r| == if |xs| < n then |xs| else n
    ensures r == xs[..|r|]
  {
    if |xs| <= n then xs else xs[..n]
  }

  // ---------------------------------------------------------------------------------------
  // Section keywords

  const ExperienceSections: seq<string> := [
    "experience", "work experience", "professional experience", "employment", "work history",
    "career history", "professional background", "employment history"]
  const SkillsSections: seq<string> := [
    "skills", "technical skills", "core competencies", "expertise", "proficiencies",
    "technologies", "programming languages", "tools", "frameworks"]
  const EducationSections: seq<string> := [
    "education", "academic background", "qualifications", "degrees", "certifications",
    "certificates", "training", "coursework"]
  const ProjectSections: seq<string> := [
    "projects", "personal projects", "key projects", "notable projects", "portfolio",
    "achievements", "accomplishments", "highlights"]
  const SummarySections: seq<string> := [
    "summary", "profile", "objective", "about", "overview", "professional summary",
    "career objective", "personal statement"]

  /** The 41 resume section indicators, in the order the count visits them. */
  const ResumeSections: seq<string> :=
    ExperienceSections + SkillsSections + EducationSections + ProjectSections + SummarySections

  /** The number of indicators that are substrings of the lower-cased text. */
  function SectionCount(text: string): nat {
    |IncludedKeys(Lower(text), ResumeSections)|
  }

  /** What the four regular-expression tests of the detector found in the text. */
  datatype Signals = Signals(hasEmail: bool, hasPhone: bool, hasYears: bool, hasTechTerms: bool) {
    predicate Any() {
      hasEmail || hasPhone || hasYears || hasTechTerms
    }
  }

  /**
   * The detector: at least two indicators, or one indicator together with an email, a
   * phone number, a year or a technical term.
   */
  predicate IsResumeDocument(text: string, signals: Signals) {
    SectionCount(text) >= 2 || (SectionCount(text) >= 1 && signals.Any())
  }

  /** The count is zero exactly when no indicator occurs in the lower-cased text. */
  lemma ZeroSectionsIff(text: string)
    ensures SectionCount(text) == 0 <==> forall k :: k in ResumeSections ==> !Includes(Lower(text), k)
  {
    var r := IncludedKeys(Lower(text), ResumeSections);
    if |r| > 0 {
      assert r[0] in r;
    }
  }

  /** Without a single indicator a text is never a resume, whatever the other signals say. */
  lemma NoSectionNoResume(text: string, signals: Signals)
    requires forall k :: k in ResumeSections ==> !Includes(Lower(text), k)
    ensures !IsResumeDocument(text, signals)
  {
    ZeroSectionsIff(text);
  }

  lemma TwoKeysIncluded(hay: string, keys: seq<string>, a: string, b: string)
    requires a in keys && b in keys && a != b && Includes(hay, a) && Includes(hay, b)
    ensures |IncludedKeys(hay, keys)| >= 2
  {
    var r := IncludedKeys(hay, keys);
    assert a in r && b in r;
  }

  /** Two different indicators make a resume on their own, without any other signal. */
  lemma TwoSectionsSuffice(text: string, signals: Signals, a: string, b: string)
    requires a in ResumeSections && b in ResumeSections && a != b
    requires Includes(Lower(text), a) && Includes(Lower(text), b)
    ensures IsResumeDocument(text, signals)
  {
    TwoKeysIncluded(Lower(text), ResumeSections, a, b);
  }

  /** One indicator makes a resume exactly when one of the other signals holds. */
  lemma OneSectionNeedsSignal(text: string, signals: Signals)
    requires SectionCount(text) == 1
    ensures IsResumeDocument(text, signals) <==> signals.Any()
  {
  }

  /**
   * Overlapping indicators count separately: a text containing "work experience" also
   * contains "experience", and is a resume with no other signal.
   */
  lemma WorkExperienceIsResume(text: string, signals: Signals)
    requires Includes(Lower(text), "work experience")
    ensures IsResumeDocument(text, signals)
  {
    var w := "work experience";
    assert SliceAt(w, "experience", 5) by {
      assert w[5..15] == "experience";
    }
    IncludesTransitive(Lower(text), w, "experience");
    assert ExperienceSections[0] == "experience" && ExperienceSections[1] == w;
    assert "experience" in ResumeSections && w in ResumeSections;
    TwoSectionsSuffice(text, signals, "experience", w);
  }

  // ---------------------------------------------------------------------------------------
  // Technologies

  const TechKeywords: seq<string> := [
    "javascript", "typescript", "python", "java", "c++", "c#", "php", "ruby", "go", "rust",
    "react", "angular", "vue", "svelte", "next.js", "nuxt.js",
    "node.js", "express", "django", "flask", "spring", "laravel",
    "html", "css", "sass", "scss", "tailwind",
    "mongodb", "postgresql", "mysql", "redis", "elasticsearch",
    "aws", "azure", "gcp", "docker", "kubernetes", "jenkins",
    "git", "github", "gitlab", "bitbucket",
    "graphql", "rest", "api", "microservices",
    "tensorflow", "pytorch", "machine learning", "ai"]

  /**
   * The technologies named in the text: exactly the keywords that are substrings of the
   * lower-cased text, each once, in keyword-list order.
   */
  function ExtractTechnologies(text: string): (r: seq<string>)
    ensures forall k :: k in r <==> k in TechKeywords && Includes(Lower(text), k)
    ensures NoDuplicates(r)
    ensures Subsequence(r, TechKeywords)
  {
    var found := IncludedKeys(Lower(text), TechKeywords);
    SubsequenceTransitive(Dedup(found), found, TechKeywords);
    Dedup(found)
  }

  // ---------------------------------------------------------------------------------------
  // Skills, experience and projects

  /** The characters the skills section is split on: comma, bullet, newline, carriage return. */
  const SkillDelimiters: set<char> := {',', '•', '\n', '\r'}

  /** The length filter of the skills list, on JavaScript's `length` in UTF-16 code units. */
  predicate IsSkillLength(s: string) {
    2 < JsLength(s) < 50
  }

  function TrimAll(xs: seq<string>): (r: seq<string>)
    ensures |r| == |xs|
    ensures forall i :: 0 <= i < |xs| ==> r[i] == Trim(xs[i])
    decreases |xs|
  {
    if |xs| == 0 then [] else [Trim(xs[0])] + TrimAll(xs[1..])
  }

  /**
   * `filter` by length: the entries of acceptable length, in order, each as often as it
   * occurs in `xs`, and nothing else.
   */
  function KeepSkillLength(xs: seq<string>): (r: seq<string>)
    ensures forall s :: s in r <==> s in xs && IsSkillLength(s)
    ensures forall s :: multiset(r)[s] == if IsSkillLength(s) then multiset(xs)[s] else 0
    ensures Subsequence(r, xs)
    decreases |xs|
  {
    if |xs| == 0 then []
    else
      var rest := KeepSkillLength(xs[1..]);
      assert xs == [xs[0]] + xs[1..];
      if IsSkillLength(xs[0]) then [xs[0]] + rest else rest
  }

  /** The trimmed pieces of a skills section that have an acceptable length, in order. */
  function SkillCandidates(body: string): seq<string> {
    KeepSkillLength(TrimAll(Split(body, SkillDelimiters)))
  }

  /**
   * The skills list, given the text the skills-section finder captured (`None` when it
   * found no section): the first twenty trimmed pieces of the section that are three to
   * forty-nine code units long, in the order they appear.
   */
  function ExtractSkills(section: Option<string>): (r: seq<string>)
    ensures section.None? ==> r == []
    ensures section.Some? ==>
      var q := SkillCandidates(section.value);
      |r| == (if |q| < 20 then |q| else 20) && r == q[..|r|]
    ensures |r| <= 20
    ensures forall s :: s in r ==> IsSkillLength(s) && Trim(s) == s
    ensures section.Some? ==> forall s :: s in r ==> s in TrimAll(Split(section.value, SkillDelimiters))
  {
    match section
    case None => []
    case Some(body) =>
      var pieces := Split(body, SkillDelimiters);
      var trimmed := TrimAll(pieces);
      var kept := KeepSkillLength(trimmed);
      var r := Take(kept, 20);
      assert forall s :: s in r ==> s in kept;
      TrimAllTrimmed(pieces);
      r
  }

  /** Every entry of a trimmed list is already trimmed. */
  lemma TrimAllTrimmed(xs: seq<string>)
    ensures forall s :: s in TrimAll(xs) ==> Trim(s) == s
  {
    forall s | s in TrimAll(xs) ensures Trim(s) == s {
      var i :| 0 <= i < |xs| && TrimAll(xs)[i] == s;
      TrimIdempotent(xs[i]);
    }
  }

  /**
   * When the section yields at most twenty acceptable pieces, none is lost: every piece of
   * acceptable length after trimming is in the skills list.
   */
  lemma SkillsComplete(body: string, p: string)
    requires |SkillCandidates(body)| <= 20
    requires p in Split(body, SkillDelimiters) && IsSkillLength(Trim(p))
    ensures Trim(p) in ExtractSkills(Some(body))
  {
    AllCandidatesKept(body);
    CandidateOfPiece(body, p);
  }

  /** With at most twenty candidates, the skills list is all of them. */
  lemma AllCandidatesKept(body: string)
    requires |SkillCandidates(body)| <= 20
    ensures ExtractSkills(Some(body)) == SkillCandidates(body)
  {
    var q := SkillCandidates(body);
    assert q[..|q|] == q;
  }

  /** A piece of acceptable length after trimming is among the skill candidates. */
  lemma CandidateOfPiece(body: string, p: string)
    requires p in Split(body, SkillDelimiters) && IsSkillLength(Trim(p))
    ensures Trim(p) in SkillCandidates(body)
  {
    var pieces := Split(body, SkillDelimiters);
    var i :| 0 <= i < |pieces| && pieces[i] == p;
    var trimmed := TrimAll(pieces);
    assert trimmed[i] == Trim(p);
    assert Trim(p) in KeepSkillLength(trimmed);
  }

  /** The experience list: the first ten job-title matches of the experience section. */
  function ExtractExperience(jobTitles: seq<string>): (r: seq<string>)
    ensures |r| <= 10
    ensures |jobTitles| <= 10 ==> r == jobTitles
    ensures |jobTitles| > 10 ==> |r| == 10 && forall i :: 0 <= i < 10 ==> r[i] == jobTitles[i]
  {
    Take(jobTitles, 10)
  }

  /** The bullet characters a project line may start with. */
  const Bullets: set<char> := {'•', '-', '*'}

  /** Drops one leading bullet character, if there is one. */
  function StripBullet(p: string): (u: string)
    ensures |u| <= |p| && u == p[|p| - |u|..]
  {
    if |p| > 0 && p[0] in Bullets then p[1..] else p
  }

  lemma SuffixIncluded(p: string, n: nat)
    requires n <= |p|
    ensures Includes(p, p[n..])
  {
    assert SliceAt(p, p[n..], n);
  }

  /** The clean-up of a project line: an optional leading bullet dropped, then trimmed. */
  function CleanProjectLine(p: string): (r: string)
    ensures Trim(r) == r
    ensures Includes(p, r)
  {
    var u := StripBullet(p);
    TrimIdempotent(u);
    TrimShape(u);
    SuffixIncluded(p, |p| - |u|);
    IncludesTransitive(p, u, Trim(u));
    Trim(u)
  }

  function CleanAll(ps: seq<string>): (r: seq<string>)
    ensures |r| == |ps|
    ensures forall i :: 0 <= i < |ps| ==> r[i] == CleanProjectLine(ps[i])
    decreases |ps|
  {
    if |ps| == 0 then [] else [CleanProjectLine(ps[0])] + CleanAll(ps[1..])
  }

  /**
   * The projects list, given the project-line matches of the projects section: at most
   * ten lines, each the corresponding match without its bullet and trimmed.
   */
  function ExtractProjects(lines: seq<string>): (r: seq<string>)
    ensures |r| == if |lines| < 10 then |lines| else 10
    ensures forall i :: 0 <= i < |r| ==> r[i] == CleanProjectLine(lines[i])
    ensures forall i :: 0 <= i < |r| ==> Trim(r[i]) == r[i] && Includes(lines[i], r[i])
  {
    var r := Take(CleanAll(lines), 10);
    assert forall i :: 0 <= i < |r| ==> r[i] == CleanProjectLine(lines[i]);
    r
  }

  // ---------------------------------------------------------------------------------------
  // The extracted record and the entry point

  /**
   * What the regular expressions found in a text: all matches of the name, email and phone
   * patterns, the four detector signals, the text the skills-section finder captured, and
   * the job-title and project-line matches of the experience and projects sections (empty
   * when the section is not found).
   */
  datatype Matches = Matches(
    names: seq<string>,
    emails: seq<string>,
    phones: seq<string>,
    signals: Signals,
    skillsSection: Option<string>,
    jobTitles: seq<string>,
    projectLines: seq<string>)

  datatype ExtractedInfo = ExtractedInfo(
    name: Option<string>,
    email: Option<string>,
    phone: Option<string>,
    text: string,
    skills: seq<string>,
    experience: seq<string>,
    projects: seq<string>,
    technologies: seq<string>,
    isValidResume: bool)

  /** `matches?.[0]?.trim()`: the first match trimmed, absent when there is none. */
  function FirstTrimmed(matches: seq<string>): (r: Option<string>)
    ensures r.None? <==> |matches| == 0
    ensures r.Some? ==> r.value == Trim(matches[0])
  {
    if |matches| == 0 then None else Some(Trim(matches[0]))
  }

  function ExtractResumeInfo(text: string, m: Matches): (info: ExtractedInfo)
    ensures info.text == Trim(text)
    ensures info.name == FirstTrimmed(m.names)
    ensures info.email == FirstTrimmed(m.emails)
    ensures info.phone == FirstTrimmed(m.phones)
    ensures info.isValidResume <==> IsResumeDocument(text, m.signals)
    ensures info.technologies == ExtractTechnologies(text)
    ensures info.skills == ExtractSkills(m.skillsSection)
    ensures info.experience == ExtractExperience(m.jobTitles)
    ensures info.projects == ExtractProjects(m.projectLines)
    ensures |info.skills| <= 20 && |info.experience| <= 10 && |info.projects| <= 10
  {
    var skills := ExtractSkills(m.skillsSection);
    var experience := ExtractExperience(m.jobTitles);
    var projects := ExtractProjects(m.projectLines);
    assert |skills| <= 20 && |experience| <= 10 && |projects| <= 10;
    ExtractedInfo(
      FirstTrimmed(m.names), FirstTrimmed(m.emails), FirstTrimmed(m.phones), Trim(text),
      skills, experience, projects, ExtractTechnologies(text),
      IsResumeDocument(text, m.signals))
  }

  const PdfType := "application/pdf"
  const DocxType := "application/vnd.openxmlformats-officedocument.wordprocessingml.document"

  const UnsupportedFormat := "Unsupported file format. Please upload PDF or DOCX files only."
  const NotAResume := "This document does not appear to be a resume. Please upload a valid resume with sections like Experience, Skills, or Projects."

  /** The outcome of `parseResume`: the extracted record, or the message of the error it throws. */
  datatype ParseOutcome = Parsed(info: ExtractedInfo) | Rejected(message: string)

  /**
   * `parseResume` on a file of MIME type `mimeType`. The PDF and DOCX text extraction is
   * not modelled: `text` is what it produced.
   */
  function ParseResume(mimeType: string, text: string, m: Matches): (r: ParseOutcome)
    ensures mimeType != PdfType && mimeType != DocxType ==> r == Rejected(UnsupportedFormat)
    ensures r.Parsed? ==> r.info.isValidResume && r.info.text == Trim(text)
    ensures r.Parsed? ==> r.info == ExtractResumeInfo(text, m)
    ensures (mimeType == PdfType || mimeType == DocxType) ==>
      (r.Parsed? <==> IsResumeDocument(text, m.signals)) &&
      (r.Rejected? ==> r.message == NotAResume)
  {
    if mimeType != PdfType && mimeType != DocxType then Rejected(UnsupportedFormat)
    else
      var info := ExtractResumeInfo(text, m);
      if !info.isValidResume then Rejected(NotAResume) else Parsed(info)
  }
}
