/**
 * The resume-detection test utility: its five sample documents, the detector's verdict on
 * each, and the tally of passed and failed cases it reports.
 *
 * Each document is written line by line, each line cut into pieces, and its text is the
 * pieces joined. The cuts change nothing in the text; they only serve the proofs that the
 * recipe and the news article contain no section indicator.
 */
module ResumeFixtures {
  import opened Text
  import opened ResumeParser

  // ---------------------------------------------------------------------------------------
  // Documents

  /** The pieces of one line, joined. */
  function Concat(ps: seq<string>): (r: string)
    ensures |ps| == 1 ==> r == ps[0]
    decreases |ps|
  {
    if |ps| == 0 then "" else
      var rest := Concat(ps[1..]);
      assert |ps| == 1 ==> ps[0] + rest == ps[0];
      ps[0] + rest
  }

  /** The lines of a document, joined. */
  function Assemble(lines: seq<seq<string>>): string
    decreases |lines|
  {
    if |lines| == 0 then "" else Concat(lines[0]) + Assemble(lines[1..])
  }

  /** The first valid resume: contact details and five sections. */
  const ValidResume1: seq<seq<string>> := [
    ["\n"],
    ["        John Doe\n"],
    ["        john.doe@email.com\n"],
    ["        (555) 123-4567\n"],
    ["        \n"],
    ["        PROFESSIONAL SUMMARY\n"],
    ["        Full Stack Developer with 5 years of experience\n"],
    ["        \n"],
    ["        TECHNICAL SKILLS\n"],
    ["        JavaScript, React, Node.js, Python, SQL, MongoDB\n"],
    ["        \n"],
    ["        WORK EXPERIENCE\n"],
    ["        Senior Software Engineer - Tech Corp (2020-2023)\n"],
    ["        - Developed web applications using React and Node.js\n"],
    ["        - Managed database systems and API integrations\n"],
    ["        \n"],
    ["        PROJECTS\n"],
    ["        E-commerce Platform - Built using React and Express\n"],
    ["        Task Management App - Full stack application\n"],
    ["        \n"],
    ["        EDUCATION\n"],
    ["        Bachelor of Computer Science - University (2018)\n"],
    ["      "]
  ]

  /** The second valid resume: experience, skills and achievements. */
  const ValidResume2: seq<seq<string>> := [
    ["\n"],
    ["        Jane Smith\n"],
    ["        jane@example.com\n"],
    ["        \n"],
    ["        EXPERIENCE\n"],
    ["        Frontend Developer at StartupXYZ\n"],
    ["        Backend Developer at BigCorp\n"],
    ["        \n"],
    ["        SKILLS\n"],
    ["        React, Vue.js, TypeScript, Docker, AWS\n"],
    ["        \n"],
    ["        ACHIEVEMENTS\n"],
    ["        Led team of 5 developers\n"],
    ["        Increased performance by 40%\n"],
    ["      "]
  ]

  /** A cookie recipe, which must not pass for a resume. */
  const Recipe: seq<seq<string>> := [
    ["\n"],
    ["        ", "Chocolate ", "Chip Cookies ", "Recipe\n"],
    ["        \n"],
    ["        ", "INGREDIENTS\n"],
    ["        2 ", "cups ", "flour\n"],
    ["        1 cup ", "sugar\n"],
    ["        1/2 ", "cup butter\n"],
    ["        2 ", "eggs\n"],
    ["        \n"],
    ["        ", "INSTRUCTIONS\n"],
    ["        1. ", "Preheat ", "oven to 350\U{00B0}F\n"],
    ["        2. ", "Mix dry ", "ingredients\n"],
    ["        3. ", "Add wet ", "ingredients\n"],
    ["        4. ", "Bake for 12 ", "minutes\n"],
    ["      "]
  ]

  /** A news article about technology, which must not pass for a resume either. */
  const News: seq<seq<string>> := [
    ["\n"],
    ["        ", "Breaking ", "News: ", "Technology ", "Advances\n"],
    ["        \n"],
    ["        In ", "recent ", "developments, ", "artificial ", "intelligence ", "has made ", "significant ", "strides.\n"],
    ["        ", "Companies ", "are ", "investing ", "heavily in ", "machine ", "learning and ", "automation.\n"],
    ["        \n"],
    ["        The ", "market ", "has responded ", "positively to ", "these ", "innovations.\n"],
    ["        ", "Experts ", "predict ", "continued ", "growth in the ", "tech sector.\n"],
    ["      "]
  ]

  /** The edge case: a minimal resume with only experience and skills. */
  const MinimalResume: seq<seq<string>> := [
    ["\n"],
    ["        Bob Johnson\n"],
    ["        bob@email.com\n"],
    ["        \n"],
    ["        EXPERIENCE\n"],
    ["        Software Developer - 2 years\n"],
    ["        \n"],
    ["        SKILLS\n"],
    ["        JavaScript, HTML, CSS\n"],
    ["      "]
  ]

  // ---------------------------------------------------------------------------------------
  // The three resumes

  /** A substring of one line, lower-cased, is a substring of the whole lower-cased document. */
  lemma {:induction false} LineIncluded(lines: seq<seq<string>>, i: nat, needle: string)
    requires i < |lines| && Includes(Lower(Concat(lines[i])), needle)
    ensures Includes(Lower(Assemble(lines)), needle)
    decreases i
  {
    var head := Lower(Concat(lines[0]));
    var rest := Lower(Assemble(lines[1..]));
    LowerAppend(Concat(lines[0]), Assemble(lines[1..]));
    if i == 0 {
      IncludesWithin("", head, rest, needle);
      assert "" + head + rest == head + rest;
    } else {
      LineIncluded(lines[1..], i - 1, needle);
      IncludesWithin(head, rest, "", needle);
      assert head + rest + "" == head + rest;
    }
  }

  /** An indicator written on a line of its own, at column `k`, in any case. */
  lemma IndicatorOnLine(lines: seq<seq<string>>, i: nat, needle: string, k: nat)
    requires i < |lines| && |lines[i]| == 1 && SliceAt(Lower(lines[i][0]), needle, k)
    ensures Includes(Lower(Assemble(lines)), needle)
  {
    LineIncluded(lines, i, needle);
  }

  /** The experience and skills headings are two indicators. */
  lemma ExperienceAndSkills(t: string, signals: Signals)
    requires Includes(Lower(t), "experience") && Includes(Lower(t), "skills")
    ensures IsResumeDocument(t, signals)
  {
    assert ExperienceSections[0] == "experience" && SkillsSections[0] == "skills";
    TwoSectionsSuffice(t, signals, "experience", "skills");
  }

  /** So are the summary and experience headings. */
  lemma SummaryAndExperience(t: string, signals: Signals)
    requires Includes(Lower(t), "summary") && Includes(Lower(t), "experience")
    ensures IsResumeDocument(t, signals)
  {
    assert ExperienceSections[0] == "experience" && SummarySections[0] == "summary";
    TwoSectionsSuffice(t, signals, "summary", "experience");
  }

  lemma ValidResume1HasSummary()
    ensures Includes(Lower(Assemble(ValidResume1)), "summary")
  {
    IndicatorOnLine(ValidResume1, 5, "summary", 21);
  }

  lemma ValidResume1HasExperience()
    ensures Includes(Lower(Assemble(ValidResume1)), "experience")
  {
    IndicatorOnLine(ValidResume1, 11, "experience", 13);
  }

  /** The first resume is recognised whatever the regular expressions find: its summary and experience headings are two indicators. */
  lemma ValidResume1IsResume(signals: Signals)
    ensures IsResumeDocument(Assemble(ValidResume1), signals)
  {
    ValidResume1HasSummary();
    ValidResume1HasExperience();
    SummaryAndExperience(Assemble(ValidResume1), signals);
  }

  lemma ValidResume2HasExperience()
    ensures Includes(Lower(Assemble(ValidResume2)), "experience")
  {
    IndicatorOnLine(ValidResume2, 4, "experience", 8);
  }

  lemma ValidResume2HasSkills()
    ensures Includes(Lower(Assemble(ValidResume2)), "skills")
  {
    IndicatorOnLine(ValidResume2, 8, "skills", 8);
  }

  /** The second resume is recognised on its experience and skills headings alone. */
  lemma ValidResume2IsResume(signals: Signals)
    ensures IsResumeDocument(Assemble(ValidResume2), signals)
  {
    ValidResume2HasExperience();
    ValidResume2HasSkills();
    ExperienceAndSkills(Assemble(ValidResume2), signals);
  }

  lemma MinimalResumeHasExperience()
    ensures Includes(Lower(Assemble(MinimalResume)), "experience")
  {
    IndicatorOnLine(MinimalResume, 4, "experience", 8);
  }

  lemma MinimalResumeHasSkills()
    ensures Includes(Lower(Assemble(MinimalResume)), "skills")
  {
    IndicatorOnLine(MinimalResume, 7, "skills", 8);
  }

  /** So is the minimal resume. */
  lemma MinimalResumeIsResume(signals: Signals)
    ensures IsResumeDocument(Assemble(MinimalResume), signals)
  {
    MinimalResumeHasExperience();
    MinimalResumeHasSkills();
    ExperienceAndSkills(Assemble(MinimalResume), signals);
  }


  // ---------------------------------------------------------------------------------------
  // The recipe and the news article
  //
  // Every indicator contains one of thirty "core" words without spaces: the indicator
  // itself, or one word of a two-word indicator. Twelve "shields", small sets of letters
  // and letter pairs, are chosen so that every core word holds a member of every shield.
  // A piece of text that lacks every member of some shield (in either case) therefore
  // contains no core word. Every piece ends with a space, a newline or a comma, which no
  // core word contains, so no core word runs across two pieces either: the whole text
  // contains no core word, and so no indicator.

  /** No character at which the pieces are cut. */
  predicate SeparatorFree(w: string) {
    ' ' !in w && '\n' !in w && ',' !in w
  }

  /** A piece ends with a character at which the pieces are cut. */
  predicate Separated(p: string) {
    |p| > 0 && p[|p| - 1] in {' ', '\n', ','}
  }

  const ShieldCount: nat := 12

  /** The letters of each shield. */
  function ShieldLetters(i: nat): string
  {
    if i == 0 then "osx"
    else if i == 1 then "adijkl"
    else if i == 2 then "alop"
    else if i == 3 then "lrt"
    else if i == 4 then "belr"
    else if i == 5 then "bips"
    else if i == 6 then "apsv"
    else if i == 7 then "dimo"
    else if i == 8 then "aely"
    else if i == 9 then "gimtu"
    else if i == 10 then "airy"
    else if i == 11 then "bgnr"
    else ""
  }

  /** The letter pairs of each shield. */
  function ShieldPairs(i: nat): set<string>
  {
    if i == 0 then {"ra"}
    else if i == 2 then {"ee"}
    else if i == 10 then {"oo"}
    else if i == 11 then {"ls"}
    else {}
  }

  lemma LettersAreLower(i: nat, c: char)
    requires c in ShieldLetters(i)
    ensures 'a' <= c <= 'z'
  {
  }

  lemma PairsHaveTwo(i: nat, f: string)
    requires f in ShieldPairs(i)
    ensures |f| == 2
  {
  }

  /** `w` holds a letter or a letter pair of shield `i`. */
  ghost predicate Hits(w: string, i: nat) {
    || (exists c :: c in ShieldLetters(i) && c in w)
    || (exists f :: f in ShieldPairs(i) && Includes(w, f))
  }

  /** A core word: no cut character, and a member of every shield. */
  ghost predicate Guardable(w: string) {
    SeparatorFree(w) && forall i :: 0 <= i < ShieldCount ==> Hits(w, i)
  }

  /** The lower-cased text contains no core word. */
  ghost predicate Shielded(t: string) {
    forall w :: Guardable(w) ==> !Includes(Lower(t), w)
  }

  /** A piece, a line or a document that ends at a cut and contains no core word. */
  ghost predicate Clean(t: string) {
    Separated(t) && Shielded(t)
  }

  /** Piece `j` of a line is clean. */
  ghost predicate PieceClean(ps: seq<string>, j: nat) {
    j < |ps| && Clean(ps[j])
  }

  /** Line `i` of a document is clean. */
  ghost predicate LineClean(lines: seq<seq<string>>, i: nat) {
    i < |lines| && Clean(Concat(lines[i]))
  }

  /** Lower-cased, no character of `p` is among `letters`. */
  predicate AvoidsLetters(p: string, letters: string) {
    forall k :: 0 <= k < |p| ==> LowerChar(p[k]) !in letters
  }

  /** Lower-cased, no two adjacent characters of `p` form one of `pairs`. */
  predicate AvoidsPairs(p: string, pairs: set<string>) {
    forall k :: 0 <= k < |p| - 1 ==> [LowerChar(p[k]), LowerChar(p[k + 1])] !in pairs
  }

  /** A piece that lacks every member of a shield contains no core word. */
  lemma AvoidsShielded(p: string, i: nat)
    requires i < ShieldCount && AvoidsLetters(p, ShieldLetters(i)) && AvoidsPairs(p, ShieldPairs(i))
    ensures Shielded(p)
  {
    forall w | Guardable(w) ensures !Includes(Lower(p), w) {
      assert Hits(w, i);
      if c :| c in ShieldLetters(i) && c in w {
        var j :| 0 <= j < |w| && w[j] == c;
        LettersAreLower(i, c);
        assert c !in Lower(p);
        MissingChar(Lower(p), w, j);
      } else {
        var f :| f in ShieldPairs(i) && Includes(w, f);
        PairsHaveTwo(i, f);
        forall k | 0 <= k && k + 2 <= |p| ensures !SliceAt(Lower(p), f, k) {
          assert Lower(p)[k..k + 2] == [LowerChar(p[k]), LowerChar(p[k + 1])];
        }
        if Includes(Lower(p), w) {
          IncludesTransitive(Lower(p), w, f);
        }
      }
    }
  }

  /**
   * The same, with the shield's members spelled out at the call, so that the conditions on
   * the piece are evaluated on literal letters and pairs.
   */
  lemma Piece(p: string, i: nat, letters: string, pairs: set<string>)
    requires i < ShieldCount && letters == ShieldLetters(i) && pairs == ShieldPairs(i)
    requires Separated(p) && AvoidsLetters(p, letters) && AvoidsPairs(p, pairs)
    ensures Clean(p)
  {
    AvoidsShielded(p, i);
  }

  /** No core word runs across a cut. */
  lemma ShieldedAppend(a: string, b: string)
    requires Separated(a) && Shielded(a) && Separated(b) && Shielded(b)
    ensures Separated(a + b) && Shielded(a + b)
  {
    forall w | Guardable(w) ensures !Includes(Lower(a + b), w) {
      LowerAppend(a, b);
      assert Lower(a)[|a| - 1] == a[|a| - 1];
      IncludesAcrossSeparator(Lower(a), Lower(b), w);
    }
    assert (a + b)[|a + b| - 1] == b[|b| - 1];
  }

  lemma {:induction false} ShieldedConcat(ps: seq<string>)
    requires |ps| > 0
    requires forall j :: 0 <= j < |ps| ==> PieceClean(ps, j)
    ensures Clean(Concat(ps))
    decreases |ps|
  {
    assert PieceClean(ps, 0);
    if |ps| > 1 {
      assert forall j :: 0 <= j < |ps| - 1 ==> ps[1..][j] == ps[j + 1] && PieceClean(ps, j + 1);
      ShieldedConcat(ps[1..]);
      ShieldedAppend(ps[0], Concat(ps[1..]));
    }
  }

  lemma {:induction false} ShieldedAssemble(lines: seq<seq<string>>)
    requires |lines| > 0
    requires forall i :: 0 <= i < |lines| ==> LineClean(lines, i)
    ensures Shielded(Assemble(lines))
    decreases |lines|
  {
    assert LineClean(lines, 0);
    assert forall i :: 0 <= i < |lines| - 1 ==> lines[1..][i] == lines[i + 1] && LineClean(lines, i + 1);
    if |lines| == 1 {
      assert Assemble(lines) == Concat(lines[0]) + "";
      assert Concat(lines[0]) + "" == Concat(lines[0]);
    } else {
      ShieldedAssemble(lines[1..]);
      var rest := Assemble(lines[1..]);
      assert Separated(rest) by {
        SeparatedAssemble(lines[1..]);
      }
      ShieldedAppend(Concat(lines[0]), rest);
    }
  }

  lemma {:induction false} SeparatedAssemble(lines: seq<seq<string>>)
    requires |lines| > 0 && forall i :: 0 <= i < |lines| ==> LineClean(lines, i)
    ensures Separated(Assemble(lines))
    decreases |lines|
  {
    var head := Concat(lines[0]);
    var rest := Assemble(lines[1..]);
    assert LineClean(lines, 0);
    if |lines| == 1 {
      assert head + rest == head;
    } else {
      assert forall i :: 0 <= i < |lines| - 1 ==> lines[1..][i] == lines[i + 1] && LineClean(lines, i + 1);
      SeparatedAssemble(lines[1..]);
      assert (head + rest)[|head + rest| - 1] == rest[|rest| - 1];
    }
  }

  lemma HitLetter(w: string, i: nat, c: char)
    requires c in ShieldLetters(i) && c in w
    ensures Hits(w, i)
  {
  }

  lemma HitPair(w: string, i: nat, f: string, k: nat)
    requires f in ShieldPairs(i) && SliceAt(w, f, k)
    ensures Hits(w, i)
  {
  }

  /** An indicator with a core word inside it does not occur where the core word does not. */
  lemma WithinIndicator(t: string, before: string, w: string, after: string)
    requires Shielded(t) && Guardable(w)
    ensures !Includes(Lower(t), before + w + after)
  {
    if Includes(Lower(t), before + w + after) {
      assert SliceAt(w, w, 0);
      IncludesWithin(before, w, after, w);
      IncludesTransitive(Lower(t), before + w + after, w);
    }
  }

  // The core words, each holding a member of every shield. One lemma per word: a single lemma
  // quantified over a table of words makes the literal comparisons too costly for the solver.

  lemma GuardExperience()
    ensures Guardable("experience")
  {
    var w := "experience";
    forall i | 0 <= i < ShieldCount ensures Hits(w, i) {
      if i == 0 { HitLetter(w, i, 'x'); }
      else if i == 1 { HitLetter(w, i, 'i'); }
      else if i == 2 { HitLetter(w, i, 'p'); }
      else if i == 3 { HitLetter(w, i, 'r'); }
      else if i == 4 { HitLetter(w, i, 'e'); }
      else if i == 5 { HitLetter(w, i, 'i'); }
      else if i == 6 { HitLetter(w, i, 'p'); }
      else if i == 7 { HitLetter(w, i, 'i'); }
      else if i == 8 { HitLetter(w, i, 'e'); }
      else if i == 9 { HitLetter(w, i, 'i'); }
      else if i == 10 { HitLetter(w, i, 'i'); }
      else { HitLetter(w, i, 'n'); }
    }
  }

  lemma GuardEmployment()
    ensures Guardable("employment")
  {
    var w := "employment";
    forall i | 0 <= i < ShieldCount ensures Hits(w, i) {
      if i == 0 { HitLetter(w, i, 'o'); }
      else if i == 1 { HitLetter(w, i, 'l'); }
      else if i == 2 { HitLetter(w, i, 'l'); }
      else if i == 3 { HitLetter(w, i, 'l'); }
      else if i == 4 { HitLetter(w, i, 'e'); }
      else if i == 5 { HitLetter(w, i, 'p'); }
      else if i == 6 { HitLetter(w, i, 'p'); }
      else if i == 7 { HitLetter(w, i, 'm'); }
      else if i == 8 { HitLetter(w, i, 'e'); }
      else if i == 9 { HitLetter(w, i, 'm'); }
      else if i == 10 { HitLetter(w, i, 'y'); }
      else { HitLetter(w, i, 'n'); }
    }
  }

  lemma GuardHistory()
    ensures Guardable("history")
  {
    var w := "history";
    forall i | 0 <= i < ShieldCount ensures Hits(w, i) {
      if i == 0 { HitLetter(w, i, 'o'); }
      else if i == 1 { HitLetter(w, i, 'i'); }
      else if i == 2 { HitLetter(w, i, 'o'); }
      else if i == 3 { HitLetter(w, i, 'r'); }
      else if i == 4 { HitLetter(w, i, 'r'); }
      else if i == 5 { HitLetter(w, i, 'i'); }
      else if i == 6 { HitLetter(w, i, 's'); }
      else if i == 7 { HitLetter(w, i, 'i'); }
      else if i == 8 { HitLetter(w, i, 'y'); }
      else if i == 9 { HitLetter(w, i, 'i'); }
      else if i == 10 { HitLetter(w, i, 'i'); }
      else { HitLetter(w, i, 'r'); }
    }
  }

  lemma GuardBackground()
    ensures Guardable("background")
  {
    var w := "background";
    forall i | 0 <= i < ShieldCount ensures Hits(w, i) {
      if i == 0 { HitLetter(w, i, 'o'); }
      else if i == 1 { HitLetter(w, i, 'a'); }
      else if i == 2 { HitLetter(w, i, 'a'); }
      else if i == 3 { HitLetter(w, i, 'r'); }
      else if i == 4 { HitLetter(w, i, 'b'); }
      else if i == 5 { HitLetter(w, i, 'b'); }
      else if i == 6 { HitLetter(w, i, 'a'); }
      else if i == 7 { HitLetter(w, i, 'd'); }
      else if i == 8 { HitLetter(w, i, 'a'); }
      else if i == 9 { HitLetter(w, i, 'g'); }
      else if i == 10 { HitLetter(w, i, 'a'); }
      else { HitLetter(w, i, 'b'); }
    }
  }

  lemma GuardSkills()
    ensures Guardable("skills")
  {
    var w := "skills";
    forall i | 0 <= i < ShieldCount ensures Hits(w, i) {
      if i == 0 { HitLetter(w, i, 's'); }
      else if i == 1 { HitLetter(w, i, 'i'); }
      else if i == 2 { HitLetter(w, i, 'l'); }
      else if i == 3 { HitLetter(w, i, 'l'); }
      else if i == 4 { HitLetter(w, i, 'l'); }
      else if i == 5 { HitLetter(w, i, 'i'); }
      else if i == 6 { HitLetter(w, i, 's'); }
      else if i == 7 { HitLetter(w, i, 'i'); }
      else if i == 8 { HitLetter(w, i, 'l'); }
      else if i == 9 { HitLetter(w, i, 'i'); }
      else if i == 10 { HitLetter(w, i, 'i'); }
      else { HitPair(w, i, "ls", 4); }
    }
  }

  lemma GuardCompetencies()
    ensures Guardable("competencies")
  {
    var w := "competencies";
    forall i | 0 <= i < ShieldCount ensures Hits(w, i) {
      if i == 0 { HitLetter(w, i, 'o'); }
      else if i == 1 { HitLetter(w, i, 'i'); }
      else if i == 2 { HitLetter(w, i, 'o'); }
      else if i == 3 { HitLetter(w, i, 't'); }
      else if i == 4 { HitLetter(w, i, 'e'); }
      else if i == 5 { HitLetter(w, i, 'i'); }
      else if i == 6 { HitLetter(w, i, 'p'); }
      else if i == 7 { HitLetter(w, i, 'i'); }
      else if i == 8 { HitLetter(w, i, 'e'); }
      else if i == 9 { HitLetter(w, i, 'i'); }
      else if i == 10 { HitLetter(w, i, 'i'); }
      else { HitLetter(w, i, 'n'); }
    }
  }

  lemma GuardExpertise()
    ensures Guardable("expertise")
  {
    var w := "expertise";
    forall i | 0 <= i < ShieldCount ensures Hits(w, i) {
      if i == 0 { HitLetter(w, i, 's'); }
      else if i == 1 { HitLetter(w, i, 'i'); }
      else if i == 2 { HitLetter(w, i, 'p'); }
      else if i == 3 { HitLetter(w, i, 'r'); }
      else if i == 4 { HitLetter(w, i, 'e'); }
      else if i == 5 { HitLetter(w, i, 'i'); }
      else if i == 6 { HitLetter(w, i, 'p'); }
      else if i == 7 { HitLetter(w, i, 'i'); }
      else if i == 8 { HitLetter(w, i, 'e'); }
      else if i == 9 { HitLetter(w, i, 'i'); }
      else if i == 10 { HitLetter(w, i, 'i'); }
      else { HitLetter(w, i, 'r'); }
    }
  }

  lemma GuardProficiencies()
    ensures Guardable("proficiencies")
  {
    var w := "proficiencies";
    forall i | 0 <= i < ShieldCount ensures Hits(w, i) {
      if i == 0 { HitLetter(w, i, 'o'); }
      else if i == 1 { HitLetter(w, i, 'i'); }
      else if i == 2 { HitLetter(w, i, 'o'); }
      else if i == 3 { HitLetter(w, i, 'r'); }
      else if i == 4 { HitLetter(w, i, 'e'); }
      else if i == 5 { HitLetter(w, i, 'i'); }
      else if i == 6 { HitLetter(w, i, 'p'); }
      else if i == 7 { HitLetter(w, i, 'i'); }
      else if i == 8 { HitLetter(w, i, 'e'); }
      else if i == 9 { HitLetter(w, i, 'i'); }
      else if i == 10 { HitLetter(w, i, 'i'); }
      else { HitLetter(w, i, 'n'); }
    }
  }

  lemma GuardTechnologies()
    ensures Guardable("technologies")
  {
    var w := "technologies";
    forall i | 0 <= i < ShieldCount ensures Hits(w, i) {
      if i == 0 { HitLetter(w, i, 'o'); }
      else if i == 1 { HitLetter(w, i, 'i'); }
      else if i == 2 { HitLetter(w, i, 'l'); }
      else if i == 3 { HitLetter(w, i, 'l'); }
      else if i == 4 { HitLetter(w, i, 'e'); }
      else if i == 5 { HitLetter(w, i, 'i'); }
      else if i == 6 { HitLetter(w, i, 's'); }
      else if i == 7 { HitLetter(w, i, 'i'); }
      else if i == 8 { HitLetter(w, i, 'e'); }
      else if i == 9 { HitLetter(w, i, 'g'); }
      else if i == 10 { HitLetter(w, i, 'i'); }
      else { HitLetter(w, i, 'g'); }
    }
  }

  lemma GuardProgramming()
    ensures Guardable("programming")
  {
    var w := "programming";
    forall i | 0 <= i < ShieldCount ensures Hits(w, i) {
      if i == 0 { HitLetter(w, i, 'o'); }
      else if i == 1 { HitLetter(w, i, 'a'); }
      else if i == 2 { HitLetter(w, i, 'a'); }
      else if i == 3 { HitLetter(w, i, 'r'); }
      else if i == 4 { HitLetter(w, i, 'r'); }
      else if i == 5 { HitLetter(w, i, 'i'); }
      else if i == 6 { HitLetter(w, i, 'a'); }
      else if i == 7 { HitLetter(w, i, 'i'); }
      else if i == 8 { HitLetter(w, i, 'a'); }
      else if i == 9 { HitLetter(w, i, 'g'); }
      else if i == 10 { HitLetter(w, i, 'a'); }
      else { HitLetter(w, i, 'g'); }
    }
  }

  lemma GuardTools()
    ensures Guardable("tools")
  {
    var w := "tools";
    forall i | 0 <= i < ShieldCount ensures Hits(w, i) {
      if i == 0 { HitLetter(w, i, 'o'); }
      else if i == 1 { HitLetter(w, i, 'l'); }
      else if i == 2 { HitLetter(w, i, 'l'); }
      else if i == 3 { HitLetter(w, i, 'l'); }
      else if i == 4 { HitLetter(w, i, 'l'); }
      else if i == 5 { HitLetter(w, i, 's'); }
      else if i == 6 { HitLetter(w, i, 's'); }
      else if i == 7 { HitLetter(w, i, 'o'); }
      else if i == 8 { HitLetter(w, i, 'l'); }
      else if i == 9 { HitLetter(w, i, 't'); }
      else if i == 10 { HitPair(w, i, "oo", 1); }
      else { HitPair(w, i, "ls", 3); }
    }
  }

  lemma GuardFrameworks()
    ensures Guardable("frameworks")
  {
    var w := "frameworks";
    forall i | 0 <= i < ShieldCount ensures Hits(w, i) {
      if i == 0 { HitLetter(w, i, 'o'); }
      else if i == 1 { HitLetter(w, i, 'a'); }
      else if i == 2 { HitLetter(w, i, 'a'); }
      else if i == 3 { HitLetter(w, i, 'r'); }
      else if i == 4 { HitLetter(w, i, 'e'); }
      else if i == 5 { HitLetter(w, i, 's'); }
      else if i == 6 { HitLetter(w, i, 'a'); }
      else if i == 7 { HitLetter(w, i, 'm'); }
      else if i == 8 { HitLetter(w, i, 'a'); }
      else if i == 9 { HitLetter(w, i, 'm'); }
      else if i == 10 { HitLetter(w, i, 'a'); }
      else { HitLetter(w, i, 'r'); }
    }
  }

  lemma GuardEducation()
    ensures Guardable("education")
  {
    var w := "education";
    forall i | 0 <= i < ShieldCount ensures Hits(w, i) {
      if i == 0 { HitLetter(w, i, 'o'); }
      else if i == 1 { HitLetter(w, i, 'a'); }
      else if i == 2 { HitLetter(w, i, 'a'); }
      else if i == 3 { HitLetter(w, i, 't'); }
      else if i == 4 { HitLetter(w, i, 'e'); }
      else if i == 5 { HitLetter(w, i, 'i'); }
      else if i == 6 { HitLetter(w, i, 'a'); }
      else if i == 7 { HitLetter(w, i, 'd'); }
      else if i == 8 { HitLetter(w, i, 'a'); }
      else if i == 9 { HitLetter(w, i, 'i'); }
      else if i == 10 { HitLetter(w, i, 'a'); }
      else { HitLetter(w, i, 'n'); }
    }
  }

  lemma GuardQualifications()
    ensures Guardable("qualifications")
  {
    var w := "qualifications";
    forall i | 0 <= i < ShieldCount ensures Hits(w, i) {
      if i == 0 { HitLetter(w, i, 'o'); }
      else if i == 1 { HitLetter(w, i, 'a'); }
      else if i == 2 { HitLetter(w, i, 'a'); }
      else if i == 3 { HitLetter(w, i, 'l'); }
      else if i == 4 { HitLetter(w, i, 'l'); }
      else if i == 5 { HitLetter(w, i, 'i'); }
      else if i == 6 { HitLetter(w, i, 'a'); }
      else if i == 7 { HitLetter(w, i, 'i'); }
      else if i == 8 { HitLetter(w, i, 'a'); }
      else if i == 9 { HitLetter(w, i, 'i'); }
      else if i == 10 { HitLetter(w, i, 'a'); }
      else { HitLetter(w, i, 'n'); }
    }
  }

  lemma GuardDegrees()
    ensures Guardable("degrees")
  {
    var w := "degrees";
    forall i | 0 <= i < ShieldCount ensures Hits(w, i) {
      if i == 0 { HitLetter(w, i, 's'); }
      else if i == 1 { HitLetter(w, i, 'd'); }
      else if i == 2 { HitPair(w, i, "ee", 4); }
      else if i == 3 { HitLetter(w, i, 'r'); }
      else if i == 4 { HitLetter(w, i, 'e'); }
      else if i == 5 { HitLetter(w, i, 's'); }
      else if i == 6 { HitLetter(w, i, 's'); }
      else if i == 7 { HitLetter(w, i, 'd'); }
      else if i == 8 { HitLetter(w, i, 'e'); }
      else if i == 9 { HitLetter(w, i, 'g'); }
      else if i == 10 { HitLetter(w, i, 'r'); }
      else { HitLetter(w, i, 'g'); }
    }
  }

  lemma GuardCertifications()
    ensures Guardable("certifications")
  {
    var w := "certifications";
    forall i | 0 <= i < ShieldCount ensures Hits(w, i) {
      if i == 0 { HitLetter(w, i, 'o'); }
      else if i == 1 { HitLetter(w, i, 'a'); }
      else if i == 2 { HitLetter(w, i, 'a'); }
      else if i == 3 { HitLetter(w, i, 'r'); }
      else if i == 4 { HitLetter(w, i, 'e'); }
      else if i == 5 { HitLetter(w, i, 'i'); }
      else if i == 6 { HitLetter(w, i, 'a'); }
      else if i == 7 { HitLetter(w, i, 'i'); }
      else if i == 8 { HitLetter(w, i, 'a'); }
      else if i == 9 { HitLetter(w, i, 'i'); }
      else if i == 10 { HitLetter(w, i, 'a'); }
      else { HitLetter(w, i, 'n'); }
    }
  }

  lemma GuardCertificates()
    ensures Guardable("certificates")
  {
    var w := "certificates";
    forall i | 0 <= i < ShieldCount ensures Hits(w, i) {
      if i == 0 { HitLetter(w, i, 's'); }
      else if i == 1 { HitLetter(w, i, 'a'); }
      else if i == 2 { HitLetter(w, i, 'a'); }
      else if i == 3 { HitLetter(w, i, 'r'); }
      else if i == 4 { HitLetter(w, i, 'e'); }
      else if i == 5 { HitLetter(w, i, 'i'); }
      else if i == 6 { HitLetter(w, i, 'a'); }
      else if i == 7 { HitLetter(w, i, 'i'); }
      else if i == 8 { HitLetter(w, i, 'a'); }
      else if i == 9 { HitLetter(w, i, 'i'); }
      else if i == 10 { HitLetter(w, i, 'a'); }
      else { HitLetter(w, i, 'r'); }
    }
  }

  lemma GuardTraining()
    ensures Guardable("training")
  {
    var w := "training";
    forall i | 0 <= i < ShieldCount ensures Hits(w, i) {
      if i == 0 { HitPair(w, i, "ra", 1); }
      else if i == 1 { HitLetter(w, i, 'a'); }
      else if i == 2 { HitLetter(w, i, 'a'); }
      else if i == 3 { HitLetter(w, i, 'r'); }
      else if i == 4 { HitLetter(w, i, 'r'); }
      else if i == 5 { HitLetter(w, i, 'i'); }
      else if i == 6 { HitLetter(w, i, 'a'); }
      else if i == 7 { HitLetter(w, i, 'i'); }
      else if i == 8 { HitLetter(w, i, 'a'); }
      else if i == 9 { HitLetter(w, i, 'g'); }
      else if i == 10 { HitLetter(w, i, 'a'); }
      else { HitLetter(w, i, 'g'); }
    }
  }

  lemma GuardCoursework()
    ensures Guardable("coursework")
  {
    var w := "coursework";
    forall i | 0 <= i < ShieldCount ensures Hits(w, i) {
      if i == 0 { HitLetter(w, i, 'o'); }
      else if i == 1 { HitLetter(w, i, 'k'); }
      else if i == 2 { HitLetter(w, i, 'o'); }
      else if i == 3 { HitLetter(w, i, 'r'); }
      else if i == 4 { HitLetter(w, i, 'e'); }
      else if i == 5 { HitLetter(w, i, 's'); }
      else if i == 6 { HitLetter(w, i, 's'); }
      else if i == 7 { HitLetter(w, i, 'o'); }
      else if i == 8 { HitLetter(w, i, 'e'); }
      else if i == 9 { HitLetter(w, i, 'u'); }
      else if i == 10 { HitLetter(w, i, 'r'); }
      else { HitLetter(w, i, 'r'); }
    }
  }

  lemma GuardProjects()
    ensures Guardable("projects")
  {
    var w := "projects";
    forall i | 0 <= i < ShieldCount ensures Hits(w, i) {
      if i == 0 { HitLetter(w, i, 'o'); }
      else if i == 1 { HitLetter(w, i, 'j'); }
      else if i == 2 { HitLetter(w, i, 'o'); }
      else if i == 3 { HitLetter(w, i, 'r'); }
      else if i == 4 { HitLetter(w, i, 'e'); }
      else if i == 5 { HitLetter(w, i, 'p'); }
      else if i == 6 { HitLetter(w, i, 'p'); }
      else if i == 7 { HitLetter(w, i, 'o'); }
      else if i == 8 { HitLetter(w, i, 'e'); }
      else if i == 9 { HitLetter(w, i, 't'); }
      else if i == 10 { HitLetter(w, i, 'r'); }
      else { HitLetter(w, i, 'r'); }
    }
  }

  lemma GuardPortfolio()
    ensures Guardable("portfolio")
  {
    var w := "portfolio";
    forall i | 0 <= i < ShieldCount ensures Hits(w, i) {
      if i == 0 { HitLetter(w, i, 'o'); }
      else if i == 1 { HitLetter(w, i, 'i'); }
      else if i == 2 { HitLetter(w, i, 'l'); }
      else if i == 3 { HitLetter(w, i, 'l'); }
      else if i == 4 { HitLetter(w, i, 'l'); }
      else if i == 5 { HitLetter(w, i, 'i'); }
      else if i == 6 { HitLetter(w, i, 'p'); }
      else if i == 7 { HitLetter(w, i, 'i'); }
      else if i == 8 { HitLetter(w, i, 'l'); }
      else if i == 9 { HitLetter(w, i, 'i'); }
      else if i == 10 { HitLetter(w, i, 'i'); }
      else { HitLetter(w, i, 'r'); }
    }
  }

  lemma GuardAchievements()
    ensures Guardable("achievements")
  {
    var w := "achievements";
    forall i | 0 <= i < ShieldCount ensures Hits(w, i) {
      if i == 0 { HitLetter(w, i, 's'); }
      else if i == 1 { HitLetter(w, i, 'a'); }
      else if i == 2 { HitLetter(w, i, 'a'); }
      else if i == 3 { HitLetter(w, i, 't'); }
      else if i == 4 { HitLetter(w, i, 'e'); }
      else if i == 5 { HitLetter(w, i, 'i'); }
      else if i == 6 { HitLetter(w, i, 'a'); }
      else if i == 7 { HitLetter(w, i, 'i'); }
      else if i == 8 { HitLetter(w, i, 'a'); }
      else if i == 9 { HitLetter(w, i, 'i'); }
      else if i == 10 { HitLetter(w, i, 'a'); }
      else { HitLetter(w, i, 'n'); }
    }
  }

  lemma GuardAccomplishments()
    ensures Guardable("accomplishments")
  {
    var w := "accomplishments";
    forall i | 0 <= i < ShieldCount ensures Hits(w, i) {
      if i == 0 { HitLetter(w, i, 'o'); }
      else if i == 1 { HitLetter(w, i, 'a'); }
      else if i == 2 { HitLetter(w, i, 'a'); }
      else if i == 3 { HitLetter(w, i, 'l'); }
      else if i == 4 { HitLetter(w, i, 'e'); }
      else if i == 5 { HitLetter(w, i, 'i'); }
      else if i == 6 { HitLetter(w, i, 'a'); }
      else if i == 7 { HitLetter(w, i, 'i'); }
      else if i == 8 { HitLetter(w, i, 'a'); }
      else if i == 9 { HitLetter(w, i, 'i'); }
      else if i == 10 { HitLetter(w, i, 'a'); }
      else { HitLetter(w, i, 'n'); }
    }
  }

  lemma GuardHighlights()
    ensures Guardable("highlights")
  {
    var w := "highlights";
    forall i | 0 <= i < ShieldCount ensures Hits(w, i) {
      if i == 0 { HitLetter(w, i, 's'); }
      else if i == 1 { HitLetter(w, i, 'i'); }
      else if i == 2 { HitLetter(w, i, 'l'); }
      else if i == 3 { HitLetter(w, i, 'l'); }
      else if i == 4 { HitLetter(w, i, 'l'); }
      else if i == 5 { HitLetter(w, i, 'i'); }
      else if i == 6 { HitLetter(w, i, 's'); }
      else if i == 7 { HitLetter(w, i, 'i'); }
      else if i == 8 { HitLetter(w, i, 'l'); }
      else if i == 9 { HitLetter(w, i, 'g'); }
      else if i == 10 { HitLetter(w, i, 'i'); }
      else { HitLetter(w, i, 'g'); }
    }
  }

  lemma GuardSummary()
    ensures Guardable("summary")
  {
    var w := "summary";
    forall i | 0 <= i < ShieldCount ensures Hits(w, i) {
      if i == 0 { HitLetter(w, i, 's'); }
      else if i == 1 { HitLetter(w, i, 'a'); }
      else if i == 2 { HitLetter(w, i, 'a'); }
      else if i == 3 { HitLetter(w, i, 'r'); }
      else if i == 4 { HitLetter(w, i, 'r'); }
      else if i == 5 { HitLetter(w, i, 's'); }
      else if i == 6 { HitLetter(w, i, 'a'); }
      else if i == 7 { HitLetter(w, i, 'm'); }
      else if i == 8 { HitLetter(w, i, 'a'); }
      else if i == 9 { HitLetter(w, i, 'm'); }
      else if i == 10 { HitLetter(w, i, 'a'); }
      else { HitLetter(w, i, 'r'); }
    }
  }

  lemma GuardProfile()
    ensures Guardable("profile")
  {
    var w := "profile";
    forall i | 0 <= i < ShieldCount ensures Hits(w, i) {
      if i == 0 { HitLetter(w, i, 'o'); }
      else if i == 1 { HitLetter(w, i, 'i'); }
      else if i == 2 { HitLetter(w, i, 'l'); }
      else if i == 3 { HitLetter(w, i, 'l'); }
      else if i == 4 { HitLetter(w, i, 'e'); }
      else if i == 5 { HitLetter(w, i, 'i'); }
      else if i == 6 { HitLetter(w, i, 'p'); }
      else if i == 7 { HitLetter(w, i, 'i'); }
      else if i == 8 { HitLetter(w, i, 'e'); }
      else if i == 9 { HitLetter(w, i, 'i'); }
      else if i == 10 { HitLetter(w, i, 'i'); }
      else { HitLetter(w, i, 'r'); }
    }
  }

  lemma GuardObjective()
    ensures Guardable("objective")
  {
    var w := "objective";
    forall i | 0 <= i < ShieldCount ensures Hits(w, i) {
      if i == 0 { HitLetter(w, i, 'o'); }
      else if i == 1 { HitLetter(w, i, 'i'); }
      else if i == 2 { HitLetter(w, i, 'o'); }
      else if i == 3 { HitLetter(w, i, 't'); }
      else if i == 4 { HitLetter(w, i, 'b'); }
      else if i == 5 { HitLetter(w, i, 'b'); }
      else if i == 6 { HitLetter(w, i, 'v'); }
      else if i == 7 { HitLetter(w, i, 'i'); }
      else if i == 8 { HitLetter(w, i, 'e'); }
      else if i == 9 { HitLetter(w, i, 'i'); }
      else if i == 10 { HitLetter(w, i, 'i'); }
      else { HitLetter(w, i, 'b'); }
    }
  }

  lemma GuardAbout()
    ensures Guardable("about")
  {
    var w := "about";
    forall i | 0 <= i < ShieldCount ensures Hits(w, i) {
      if i == 0 { HitLetter(w, i, 'o'); }
      else if i == 1 { HitLetter(w, i, 'a'); }
      else if i == 2 { HitLetter(w, i, 'a'); }
      else if i == 3 { HitLetter(w, i, 't'); }
      else if i == 4 { HitLetter(w, i, 'b'); }
      else if i == 5 { HitLetter(w, i, 'b'); }
      else if i == 6 { HitLetter(w, i, 'a'); }
      else if i == 7 { HitLetter(w, i, 'o'); }
      else if i == 8 { HitLetter(w, i, 'a'); }
      else if i == 9 { HitLetter(w, i, 't'); }
      else if i == 10 { HitLetter(w, i, 'a'); }
      else { HitLetter(w, i, 'b'); }
    }
  }

  lemma GuardOverview()
    ensures Guardable("overview")
  {
    var w := "overview";
    forall i | 0 <= i < ShieldCount ensures Hits(w, i) {
      if i == 0 { HitLetter(w, i, 'o'); }
      else if i == 1 { HitLetter(w, i, 'i'); }
      else if i == 2 { HitLetter(w, i, 'o'); }
      else if i == 3 { HitLetter(w, i, 'r'); }
      else if i == 4 { HitLetter(w, i, 'e'); }
      else if i == 5 { HitLetter(w, i, 'i'); }
      else if i == 6 { HitLetter(w, i, 'v'); }
      else if i == 7 { HitLetter(w, i, 'i'); }
      else if i == 8 { HitLetter(w, i, 'e'); }
      else if i == 9 { HitLetter(w, i, 'i'); }
      else if i == 10 { HitLetter(w, i, 'i'); }
      else { HitLetter(w, i, 'r'); }
    }
  }

  lemma GuardStatement()
    ensures Guardable("statement")
  {
    var w := "statement";
    forall i | 0 <= i < ShieldCount ensures Hits(w, i) {
      if i == 0 { HitLetter(w, i, 's'); }
      else if i == 1 { HitLetter(w, i, 'a'); }
      else if i == 2 { HitLetter(w, i, 'a'); }
      else if i == 3 { HitLetter(w, i, 't'); }
      else if i == 4 { HitLetter(w, i, 'e'); }
      else if i == 5 { HitLetter(w, i, 's'); }
      else if i == 6 { HitLetter(w, i, 'a'); }
      else if i == 7 { HitLetter(w, i, 'm'); }
      else if i == 8 { HitLetter(w, i, 'a'); }
      else if i == 9 { HitLetter(w, i, 'm'); }
      else if i == 10 { HitLetter(w, i, 'a'); }
      else { HitLetter(w, i, 'n'); }
    }
  }

  // The compound indicators, each ruled out through the core word inside it. One lemma per
  // compound, for the same reason as the core words above.

  lemma NoWorkExperience(t: string)
    requires Shielded(t)
    ensures !Includes(Lower(t), "work experience")
  {
    GuardExperience();
    WithinIndicator(t, "work ", "experience", "");
    assert "work " + "experience" + "" == "work experience";
  }

  lemma NoProfessionalExperience(t: string)
    requires Shielded(t)
    ensures !Includes(Lower(t), "professional experience")
  {
    GuardExperience();
    WithinIndicator(t, "professional ", "experience", "");
    assert "professional " + "experience" + "" == "professional experience";
  }

  lemma NoWorkHistory(t: string)
    requires Shielded(t)
    ensures !Includes(Lower(t), "work history")
  {
    GuardHistory();
    WithinIndicator(t, "work ", "history", "");
    assert "work " + "history" + "" == "work history";
  }

  lemma NoCareerHistory(t: string)
    requires Shielded(t)
    ensures !Includes(Lower(t), "career history")
  {
    GuardHistory();
    WithinIndicator(t, "career ", "history", "");
    assert "career " + "history" + "" == "career history";
  }

  lemma NoProfessionalBackground(t: string)
    requires Shielded(t)
    ensures !Includes(Lower(t), "professional background")
  {
    GuardBackground();
    WithinIndicator(t, "professional ", "background", "");
    assert "professional " + "background" + "" == "professional background";
  }

  lemma NoEmploymentHistory(t: string)
    requires Shielded(t)
    ensures !Includes(Lower(t), "employment history")
  {
    GuardEmployment();
    WithinIndicator(t, "", "employment", " history");
    assert "" + "employment" + " history" == "employment history";
  }

  lemma NoExperienceIndicator(t: string)
    requires Shielded(t)
    ensures forall k :: k in ExperienceSections ==> !Includes(Lower(t), k)
  {
    forall j | 0 <= j < |ExperienceSections| ensures !Includes(Lower(t), ExperienceSections[j]) {
      if j == 0 { GuardExperience(); }
      else if j == 1 { NoWorkExperience(t); }
      else if j == 2 { NoProfessionalExperience(t); }
      else if j == 3 { GuardEmployment(); }
      else if j == 4 { NoWorkHistory(t); }
      else if j == 5 { NoCareerHistory(t); }
      else if j == 6 { NoProfessionalBackground(t); }
      else { NoEmploymentHistory(t); }
    }
  }

  lemma NoTechnicalSkills(t: string)
    requires Shielded(t)
    ensures !Includes(Lower(t), "technical skills")
  {
    GuardSkills();
    WithinIndicator(t, "technical ", "skills", "");
    assert "technical " + "skills" + "" == "technical skills";
  }

  lemma NoCoreCompetencies(t: string)
    requires Shielded(t)
    ensures !Includes(Lower(t), "core competencies")
  {
    GuardCompetencies();
    WithinIndicator(t, "core ", "competencies", "");
    assert "core " + "competencies" + "" == "core competencies";
  }

  lemma NoProgrammingLanguages(t: string)
    requires Shielded(t)
    ensures !Includes(Lower(t), "programming languages")
  {
    GuardProgramming();
    WithinIndicator(t, "", "programming", " languages");
    assert "" + "programming" + " languages" == "programming languages";
  }

  lemma NoSkillsIndicator(t: string)
    requires Shielded(t)
    ensures forall k :: k in SkillsSections ==> !Includes(Lower(t), k)
  {
    forall j | 0 <= j < |SkillsSections| ensures !Includes(Lower(t), SkillsSections[j]) {
      if j == 0 { GuardSkills(); }
      else if j == 1 { NoTechnicalSkills(t); }
      else if j == 2 { NoCoreCompetencies(t); }
      else if j == 3 { GuardExpertise(); }
      else if j == 4 { GuardProficiencies(); }
      else if j == 5 { GuardTechnologies(); }
      else if j == 6 { NoProgrammingLanguages(t); }
      else if j == 7 { GuardTools(); }
      else { GuardFrameworks(); }
    }
  }

  lemma NoAcademicBackground(t: string)
    requires Shielded(t)
    ensures !Includes(Lower(t), "academic background")
  {
    GuardBackground();
    WithinIndicator(t, "academic ", "background", "");
    assert "academic " + "background" + "" == "academic background";
  }

  lemma NoEducationIndicator(t: string)
    requires Shielded(t)
    ensures forall k :: k in EducationSections ==> !Includes(Lower(t), k)
  {
    forall j | 0 <= j < |EducationSections| ensures !Includes(Lower(t), EducationSections[j]) {
      if j == 0 { GuardEducation(); }
      else if j == 1 { NoAcademicBackground(t); }
      else if j == 2 { GuardQualifications(); }
      else if j == 3 { GuardDegrees(); }
      else if j == 4 { GuardCertifications(); }
      else if j == 5 { GuardCertificates(); }
      else if j == 6 { GuardTraining(); }
      else { GuardCoursework(); }
    }
  }

  lemma NoPersonalProjects(t: string)
    requires Shielded(t)
    ensures !Includes(Lower(t), "personal projects")
  {
    GuardProjects();
    WithinIndicator(t, "personal ", "projects", "");
    assert "personal " + "projects" + "" == "personal projects";
  }

  lemma NoKeyProjects(t: string)
    requires Shielded(t)
    ensures !Includes(Lower(t), "key projects")
  {
    GuardProjects();
    WithinIndicator(t, "key ", "projects", "");
    assert "key " + "projects" + "" == "key projects";
  }

  lemma NoNotableProjects(t: string)
    requires Shielded(t)
    ensures !Includes(Lower(t), "notable projects")
  {
    GuardProjects();
    WithinIndicator(t, "notable ", "projects", "");
    assert "notable " + "projects" + "" == "notable projects";
  }

  lemma NoProjectIndicator(t: string)
    requires Shielded(t)
    ensures forall k :: k in ProjectSections ==> !Includes(Lower(t), k)
  {
    forall j | 0 <= j < |ProjectSections| ensures !Includes(Lower(t), ProjectSections[j]) {
      if j == 0 { GuardProjects(); }
      else if j == 1 { NoPersonalProjects(t); }
      else if j == 2 { NoKeyProjects(t); }
      else if j == 3 { NoNotableProjects(t); }
      else if j == 4 { GuardPortfolio(); }
      else if j == 5 { GuardAchievements(); }
      else if j == 6 { GuardAccomplishments(); }
      else { GuardHighlights(); }
    }
  }

  lemma NoProfessionalSummary(t: string)
    requires Shielded(t)
    ensures !Includes(Lower(t), "professional summary")
  {
    GuardSummary();
    WithinIndicator(t, "professional ", "summary", "");
    assert "professional " + "summary" + "" == "professional summary";
  }

  lemma NoCareerObjective(t: string)
    requires Shielded(t)
    ensures !Includes(Lower(t), "career objective")
  {
    GuardObjective();
    WithinIndicator(t, "career ", "objective", "");
    assert "career " + "objective" + "" == "career objective";
  }

  lemma NoPersonalStatement(t: string)
    requires Shielded(t)
    ensures !Includes(Lower(t), "personal statement")
  {
    GuardStatement();
    WithinIndicator(t, "personal ", "statement", "");
    assert "personal " + "statement" + "" == "personal statement";
  }

  lemma NoSummaryIndicator(t: string)
    requires Shielded(t)
    ensures forall k :: k in SummarySections ==> !Includes(Lower(t), k)
  {
    forall j | 0 <= j < |SummarySections| ensures !Includes(Lower(t), SummarySections[j]) {
      if j == 0 { GuardSummary(); }
      else if j == 1 { GuardProfile(); }
      else if j == 2 { GuardObjective(); }
      else if j == 3 { GuardAbout(); }
      else if j == 4 { GuardOverview(); }
      else if j == 5 { NoProfessionalSummary(t); }
      else if j == 6 { NoCareerObjective(t); }
      else { NoPersonalStatement(t); }
    }
  }

  /** A text without core words contains none of the 41 indicators. */
  lemma ShieldedHasNoIndicator(t: string)
    requires Shielded(t)
    ensures forall k :: k in ResumeSections ==> !Includes(Lower(t), k)
  {
    NoExperienceIndicator(t); NoSkillsIndicator(t); NoEducationIndicator(t);
    NoProjectIndicator(t); NoSummaryIndicator(t);
  }

  lemma RecipeLine0()
    ensures LineClean(Recipe, 0)
  {
    Piece(Recipe[0][0], 3, "lrt", {});
    ShieldedConcat(Recipe[0]);
  }

  lemma Recipe1a()
    ensures PieceClean(Recipe[1], 0)
  {
    Piece(Recipe[1][0], 3, "lrt", {});
  }

  lemma Recipe1b()
    ensures PieceClean(Recipe[1], 1)
  {
    Piece(Recipe[1][1], 5, "bips", {});
  }

  lemma Recipe1c()
    ensures PieceClean(Recipe[1], 2)
  {
    Piece(Recipe[1][2], 3, "lrt", {});
  }

  lemma Recipe1d()
    ensures PieceClean(Recipe[1], 3)
  {
    Piece(Recipe[1][3], 0, "osx", {"ra"});
  }

  lemma RecipeLine1()
    ensures LineClean(Recipe, 1)
  {
    forall j | 0 <= j < |Recipe[1]| ensures PieceClean(Recipe[1], j) {
      if j == 0 { Recipe1a(); }
      else if j == 1 { Recipe1b(); }
      else if j == 2 { Recipe1c(); }
      else { Recipe1d(); }
    }
    ShieldedConcat(Recipe[1]);
  }

  lemma RecipeLine2()
    ensures LineClean(Recipe, 2)
  {
    Piece(Recipe[2][0], 3, "lrt", {});
    ShieldedConcat(Recipe[2]);
  }

  lemma Recipe3a()
    ensures PieceClean(Recipe[3], 0)
  {
    Piece(Recipe[3][0], 3, "lrt", {});
  }

  lemma Recipe3b()
    ensures PieceClean(Recipe[3], 1)
  {
    Piece(Recipe[3][1], 2, "alop", {"ee"});
  }

  lemma RecipeLine3()
    ensures LineClean(Recipe, 3)
  {
    forall j | 0 <= j < |Recipe[3]| ensures PieceClean(Recipe[3], j) {
      if j == 0 { Recipe3a(); }
      else { Recipe3b(); }
    }
    ShieldedConcat(Recipe[3]);
  }

  lemma Recipe4a()
    ensures PieceClean(Recipe[4], 0)
  {
    Piece(Recipe[4][0], 3, "lrt", {});
  }

  lemma Recipe4b()
    ensures PieceClean(Recipe[4], 1)
  {
    Piece(Recipe[4][1], 3, "lrt", {});
  }

  lemma Recipe4c()
    ensures PieceClean(Recipe[4], 2)
  {
    Piece(Recipe[4][2], 5, "bips", {});
  }

  lemma RecipeLine4()
    ensures LineClean(Recipe, 4)
  {
    forall j | 0 <= j < |Recipe[4]| ensures PieceClean(Recipe[4], j) {
      if j == 0 { Recipe4a(); }
      else if j == 1 { Recipe4b(); }
      else { Recipe4c(); }
    }
    ShieldedConcat(Recipe[4]);
  }

  lemma Recipe5a()
    ensures PieceClean(Recipe[5], 0)
  {
    Piece(Recipe[5][0], 3, "lrt", {});
  }

  lemma Recipe5b()
    ensures PieceClean(Recipe[5], 1)
  {
    Piece(Recipe[5][1], 7, "dimo", {});
  }

  lemma RecipeLine5()
    ensures LineClean(Recipe, 5)
  {
    forall j | 0 <= j < |Recipe[5]| ensures PieceClean(Recipe[5], j) {
      if j == 0 { Recipe5a(); }
      else { Recipe5b(); }
    }
    ShieldedConcat(Recipe[5]);
  }

  lemma Recipe6a()
    ensures PieceClean(Recipe[6], 0)
  {
    Piece(Recipe[6][0], 3, "lrt", {});
  }

  lemma Recipe6b()
    ensures PieceClean(Recipe[6], 1)
  {
    Piece(Recipe[6][1], 7, "dimo", {});
  }

  lemma RecipeLine6()
    ensures LineClean(Recipe, 6)
  {
    forall j | 0 <= j < |Recipe[6]| ensures PieceClean(Recipe[6], j) {
      if j == 0 { Recipe6a(); }
      else { Recipe6b(); }
    }
    ShieldedConcat(Recipe[6]);
  }

  lemma Recipe7a()
    ensures PieceClean(Recipe[7], 0)
  {
    Piece(Recipe[7][0], 3, "lrt", {});
  }

  lemma Recipe7b()
    ensures PieceClean(Recipe[7], 1)
  {
    Piece(Recipe[7][1], 3, "lrt", {});
  }

  lemma RecipeLine7()
    ensures LineClean(Recipe, 7)
  {
    forall j | 0 <= j < |Recipe[7]| ensures PieceClean(Recipe[7], j) {
      if j == 0 { Recipe7a(); }
      else { Recipe7b(); }
    }
    ShieldedConcat(Recipe[7]);
  }

  lemma RecipeLine8()
    ensures LineClean(Recipe, 8)
  {
    Piece(Recipe[8][0], 3, "lrt", {});
    ShieldedConcat(Recipe[8]);
  }

  lemma Recipe9a()
    ensures PieceClean(Recipe[9], 0)
  {
    Piece(Recipe[9][0], 3, "lrt", {});
  }

  lemma Recipe9b()
    ensures PieceClean(Recipe[9], 1)
  {
    Piece(Recipe[9][1], 8, "aely", {});
  }

  lemma RecipeLine9()
    ensures LineClean(Recipe, 9)
  {
    forall j | 0 <= j < |Recipe[9]| ensures PieceClean(Recipe[9], j) {
      if j == 0 { Recipe9a(); }
      else { Recipe9b(); }
    }
    ShieldedConcat(Recipe[9]);
  }

  lemma Recipe10a()
    ensures PieceClean(Recipe[10], 0)
  {
    Piece(Recipe[10][0], 3, "lrt", {});
  }

  lemma Recipe10b()
    ensures PieceClean(Recipe[10], 1)
  {
    Piece(Recipe[10][1], 7, "dimo", {});
  }

  lemma Recipe10c()
    ensures PieceClean(Recipe[10], 2)
  {
    Piece(Recipe[10][2], 5, "bips", {});
  }

  lemma RecipeLine10()
    ensures LineClean(Recipe, 10)
  {
    forall j | 0 <= j < |Recipe[10]| ensures PieceClean(Recipe[10], j) {
      if j == 0 { Recipe10a(); }
      else if j == 1 { Recipe10b(); }
      else { Recipe10c(); }
    }
    ShieldedConcat(Recipe[10]);
  }

  lemma Recipe11a()
    ensures PieceClean(Recipe[11], 0)
  {
    Piece(Recipe[11][0], 3, "lrt", {});
  }

  lemma Recipe11b()
    ensures PieceClean(Recipe[11], 1)
  {
    Piece(Recipe[11][1], 6, "apsv", {});
  }

  lemma Recipe11c()
    ensures PieceClean(Recipe[11], 2)
  {
    Piece(Recipe[11][2], 2, "alop", {"ee"});
  }

  lemma RecipeLine11()
    ensures LineClean(Recipe, 11)
  {
    forall j | 0 <= j < |Recipe[11]| ensures PieceClean(Recipe[11], j) {
      if j == 0 { Recipe11a(); }
      else if j == 1 { Recipe11b(); }
      else { Recipe11c(); }
    }
    ShieldedConcat(Recipe[11]);
  }

  lemma Recipe12a()
    ensures PieceClean(Recipe[12], 0)
  {
    Piece(Recipe[12][0], 3, "lrt", {});
  }

  lemma Recipe12b()
    ensures PieceClean(Recipe[12], 1)
  {
    Piece(Recipe[12][1], 5, "bips", {});
  }

  lemma Recipe12c()
    ensures PieceClean(Recipe[12], 2)
  {
    Piece(Recipe[12][2], 2, "alop", {"ee"});
  }

  lemma RecipeLine12()
    ensures LineClean(Recipe, 12)
  {
    forall j | 0 <= j < |Recipe[12]| ensures PieceClean(Recipe[12], j) {
      if j == 0 { Recipe12a(); }
      else if j == 1 { Recipe12b(); }
      else { Recipe12c(); }
    }
    ShieldedConcat(Recipe[12]);
  }

  lemma Recipe13a()
    ensures PieceClean(Recipe[13], 0)
  {
    Piece(Recipe[13][0], 3, "lrt", {});
  }

  lemma Recipe13b()
    ensures PieceClean(Recipe[13], 1)
  {
    Piece(Recipe[13][1], 9, "gimtu", {});
  }

  lemma Recipe13c()
    ensures PieceClean(Recipe[13], 2)
  {
    Piece(Recipe[13][2], 2, "alop", {"ee"});
  }

  lemma RecipeLine13()
    ensures LineClean(Recipe, 13)
  {
    forall j | 0 <= j < |Recipe[13]| ensures PieceClean(Recipe[13], j) {
      if j == 0 { Recipe13a(); }
      else if j == 1 { Recipe13b(); }
      else { Recipe13c(); }
    }
    ShieldedConcat(Recipe[13]);
  }

  lemma RecipeLine14()
    ensures LineClean(Recipe, 14)
  {
    Piece(Recipe[14][0], 3, "lrt", {});
    ShieldedConcat(Recipe[14]);
  }

  lemma RecipeShielded()
    ensures Shielded(Assemble(Recipe))
  {
    forall i | 0 <= i < |Recipe| ensures LineClean(Recipe, i) {
      if i == 0 { RecipeLine0(); }
      else if i == 1 { RecipeLine1(); }
      else if i == 2 { RecipeLine2(); }
      else if i == 3 { RecipeLine3(); }
      else if i == 4 { RecipeLine4(); }
      else if i == 5 { RecipeLine5(); }
      else if i == 6 { RecipeLine6(); }
      else if i == 7 { RecipeLine7(); }
      else if i == 8 { RecipeLine8(); }
      else if i == 9 { RecipeLine9(); }
      else if i == 10 { RecipeLine10(); }
      else if i == 11 { RecipeLine11(); }
      else if i == 12 { RecipeLine12(); }
      else if i == 13 { RecipeLine13(); }
      else { RecipeLine14(); }
    }
    ShieldedAssemble(Recipe);
  }

  /** The recipe is rejected whatever the regular expressions find: it holds no indicator. */
  lemma RecipeIsNotResume(signals: Signals)
    ensures !IsResumeDocument(Assemble(Recipe), signals)
  {
    RecipeShielded();
    ShieldedHasNoIndicator(Assemble(Recipe));
    NoSectionNoResume(Assemble(Recipe), signals);
  }

  lemma NewsLine0()
    ensures LineClean(News, 0)
  {
    Piece(News[0][0], 3, "lrt", {});
    ShieldedConcat(News[0]);
  }

  lemma News1a()
    ensures PieceClean(News[1], 0)
  {
    Piece(News[1][0], 3, "lrt", {});
  }

  lemma News1b()
    ensures PieceClean(News[1], 1)
  {
    Piece(News[1][1], 0, "osx", {"ra"});
  }

  lemma News1c()
    ensures PieceClean(News[1], 2)
  {
    Piece(News[1][2], 3, "lrt", {});
  }

  lemma News1d()
    ensures PieceClean(News[1], 3)
  {
    Piece(News[1][3], 5, "bips", {});
  }

  lemma News1e()
    ensures PieceClean(News[1], 4)
  {
    Piece(News[1][4], 3, "lrt", {});
  }

  lemma NewsLine1()
    ensures LineClean(News, 1)
  {
    forall j | 0 <= j < |News[1]| ensures PieceClean(News[1], j) {
      if j == 0 { News1a(); }
      else if j == 1 { News1b(); }
      else if j == 2 { News1c(); }
      else if j == 3 { News1d(); }
      else { News1e(); }
    }
    ShieldedConcat(News[1]);
  }

  lemma NewsLine2()
    ensures LineClean(News, 2)
  {
    Piece(News[2][0], 3, "lrt", {});
    ShieldedConcat(News[2]);
  }

  lemma News3a()
    ensures PieceClean(News[3], 0)
  {
    Piece(News[3][0], 3, "lrt", {});
  }

  lemma News3b()
    ensures PieceClean(News[3], 1)
  {
    Piece(News[3][1], 5, "bips", {});
  }

  lemma News3c()
    ensures PieceClean(News[3], 2)
  {
    Piece(News[3][2], 10, "airy", {"oo"});
  }

  lemma News3d()
    ensures PieceClean(News[3], 3)
  {
    Piece(News[3][3], 0, "osx", {"ra"});
  }

  lemma News3e()
    ensures PieceClean(News[3], 4)
  {
    Piece(News[3][4], 6, "apsv", {});
  }

  lemma News3f()
    ensures PieceClean(News[3], 5)
  {
    Piece(News[3][5], 3, "lrt", {});
  }

  lemma News3g()
    ensures PieceClean(News[3], 6)
  {
    Piece(News[3][6], 4, "belr", {});
  }

  lemma News3h()
    ensures PieceClean(News[3], 7)
  {
    Piece(News[3][7], 2, "alop", {"ee"});
  }

  lemma NewsLine3()
    ensures LineClean(News, 3)
  {
    forall j | 0 <= j < |News[3]| ensures PieceClean(News[3], j) {
      if j == 0 { News3a(); }
      else if j == 1 { News3b(); }
      else if j == 2 { News3c(); }
      else if j == 3 { News3d(); }
      else if j == 4 { News3e(); }
      else if j == 5 { News3f(); }
      else if j == 6 { News3g(); }
      else { News3h(); }
    }
    ShieldedConcat(News[3]);
  }

  lemma News4a()
    ensures PieceClean(News[4], 0)
  {
    Piece(News[4][0], 3, "lrt", {});
  }

  lemma News4b()
    ensures PieceClean(News[4], 1)
  {
    Piece(News[4][1], 3, "lrt", {});
  }

  lemma News4c()
    ensures PieceClean(News[4], 2)
  {
    Piece(News[4][2], 5, "bips", {});
  }

  lemma News4d()
    ensures PieceClean(News[4], 3)
  {
    Piece(News[4][3], 2, "alop", {"ee"});
  }

  lemma News4e()
    ensures PieceClean(News[4], 4)
  {
    Piece(News[4][4], 0, "osx", {"ra"});
  }

  lemma News4f()
    ensures PieceClean(News[4], 5)
  {
    Piece(News[4][5], 3, "lrt", {});
  }

  lemma News4g()
    ensures PieceClean(News[4], 6)
  {
    Piece(News[4][6], 0, "osx", {"ra"});
  }

  lemma News4h()
    ensures PieceClean(News[4], 7)
  {
    Piece(News[4][7], 4, "belr", {});
  }

  lemma NewsLine4()
    ensures LineClean(News, 4)
  {
    forall j | 0 <= j < |News[4]| ensures PieceClean(News[4], j) {
      if j == 0 { News4a(); }
      else if j == 1 { News4b(); }
      else if j == 2 { News4c(); }
      else if j == 3 { News4d(); }
      else if j == 4 { News4e(); }
      else if j == 5 { News4f(); }
      else if j == 6 { News4g(); }
      else { News4h(); }
    }
    ShieldedConcat(News[4]);
  }

  lemma NewsLine5()
    ensures LineClean(News, 5)
  {
    Piece(News[5][0], 3, "lrt", {});
    ShieldedConcat(News[5]);
  }

  lemma News6a()
    ensures PieceClean(News[6], 0)
  {
    Piece(News[6][0], 5, "bips", {});
  }

  lemma News6b()
    ensures PieceClean(News[6], 1)
  {
    Piece(News[6][1], 5, "bips", {});
  }

  lemma News6c()
    ensures PieceClean(News[6], 2)
  {
    Piece(News[6][2], 9, "gimtu", {});
  }

  lemma News6d()
    ensures PieceClean(News[6], 3)
  {
    Piece(News[6][3], 11, "bgnr", {"ls"});
  }

  lemma News6e()
    ensures PieceClean(News[6], 4)
  {
    Piece(News[6][4], 7, "dimo", {});
  }

  lemma News6f()
    ensures PieceClean(News[6], 5)
  {
    Piece(News[6][5], 4, "belr", {});
  }

  lemma NewsLine6()
    ensures LineClean(News, 6)
  {
    forall j | 0 <= j < |News[6]| ensures PieceClean(News[6], j) {
      if j == 0 { News6a(); }
      else if j == 1 { News6b(); }
      else if j == 2 { News6c(); }
      else if j == 3 { News6d(); }
      else if j == 4 { News6e(); }
      else { News6f(); }
    }
    ShieldedConcat(News[6]);
  }

  lemma News7a()
    ensures PieceClean(News[7], 0)
  {
    Piece(News[7][0], 3, "lrt", {});
  }

  lemma News7b()
    ensures PieceClean(News[7], 1)
  {
    Piece(News[7][1], 7, "dimo", {});
  }

  lemma News7c()
    ensures PieceClean(News[7], 2)
  {
    Piece(News[7][2], 0, "osx", {"ra"});
  }

  lemma News7d()
    ensures PieceClean(News[7], 3)
  {
    Piece(News[7][3], 6, "apsv", {});
  }

  lemma News7e()
    ensures PieceClean(News[7], 4)
  {
    Piece(News[7][4], 6, "apsv", {});
  }

  lemma News7f()
    ensures PieceClean(News[7], 5)
  {
    Piece(News[7][5], 1, "adijkl", {});
  }

  lemma NewsLine7()
    ensures LineClean(News, 7)
  {
    forall j | 0 <= j < |News[7]| ensures PieceClean(News[7], j) {
      if j == 0 { News7a(); }
      else if j == 1 { News7b(); }
      else if j == 2 { News7c(); }
      else if j == 3 { News7d(); }
      else if j == 4 { News7e(); }
      else { News7f(); }
    }
    ShieldedConcat(News[7]);
  }

  lemma NewsLine8()
    ensures LineClean(News, 8)
  {
    Piece(News[8][0], 3, "lrt", {});
    ShieldedConcat(News[8]);
  }

  lemma NewsShielded()
    ensures Shielded(Assemble(News))
  {
    forall i | 0 <= i < |News| ensures LineClean(News, i) {
      if i == 0 { NewsLine0(); }
      else if i == 1 { NewsLine1(); }
      else if i == 2 { NewsLine2(); }
      else if i == 3 { NewsLine3(); }
      else if i == 4 { NewsLine4(); }
      else if i == 5 { NewsLine5(); }
      else if i == 6 { NewsLine6(); }
      else if i == 7 { NewsLine7(); }
      else { NewsLine8(); }
    }
    ShieldedAssemble(News);
  }

  /** The news article is rejected whatever the regular expressions find: it holds no indicator. */
  lemma NewsIsNotResume(signals: Signals)
    ensures !IsResumeDocument(Assemble(News), signals)
  {
    NewsShielded();
    ShieldedHasNoIndicator(Assemble(News));
    NoSectionNoResume(Assemble(News), signals);
  }

  // ---------------------------------------------------------------------------------------
  // The test loop

  /** The five documents of the test file. */
  datatype Fixture = ValidResume1Doc | ValidResume2Doc | RecipeDoc | NewsDoc | MinimalResumeDoc

  /** Each document, line by line. */
  function Document(f: Fixture): seq<seq<string>> {
    match f
    case ValidResume1Doc => ValidResume1
    case ValidResume2Doc => ValidResume2
    case RecipeDoc => Recipe
    case NewsDoc => News
    case MinimalResumeDoc => MinimalResume
  }

  /** A test case: its name, its document, and the verdict it expects. */
  datatype TestCase = TestCase(name: string, document: Fixture, shouldBeValid: bool)

  const TestCases: seq<TestCase> := [
    TestCase("Valid Resume 1", ValidResume1Doc, true),
    TestCase("Valid Resume 2", ValidResume2Doc, true),
    TestCase("Invalid Document - Recipe", RecipeDoc, false),
    TestCase("Invalid Document - News Article", NewsDoc, false),
    TestCase("Edge Case - Minimal Resume", MinimalResumeDoc, true)
  ]

  /** A case passes when the detector's verdict on its text is the expected one. */
  predicate Passes(c: TestCase, signals: Signals) {
    IsResumeDocument(Assemble(Document(c.document)), signals) == c.shouldBeValid
  }

  /** Every case passes on what the regular expressions find in it. */
  predicate AllPass(cases: seq<TestCase>, signals: seq<Signals>)
    requires |signals| == |cases|
  {
    forall i :: 0 <= i < |cases| ==> Passes(cases[i], signals[i])
  }

  /**
   * The loop's counters: one case at a time, `passed` or `failed` goes up. What the
   * regular expressions find in each case is given in `signals`.
   */
  function Tally(cases: seq<TestCase>, signals: seq<Signals>): (r: (nat, nat))
    requires |signals| == |cases|
    ensures r.0 + r.1 == |cases|
    ensures r.1 == 0 <==> AllPass(cases, signals)
    decreases |cases|
  {
    if |cases| == 0 then (0, 0)
    else
      var rest := Tally(cases[1..], signals[1..]);
      assert forall i :: 1 <= i < |cases| ==> cases[1..][i - 1] == cases[i] && signals[1..][i - 1] == signals[i];
      if Passes(cases[0], signals[0]) then (rest.0 + 1, rest.1) else (rest.0, rest.1 + 1)
  }

  datatype Report = Report(passed: nat, failed: nat, total: nat)

  /** `testResumeDetection`: the counts it returns, given what the regular expressions find. */
  function TestResumeDetection(signals: seq<Signals>): (r: Report)
    requires |signals| == 5
    ensures r.passed + r.failed == r.total == 5
    ensures r.failed == 0 <==> AllPass(TestCases, signals)
  {
    assert |TestCases| == 5;
    var t := Tally(TestCases, signals);
    Report(t.0, t.1, 5)
  }

  /**
   * `Math.round(passed / total * 100)`: the nearest whole percentage, halves rounded up,
   * that is the whole number within half a unit of `100 * passed / total`, below or equal
   * on the low side and strictly above on the high side.
   */
  function SuccessRate(r: Report): (rate: nat)
    requires 0 < r.total
    ensures 2 * r.total * rate <= 200 * r.passed + r.total < 2 * r.total * (rate + 1)
    ensures r.passed <= r.total ==> rate <= 100
    ensures r.passed == r.total ==> rate == 100
  {
    RoundingBounds(r.passed, r.total);
    (200 * r.passed + r.total) / (2 * r.total)
  }

  lemma RoundingBounds(p: nat, t: nat)
    requires 0 < t
    ensures var x := (200 * p + t) / (2 * t);
      && 2 * t * x <= 200 * p + t < 2 * t * (x + 1)
      && (p <= t ==> x <= 100)
      && (p == t ==> x == 100)
  {
    if p == t {
      WholeIsHundred(t);
    }
    var d := 2 * t;
    var n := 200 * p + t;
    var x := n / d;
    assert n == d * x + n % d && 0 <= n % d < d;
    assert d * (x + 1) == d * x + d;
    if p <= t && x > 100 {
      MulMono(101, x, d);
      assert false;
    }
  }

  lemma MulMono(a: int, b: int, t: int)
    requires t > 0 && a <= b
    ensures a * t <= b * t
  {
  }

  /** All of the total, rounded, is a hundred per cent. */
  lemma WholeIsHundred(t: int)
    requires 0 < t
    ensures (200 * t + t) / (2 * t) == 100
  {
    var d := 2 * t;
    var x := (200 * t + t) / d;
    var y := (200 * t + t) % d;
    assert 200 * t + t == d * x + y && 0 <= y < d;
    if x > 100 {
      MulMono(101, x, d);
      assert false;
    } else if x < 100 {
      MulMono(x, 99, d);
      assert false;
    }
  }

  /** A case on each document passes when it expects the verdict proved above. */
  lemma ValidResume1CasePasses(c: TestCase, s: Signals)
    requires c.document == ValidResume1Doc && c.shouldBeValid
    ensures Passes(c, s)
  {
    ValidResume1IsResume(s);
  }

  lemma ValidResume2CasePasses(c: TestCase, s: Signals)
    requires c.document == ValidResume2Doc && c.shouldBeValid
    ensures Passes(c, s)
  {
    ValidResume2IsResume(s);
  }

  lemma RecipeCasePasses(c: TestCase, s: Signals)
    requires c.document == RecipeDoc && !c.shouldBeValid
    ensures Passes(c, s)
  {
    RecipeIsNotResume(s);
  }

  lemma NewsCasePasses(c: TestCase, s: Signals)
    requires c.document == NewsDoc && !c.shouldBeValid
    ensures Passes(c, s)
  {
    NewsIsNotResume(s);
  }

  lemma MinimalResumeCasePasses(c: TestCase, s: Signals)
    requires c.document == MinimalResumeDoc && c.shouldBeValid
    ensures Passes(c, s)
  {
    MinimalResumeIsResume(s);
  }

  lemma AllCasesPass(signals: seq<Signals>)
    requires |signals| == 5
    ensures AllPass(TestCases, signals)
  {
    forall i | 0 <= i < 5 ensures Passes(TestCases[i], signals[i]) {
      if i == 0 { ValidResume1CasePasses(TestCases[0], signals[0]); }
      else if i == 1 { ValidResume2CasePasses(TestCases[1], signals[1]); }
      else if i == 2 { RecipeCasePasses(TestCases[2], signals[2]); }
      else if i == 3 { NewsCasePasses(TestCases[3], signals[3]); }
      else { MinimalResumeCasePasses(TestCases[4], signals[4]); }
    }
  }

  /**
   * All five cases pass whatever the regular expressions find: the three resumes have two
   * indicators each, the other two documents none.
   */
  lemma EveryCasePasses(signals: seq<Signals>)
    requires |signals| == 5
    ensures TestResumeDetection(signals) == Report(5, 0, 5)
    ensures SuccessRate(Report(5, 0, 5)) == 100
  {
    AllCasesPass(signals);
    AllPassReported(signals);
  }

  /** When every case passes, the report counts five passed and none failed. */
  lemma AllPassReported(signals: seq<Signals>)
    requires |signals| == 5 && AllPass(TestCases, signals)
    ensures TestResumeDetection(signals) == Report(5, 0, 5)
  {
  }
}
