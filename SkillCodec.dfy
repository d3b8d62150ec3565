/**
 * Skill and tech-stack lists are stored as one text column holding
 * `','.join(selection)` and read back by one of three parsers, depending on
 * the iteration of the application:
 *
 *  - `SplitList`: the raw `s.split(',')` of the first two iterations
 *    (no stripping, blank pieces kept);
 *  - `StripList`: every piece stripped, blank pieces kept as "";
 *  - `SkillList`: every piece stripped, blank pieces dropped.
 *
 * All three return [] when the column is NULL (`None`) or the empty string.
 * The column value is an `Option<string>`, `None` standing for NULL.
 */
module SkillCodec {
  import opened PyText
  import opened Choices

  /** Python truthiness of a nullable text column: neither None nor "". */
  predicate Present(field: Option<string>)
  {
    field.Some? && field.value != ""
  }

  /** How the text column is written: the comma join of the selection. */
  function JoinSkills(selection: seq<string>): string
  {
    Join(selection, ',')
  }

  /** `','.join(selection) if selection else ''`: how the handlers that
      always overwrite the column write it. */
  function JoinOrEmpty(selection: seq<string>): string
  {
    if |selection| > 0 then JoinSkills(selection) else ""
  }

  // ---------------------------------------------------------------------
  // The three parsers
  // ---------------------------------------------------------------------

  /** `field.split(',') if field else []`. */
  function SplitList(field: Option<string>): seq<string>
  {
    if Present(field) then Split(field.value, ',') else []
  }

  /** Every piece stripped, in order. */
  function StripEach(pieces: seq<string>): (r: seq<string>)
    ensures |r| == |pieces|
    ensures forall i :: 0 <= i < |r| ==> r[i] == Strip(pieces[i])
  {
    if |pieces| == 0 then [] else [Strip(pieces[0])] + StripEach(pieces[1..])
  }

  /** `[t.strip() for t in field.split(',')]` if field else []. */
  function StripList(field: Option<string>): seq<string>
  {
    if Present(field) then StripEach(Split(field.value, ',')) else []
  }

  /** The stripped pieces that are not blank, in order. */
  function StripNonBlank(pieces: seq<string>): seq<string>
  {
    if |pieces| == 0 then []
    else
      var t := Strip(pieces[0]);
      (if t != "" then [t] else []) + StripNonBlank(pieces[1..])
  }

  /** `[s.strip() for s in field.split(',') if s.strip()]` if field else []. */
  function SkillList(field: Option<string>): seq<string>
  {
    if Present(field) then StripNonBlank(Split(field.value, ',')) else []
  }

  /** The blank entries of a list removed, order kept. */
  function DropBlanks(xs: seq<string>): seq<string>
  {
    if |xs| == 0 then []
    else (if xs[0] != "" then [xs[0]] else []) + DropBlanks(xs[1..])
  }

  // ---------------------------------------------------------------------
  // What a clean list looks like
  // ---------------------------------------------------------------------

  /** A list entry that survives a store-and-parse cycle unchanged. */
  predicate CleanSkill(s: string)
  {
    s != "" && ',' !in s && IsStripped(s)
  }

  predicate AllClean(xs: seq<string>)
  {
    forall i :: 0 <= i < |xs| ==> CleanSkill(xs[i])
  }

  predicate NoCommas(xs: seq<string>)
  {
    forall i :: 0 <= i < |xs| ==> ',' !in xs[i]
  }

  // ---------------------------------------------------------------------
  // Raw split
  // ---------------------------------------------------------------------

  /** The raw parser: [] for NULL or "", otherwise one piece per comma plus
      one, none holding a comma, and joining them gives the column back. */
  lemma SplitListShape(field: Option<string>)
    ensures !Present(field) ==> SplitList(field) == []
    ensures Present(field) ==>
      && |SplitList(field)| == Occurrences(field.value, ',') + 1
      && NoCommas(SplitList(field))
      && JoinSkills(SplitList(field)) == field.value
  {
    if Present(field) {
      SplitCount(field.value, ',');
      SplitPiecesHaveNoSeparator(field.value, ',');
      JoinSplit(field.value, ',');
    }
  }

  /** The raw parser keeps blank pieces: "a,,b" gives three entries. */
  lemma SplitListKeepsBlanksAndSpaces()
    ensures SplitList(Some("a,,b")) == ["a", "", "b"]
  {
    assert JoinSkills(["a", "", "b"]) == "a,,b";
    SplitListRoundTrip(["a", "", "b"]);
  }

  /** Storing a selection and reading it back with the raw parser returns
      the selection, provided no entry holds a comma and the stored text is
      not empty (the selection is neither [] nor [""]). */
  lemma {:induction false} SplitListRoundTrip(selection: seq<string>)
    requires NoCommas(selection)
    requires |selection| >= 1 && selection != [""]
    ensures SplitList(Some(JoinSkills(selection))) == selection
  {
    JoinEmpty(selection, ',');
    SplitJoin(selection, ',');
  }

  // ---------------------------------------------------------------------
  // Strip, keep blanks
  // ---------------------------------------------------------------------

  lemma StripEachStripped(pieces: seq<string>)
    requires NoCommas(pieces)
    ensures forall i :: 0 <= i < |StripEach(pieces)| ==>
      IsStripped(StripEach(pieces)[i]) && ',' !in StripEach(pieces)[i]
  {
    forall i | 0 <= i < |pieces|
      ensures IsStripped(Strip(pieces[i])) && ',' !in Strip(pieces[i])
    {
      StripShape(pieces[i]);
      StripKeepsAbsent(pieces[i], ',');
    }
  }

  /** The strip-but-keep-blanks parser: one entry per comma-separated piece
      (commas + 1 of them), entry i being piece i stripped; every entry is
      stripped and comma-free. */
  lemma StripListShape(field: Option<string>)
    ensures !Present(field) ==> StripList(field) == []
    ensures Present(field) ==>
      && |StripList(field)| == Occurrences(field.value, ',') + 1
      && (forall i :: 0 <= i < |StripList(field)| ==>
            StripList(field)[i] == Strip(Split(field.value, ',')[i]))
      && (forall i :: 0 <= i < |StripList(field)| ==>
            IsStripped(StripList(field)[i]) && ',' !in StripList(field)[i])
  {
    if Present(field) {
      SplitCount(field.value, ',');
      SplitPiecesHaveNoSeparator(field.value, ',');
      StripEachStripped(Split(field.value, ','));
    }
  }

  /** The strip variant is the raw variant with every entry stripped. */
  lemma StripListIsSplitListStripped(field: Option<string>)
    ensures StripList(field) == StripEach(SplitList(field))
  {
  }

  /** Blank pieces survive the strip variant as "": a piece made only of
      white space (the empty piece included) is read back as "". */
  lemma StripListKeepsBlankPiece(field: Option<string>, i: nat)
    requires Present(field) && i < |Split(field.value, ',')|
    requires forall k :: 0 <= k < |Split(field.value, ',')[i]| ==>
      IsSpace(Split(field.value, ',')[i][k])
    ensures i < |StripList(field)| && StripList(field)[i] == ""
  {
    StripAllSpace(Split(field.value, ',')[i]);
  }

  lemma {:induction false} StripEachOfStripped(xs: seq<string>)
    requires forall i :: 0 <= i < |xs| ==> IsStripped(xs[i])
    ensures StripEach(xs) == xs
  {
    forall i | 0 <= i < |xs| ensures StripEach(xs)[i] == xs[i] {
      StripFixes(xs[i]);
    }
  }

  /** Storing a comma-free selection of stripped entries and reading it back
      with the strip variant returns the selection (stored text non-empty). */
  lemma StripListRoundTrip(selection: seq<string>)
    requires forall i :: 0 <= i < |selection| ==>
      ',' !in selection[i] && IsStripped(selection[i])
    requires |selection| >= 1 && selection != [""]
    ensures StripList(Some(JoinSkills(selection))) == selection
  {
    SplitListRoundTrip(selection);
    StripEachOfStripped(selection);
  }

  // ---------------------------------------------------------------------
  // Strip, drop blanks
  // ---------------------------------------------------------------------

  lemma {:induction false} StripNonBlankIsDropBlanksOfStripEach(pieces: seq<string>)
    ensures StripNonBlank(pieces) == DropBlanks(StripEach(pieces))
  {
    if |pieces| > 0 {
      StripNonBlankIsDropBlanksOfStripEach(pieces[1..]);
      assert StripEach(pieces)[1..] == StripEach(pieces[1..]);
    }
  }

  /** The filtering variant is the strip variant with blank entries dropped. */
  lemma SkillListIsStripListWithoutBlanks(field: Option<string>)
    ensures SkillList(field) == DropBlanks(StripList(field))
  {
    if Present(field) {
      StripNonBlankIsDropBlanksOfStripEach(Split(field.value, ','));
    }
  }

  lemma {:induction false} StripNonBlankClean(pieces: seq<string>)
    requires NoCommas(pieces)
    ensures AllClean(StripNonBlank(pieces))
  {
    if |pieces| > 0 {
      StripNonBlankClean(pieces[1..]);
      StripShape(pieces[0]);
      StripKeepsAbsent(pieces[0], ',');
    }
  }

  /** Every entry of the filtering variant is non-empty, stripped and holds
      no comma; the empty column gives []. */
  lemma SkillListClean(field: Option<string>)
    ensures !Present(field) ==> SkillList(field) == []
    ensures AllClean(SkillList(field))
  {
    if Present(field) {
      SplitPiecesHaveNoSeparator(field.value, ',');
      StripNonBlankClean(Split(field.value, ','));
    }
  }

  lemma {:induction false} StripNonBlankOfClean(xs: seq<string>)
    requires AllClean(xs)
    ensures StripNonBlank(xs) == xs
  {
    if |xs| > 0 {
      StripNonBlankOfClean(xs[1..]);
      StripFixes(xs[0]);
      assert xs == [xs[0]] + xs[1..];
    }
  }

  /** Storing a selection of clean entries and reading it back with the
      filtering variant returns the selection, the empty one included. */
  lemma SkillListRoundTrip(selection: seq<string>)
    requires AllClean(selection)
    ensures SkillList(Some(JoinSkills(selection))) == selection
  {
    if |selection| >= 1 {
      assert selection[0] != "";
      SplitListRoundTrip(selection);
      StripNonBlankOfClean(selection);
    }
  }

  /** Parsing the comma join of a parsed list gives the same list. */
  lemma SkillListIdempotent(field: Option<string>)
    ensures SkillList(Some(JoinSkills(SkillList(field)))) == SkillList(field)
  {
    SkillListClean(field);
    SkillListRoundTrip(SkillList(field));
  }

  // ---------------------------------------------------------------------
  // TECH_CHOICES
  // ---------------------------------------------------------------------

  /** The selectable technologies of models.py and core/models.py (the two
      files declare the same list), one constant per source line. */
  const TechChoices: seq<string> := TechChoicesA + TechChoicesB + TechChoicesC
  const TechChoicesA: seq<string> := [
    "Python", "JavaScript", "React", "Angular", "Vue", "Node.js"]
  const TechChoicesB: seq<string> := [
    "Django", "Flask", "Ruby", "Java", "PHP", "C#", "Swift", "Kotlin"]
  const TechChoicesC: seq<string> := [
    "HTML/CSS", "UI/UX Design", "Database", "DevOps", "Mobile", "AI/ML"]

  /** The selectable technologies of crewd/accounts/models.py, one constant
      per source line. */
  const CrewdTechChoices: seq<string> :=
    CrewdTechChoicesA + CrewdTechChoicesB + CrewdTechChoicesC + CrewdTechChoicesD
    + CrewdTechChoicesE + CrewdTechChoicesF + CrewdTechChoicesG + CrewdTechChoicesH
  const CrewdTechChoicesA: seq<string> := [
    "Python", "Django", "Flask", "JavaScript", "React", "Vue", "Angular"]
  const CrewdTechChoicesB: seq<string> := [
    "Node.js", "Express", "HTML/CSS", "Bootstrap", "Tailwind CSS"]
  const CrewdTechChoicesC: seq<string> := [
    "PHP", "Laravel", "CodeIgniter", "Ruby", "Ruby on Rails"]
  const CrewdTechChoicesD: seq<string> := [
    "Java", "Spring", "C#", ".NET", "Go", "Rust", "Swift", "Kotlin"]
  const CrewdTechChoicesE: seq<string> := [
    "SQL", "PostgreSQL", "MySQL", "MongoDB", "Redis", "Firebase"]
  const CrewdTechChoicesF: seq<string> := [
    "Docker", "Kubernetes", "AWS", "Azure", "Google Cloud"]
  const CrewdTechChoicesG: seq<string> := [
    "GraphQL", "REST API", "WebSockets", "Microservices"]
  const CrewdTechChoicesH: seq<string> := [
    "Machine Learning", "Data Science", "UI/UX Design", "Mobile Development"]

  /** A form selection: entries taken from a choice list. */
  predicate SelectedFrom(selection: seq<string>, choices: seq<string>)
  {
    forall i :: 0 <= i < |selection| ==> selection[i] in choices
  }

  lemma AllCleanConcat(xs: seq<string>, ys: seq<string>)
    requires AllClean(xs) && AllClean(ys)
    ensures AllClean(xs + ys)
  {
    forall i | 0 <= i < |xs + ys| ensures CleanSkill((xs + ys)[i]) {
      if i >= |xs| {
        assert (xs + ys)[i] == ys[i - |xs|];
      }
    }
  }

  /** No entry of the choice lists is empty, holds a comma or has white
      space at either end. */
  lemma TechChoicesClean()
    ensures AllClean(TechChoices)
    ensures AllClean(CrewdTechChoices)
  {
    TechChoicesAClean();
    TechChoicesBClean();
    TechChoicesCClean();
    AllCleanConcat(TechChoicesA, TechChoicesB);
    AllCleanConcat(TechChoicesA + TechChoicesB, TechChoicesC);
    CrewdTechChoicesAClean();
    CrewdTechChoicesBClean();
    CrewdTechChoicesCClean();
    CrewdTechChoicesDClean();
    CrewdTechChoicesEClean();
    CrewdTechChoicesFClean();
    CrewdTechChoicesGClean();
    CrewdTechChoicesHClean();
    AllCleanConcat(CrewdTechChoicesA, CrewdTechChoicesB);
    AllCleanConcat(CrewdTechChoicesA + CrewdTechChoicesB, CrewdTechChoicesC);
    AllCleanConcat(CrewdTechChoicesA + CrewdTechChoicesB + CrewdTechChoicesC, CrewdTechChoicesD);
    AllCleanConcat(CrewdTechChoicesA + CrewdTechChoicesB + CrewdTechChoicesC + CrewdTechChoicesD, CrewdTechChoicesE);
    AllCleanConcat(CrewdTechChoicesA + CrewdTechChoicesB + CrewdTechChoicesC + CrewdTechChoicesD + CrewdTechChoicesE, CrewdTechChoicesF);
    AllCleanConcat(CrewdTechChoicesA + CrewdTechChoicesB + CrewdTechChoicesC + CrewdTechChoicesD + CrewdTechChoicesE + CrewdTechChoicesF, CrewdTechChoicesG);
    AllCleanConcat(CrewdTechChoicesA + CrewdTechChoicesB + CrewdTechChoicesC + CrewdTechChoicesD + CrewdTechChoicesE + CrewdTechChoicesF + CrewdTechChoicesG, CrewdTechChoicesH);
  }

  lemma TechChoicesAClean()
    ensures AllClean(TechChoicesA)
  {
  }

  lemma TechChoicesBClean()
    ensures AllClean(TechChoicesB)
  {
  }

  lemma TechChoicesCClean()
    ensures AllClean(TechChoicesC)
  {
  }

  lemma CrewdTechChoicesAClean()
    ensures AllClean(CrewdTechChoicesA)
  {
  }

  lemma CrewdTechChoicesBClean()
    ensures AllClean(CrewdTechChoicesB)
  {
  }

  lemma CrewdTechChoicesCClean()
    ensures AllClean(CrewdTechChoicesC)
  {
  }

  lemma CrewdTechChoicesDClean()
    ensures AllClean(CrewdTechChoicesD)
  {
  }

  lemma CrewdTechChoicesEClean()
    ensures AllClean(CrewdTechChoicesE)
  {
  }

  lemma CrewdTechChoicesFClean()
    ensures AllClean(CrewdTechChoicesF)
  {
  }

  lemma CrewdTechChoicesGClean()
    ensures AllClean(CrewdTechChoicesG)
  {
  }

  lemma CrewdTechChoicesHClean()
    ensures AllClean(CrewdTechChoicesH)
  {
  }

  /** A selection made from clean choices is clean. */
  lemma SelectionClean(selection: seq<string>, choices: seq<string>)
    requires AllClean(choices)
    requires SelectedFrom(selection, choices)
    ensures AllClean(selection)
  {
    forall i | 0 <= i < |selection| ensures CleanSkill(selection[i]) {
      var j :| 0 <= j < |choices| && choices[j] == selection[i];
    }
  }
}
