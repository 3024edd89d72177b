/** The candidate normaliser: projects an arbitrary uploaded record onto the canonical
    candidate, using the key lists of the detected schema. JavaScript's TypeErrors
    (reading a member of `null`, calling a string method on a non-string) are `Err`s.
    `String(x)` of a non-integer number is supplied as `fracText`, and
    `calculateYearsFromDates` as `yearsBetween` (wall clock and `Date` parsing). */
module CandidateNormalizer {
  import opened Wrappers
  import opened Strings
  import opened Json
  import opened Types
  import opened Seqs
  import opened SchemaDetector

  /** `typeof v === 'object' && v !== null` */
  predicate IsObjectLike(v: JsonValue) {
    v.JObj? || v.JArr?
  }

  // ---------------------------------------------------------------- skills

  /** The separators of `/[,;|]/`. */
  const SkillSeparators: set<char> := {',', ';', '|'}

  /** `s.split(/[,;|]/)`, each piece trimmed, empty pieces dropped. */
  function SkillPieces(s: string): seq<string> {
    NonEmptyTrimmed(Split(s, SkillSeparators))
  }

  /** What one entry of the skills field adds: the pieces of a string, or the first
      truthy `name`, `skill` or `technology` of an object, as text. */
  function SkillEntry(v: JsonValue, fracText: real -> string): seq<string> {
    if v.JStr? then SkillPieces(v.s)
    else if IsObjectLike(v) then
      var skillName := PropChain(v, ["name", "skill", "technology"]);
      if Truthy(skillName) then [ToText(skillName, fracText)] else []
    else []
  }

  function SkillEntries(items: seq<JsonValue>, fracText: real -> string): seq<string> {
    if items == [] then []
    else SkillEntries(items[..|items| - 1], fracText) + SkillEntry(items[|items| - 1], fracText)
  }

  /** The string members of a `technologies` array, each trimmed (empty ones are kept). */
  function TechStrings(techs: seq<JsonValue>): seq<string> {
    if techs == [] then []
    else
      var last := techs[|techs| - 1];
      TechStrings(techs[..|techs| - 1]) + (if last.JStr? then [Trim(last.s)] else [])
  }

  /** What one experience entry adds: its first truthy `technologies`, `tech_stack` or
      `skills`, taken as an array of strings or split like a skills string. */
  function TechEntry(exp: JsonValue): seq<string> {
    if IsObjectLike(exp) then
      var techs := PropChain(exp, ["technologies", "tech_stack", "skills"]);
      if techs.Some? && techs.value.JArr? then TechStrings(techs.value.items)
      else if techs.Some? && techs.value.JStr? then SkillPieces(techs.value.s)
      else []
    else []
  }

  function TechEntries(items: seq<JsonValue>): seq<string> {
    if items == [] then []
    else TechEntries(items[..|items| - 1]) + TechEntry(items[|items| - 1])
  }

  /** The skills `extractSkills` collects, in the order they are added to its `Set`. */
  function SkillStream(raw: JsonValue, schema: DetectedSchema, fracText: real -> string): seq<string> {
    SkillEntries(ExtractArrayField(raw, schema.skillFields), fracText)
      + TechEntries(ExtractArrayField(raw, schema.experienceFields))
  }

  /** `Array.from(skills)`: the collected skills, each once, in first-seen order. */
  function SkillList(raw: JsonValue, schema: DetectedSchema, fracText: real -> string): seq<string> {
    Dedup(SkillStream(raw, schema, fracText))
  }

  /** Adding each of `xs` to the insertion-ordered set `skills`. */
  method AddAll(skills: seq<string>, xs: seq<string>) returns (r: seq<string>)
    ensures r == AppendNew(skills, xs)
  {
    r := skills;
    var j := 0;
    while j < |xs|
      invariant 0 <= j <= |xs|
      invariant r == AppendNew(skills, xs[..j])
    {
      assert xs[..j + 1][..j] == xs[..j];
      if xs[j] !in r {
        r := r + [xs[j]];
      }
      j := j + 1;
    }
    assert xs[..j] == xs;
  }

  /** `s.split(/[,;|]/).forEach(s => { const t = s.trim(); if (t) skills.add(t) })` */
  method AddPieces(skills: seq<string>, s: string) returns (r: seq<string>)
    ensures r == AppendNew(skills, SkillPieces(s))
  {
    var pieces := Split(s, SkillSeparators);
    r := skills;
    var j := 0;
    while j < |pieces|
      invariant 0 <= j <= |pieces|
      invariant r == AppendNew(skills, NonEmptyTrimmed(pieces[..j]))
    {
      assert pieces[..j + 1][..j] == pieces[..j];
      var trimmed := Trim(pieces[j]);
      ghost var done := NonEmptyTrimmed(pieces[..j]);
      ghost var step: seq<string> := if trimmed == "" then [] else [trimmed];
      assert NonEmptyTrimmed(pieces[..j + 1]) == done + step;
      AppendNewConcat(skills, done, step);
      if trimmed != "" {
        assert step[..0] == [];
        if trimmed !in r {
          r := r + [trimmed];
        }
      } else {
        assert done + step == done;
      }
      j := j + 1;
    }
    assert pieces[..j] == pieces;
  }

  /** The first loop of `extractSkills`, over the skills field's entries. */
  method AddSkillEntries(start: seq<string>, skillsData: seq<JsonValue>, fracText: real -> string) returns (skills: seq<string>)
    ensures skills == AppendNew(start, SkillEntries(skillsData, fracText))
  {
    skills := start;
    var i := 0;
    while i < |skillsData|
      invariant 0 <= i <= |skillsData|
      invariant skills == AppendNew(start, SkillEntries(skillsData[..i], fracText))
    {
      assert skillsData[..i + 1][..i] == skillsData[..i];
      var skill := skillsData[i];
      assert SkillEntries(skillsData[..i + 1], fracText) == SkillEntries(skillsData[..i], fracText) + SkillEntry(skill, fracText);
      AppendNewConcat(start, SkillEntries(skillsData[..i], fracText), SkillEntry(skill, fracText));
      if skill.JStr? {
        skills := AddPieces(skills, skill.s);
      } else if IsObjectLike(skill) {
        var skillName := PropChain(skill, ["name", "skill", "technology"]);
        if Truthy(skillName) {
          skills := AddAll(skills, [ToText(skillName, fracText)]);
        } else {
          assert SkillEntry(skill, fracText) == [];
        }
      } else {
        assert SkillEntry(skill, fracText) == [];
      }
      i := i + 1;
    }
    assert skillsData[..i] == skillsData;
  }

  /** The second loop of `extractSkills`, over the technologies of the experience entries. */
  method AddTechEntries(start: seq<string>, expData: seq<JsonValue>) returns (skills: seq<string>)
    ensures skills == AppendNew(start, TechEntries(expData))
  {
    skills := start;
    var k := 0;
    while k < |expData|
      invariant 0 <= k <= |expData|
      invariant skills == AppendNew(start, TechEntries(expData[..k]))
    {
      assert expData[..k + 1][..k] == expData[..k];
      var exp := expData[k];
      assert TechEntries(expData[..k + 1]) == TechEntries(expData[..k]) + TechEntry(exp);
      AppendNewConcat(start, TechEntries(expData[..k]), TechEntry(exp));
      if IsObjectLike(exp) {
        var techs := PropChain(exp, ["technologies", "tech_stack", "skills"]);
        if techs.Some? && techs.value.JArr? {
          skills := AddAll(skills, TechStrings(techs.value.items));
        } else if techs.Some? && techs.value.JStr? {
          skills := AddPieces(skills, techs.value.s);
        }
      }
      k := k + 1;
    }
    assert expData[..k] == expData;
  }

  /** `extractSkills` */
  method ExtractSkills(raw: JsonValue, schema: DetectedSchema, fracText: real -> string) returns (skills: seq<string>)
    ensures skills == SkillList(raw, schema, fracText)
  {
    var fromSkills := AddSkillEntries([], ExtractArrayField(raw, schema.skillFields), fracText);
    skills := AddTechEntries(fromSkills, ExtractArrayField(raw, schema.experienceFields));
    AppendNewConcat([], SkillEntries(ExtractArrayField(raw, schema.skillFields), fracText),
                    TechEntries(ExtractArrayField(raw, schema.experienceFields)));
  }

  /** The skill list holds no duplicates; a skill is in it exactly when some entry
      contributes it; and the skills field's own skills come first, in their order. */
  lemma SkillListSpec(raw: JsonValue, schema: DetectedSchema, fracText: real -> string)
    ensures Distinct(SkillList(raw, schema, fracText))
    ensures forall x :: x in SkillList(raw, schema, fracText) <==> x in SkillStream(raw, schema, fracText)
    ensures Dedup(SkillEntries(ExtractArrayField(raw, schema.skillFields), fracText)) <= SkillList(raw, schema, fracText)
  {
    DedupConcat(SkillEntries(ExtractArrayField(raw, schema.skillFields), fracText),
                TechEntries(ExtractArrayField(raw, schema.experienceFields)));
  }

  /** A skills string contributes exactly its non-blank pieces, trimmed. */
  lemma {:induction false} SkillPiecesAreTrimmed(pieces: seq<string>)
    ensures forall x :: x in NonEmptyTrimmed(pieces) ==> x != "" && Trim(x) == x
    ensures forall x :: x in NonEmptyTrimmed(pieces) <==> exists p :: p in pieces && Trim(p) == x && x != ""
  {
    if pieces != [] {
      var init := pieces[..|pieces| - 1];
      SkillPiecesAreTrimmed(init);
      forall p | p in pieces ensures p in init || p == pieces[|pieces| - 1] {
        assert pieces == init + [pieces[|pieces| - 1]];
      }
      TrimIdempotent(pieces[|pieces| - 1]);
      forall x | x in NonEmptyTrimmed(pieces) ensures x != "" && Trim(x) == x {
        if x !in NonEmptyTrimmed(init) {
          assert x == Trim(pieces[|pieces| - 1]);
        }
      }
    }
  }

  // ---------------------------------------------------------------- durations

  /** ASCII case-insensitive `startsWith` at `k`, as the `/i` flag compares letters. */
  predicate StartsWithCI(s: string, k: nat, word: string) {
    k + |word| <= |s| && Lower(s[k..k + |word|]) == word
  }

  /** `years?|yrs?` matches at `k` exactly when `year` or `yr` starts there. */
  predicate YearUnitAt(s: string, k: nat) {
    StartsWithCI(s, k, "year") || StartsWithCI(s, k, "yr")
  }

  /** `months?|mos?` matches at `k` exactly when `mo` starts there. */
  predicate MonthUnitAt(s: string, k: nat) {
    StartsWithCI(s, k, "mo")
  }

  /** The first match of `/(\d+)\s*unit/i` at or after `p`: the regular expression is
      tried at each position in turn, and at a position holding a digit it takes the
      whole digit run there (a shorter run is followed by a digit, not by the unit). */
  function UnitMatchFrom(s: string, p: nat, months: bool): (r: Option<nat>)
    requires p <= |s|
    decreases |s| - p
  {
    if p == |s| then None
    else if UnitAfter(s, p, months) then Some(DigitsValue(s[p..DigitRunEnd(s, p)]))
    else UnitMatchFrom(s, p + 1, months)
  }

  /** A digit at `q` whose whole run is followed, after blanks, by the unit word. */
  predicate UnitAfter(s: string, q: nat, months: bool)
    requires q < |s|
  {
    IsDigit(s[q]) && (var k := SkipSpaces(s, DigitRunEnd(s, q));
                      if months then MonthUnitAt(s, k) else YearUnitAt(s, k))
  }

  /** The captured count of a match, 0 when there is none. */
  function CountOr0(m: Option<nat>): real {
    if m.Some? then m.value as real else 0.0
  }

  /** The years a duration text stands for: its year count plus its month count / 12. */
  function DurationYears(s: string): real {
    CountOr0(UnitMatchFrom(s, 0, false)) + CountOr0(UnitMatchFrom(s, 0, true)) / 12.0
  }

  /** `extractYearsFromDuration`: whole years plus months as twelfths, `None` (`null`)
      when there is no duration or the total is not positive. A truthy duration that is
      not a string has no `match` method: JavaScript throws. */
  function ExtractYearsFromDuration(duration: Option<JsonValue>): (r: Result<Option<real>>)
    ensures r.Err? <==> Truthy(duration) && !duration.value.JStr?
    ensures r.Ok? && r.value.Some? ==> r.value.value > 0.0
    ensures duration.Some? && duration.value.JStr? ==>
              r == (if DurationYears(duration.value.s) > 0.0 then Ok(Some(DurationYears(duration.value.s))) else Ok(None))
  {
    if !Truthy(duration) then Ok(None)
    else if !duration.value.JStr? then Err("duration.match is not a function")
    else
      var s := duration.value.s;
      var yearMatch := UnitMatchFrom(s, 0, false);
      var monthMatch := UnitMatchFrom(s, 0, true);
      var years := (if yearMatch.Some? then yearMatch.value as real else 0.0)
                   + (if monthMatch.Some? then monthMatch.value as real / 12.0 else 0.0);
      if years > 0.0 then Ok(Some(years)) else Ok(None)
  }

  /** "2 years 3 months" is 2.25 years. */
  lemma YearsAndMonthsExample()
    ensures ExtractYearsFromDuration(Some(JStr("2 years 3 months"))) == Ok(Some(2.25))
  {
    YearsOfExample();
    MonthsOfExample();
  }

  lemma YearsOfExample()
    ensures UnitMatchFrom("2 years 3 months", 0, false) == Some(2)
  {
    var a := "2 years 3 months";
    assert DigitRunEnd(a, 0) == 1;
    assert SkipSpaces(a, 1) == 2;
    assert YearUnitAt(a, 2) by {
      assert a[2..6] == "year";
    }
    assert DigitsValue(a[0..1]) == 2;
  }

  lemma MonthsOfExample()
    ensures UnitMatchFrom("2 years 3 months", 0, true) == Some(3)
  {
    FirstDigitIsNotMonths();
    YearsWordHasNoDigit();
    SecondDigitIsMonths();
  }

  lemma YearsWordHasNoDigit()
    ensures UnitMatchFrom("2 years 3 months", 1, true) == UnitMatchFrom("2 years 3 months", 8, true)
  {
    var a := "2 years 3 months";
    assert a[1] == ' ' && a[2] == 'y' && a[3] == 'e' && a[4] == 'a' && a[5] == 'r' && a[6] == 's' && a[7] == ' ';
    assert forall k :: 1 <= k < 8 ==> !IsDigit(a[k]);
    SkipNonDigits(a, 1, 8, true);
  }

  lemma SecondDigitIsMonths()
    ensures UnitMatchFrom("2 years 3 months", 8, true) == Some(3)
  {
    var a := "2 years 3 months";
    assert DigitRunEnd(a, 8) == 9;
    assert SkipSpaces(a, 9) == 10;
    assert a[10..12] == "mo";
    assert a[8..9] == "3";
  }

  lemma FirstDigitIsNotMonths()
    ensures UnitMatchFrom("2 years 3 months", 0, true) == UnitMatchFrom("2 years 3 months", 1, true)
  {
    var a := "2 years 3 months";
    assert DigitRunEnd(a, 0) == 1;
    assert SkipSpaces(a, 1) == 2;
    assert Lower(a[2..4])[0] == 'y';
    assert !MonthUnitAt(a, 2);
  }

  /** Positions without a digit never start a match. */
  lemma {:induction false} SkipNonDigits(s: string, p: nat, q: nat, months: bool)
    requires p <= q <= |s|
    requires forall k :: p <= k < q ==> !IsDigit(s[k])
    ensures UnitMatchFrom(s, p, months) == UnitMatchFrom(s, q, months)
    decreases q - p
  {
    if p < q {
      SkipNonDigits(s, p + 1, q, months);
    }
  }

  /** "18 mos" is 1.5 years: a month count alone is divided by 12. */
  lemma MonthsOnlyExample()
    ensures ExtractYearsFromDuration(Some(JStr("18 mos"))) == Ok(Some(1.5))
  {
    var b := "18 mos";
    assert DigitRunEnd(b, 0) == 2;
    assert SkipSpaces(b, 2) == 3;
    assert b[3..5] == "mo";
    assert UnitMatchFrom(b, 0, true) == Some(18) by {
      assert b[0..2] == "18";
      assert DigitsValue("18") == 18 by {
        assert "18"[..1] == "1";
      }
    }
    assert !YearUnitAt(b, 3) by {
      assert b[3..5] == "mo";
    }
    assert UnitMatchFrom(b, 1, false) == None by {
      assert DigitRunEnd(b, 1) == 2;
    }
  }

  /** Without a digit run there is no duration, and a number has no `match` method. */
  lemma NoDurationExamples()
    ensures ExtractYearsFromDuration(Some(JStr("Present"))) == Ok(None)
    ensures ExtractYearsFromDuration(Some(JNum(3.0))).Err?
  {
    var c := "Present";
    NoDigitNoMatch(c, 0, false);
    NoDigitNoMatch(c, 0, true);
  }

  /** A string without digits matches no duration. */
  lemma {:induction false} NoDigitNoMatch(s: string, p: nat, months: bool)
    requires p <= |s|
    requires forall k :: p <= k < |s| ==> !IsDigit(s[k])
    ensures UnitMatchFrom(s, p, months) == None
    decreases |s| - p
  {
    if p < |s| {
      NoDigitNoMatch(s, p + 1, months);
    }
  }

  /** A match exists exactly when some digit run, after blanks, is followed by the unit;
      it is then the value of the run at the first such digit position. */
  lemma {:induction false} UnitMatchSpec(s: string, p: nat, months: bool)
    requires p <= |s|
    ensures UnitMatchFrom(s, p, months).Some? <==> exists q :: p <= q < |s| && UnitAfter(s, q, months)
    ensures UnitMatchFrom(s, p, months).Some? ==> exists q :: FirstUnitAt(s, p, q, months)
    decreases |s| - p
  {
    if p < |s| {
      if UnitAfter(s, p, months) {
        assert FirstUnitAt(s, p, p, months);
      } else {
        UnitMatchSpec(s, p + 1, months);
        if UnitMatchFrom(s, p, months).Some? {
          var q :| FirstUnitAt(s, p + 1, q, months);
          assert FirstUnitAt(s, p, q, months);
        }
        if exists q :: p <= q < |s| && UnitAfter(s, q, months) {
          var q :| p <= q < |s| && UnitAfter(s, q, months);
          assert p + 1 <= q;
        }
      }
    }
  }

  /** `q` is the first digit position from `p` on with the unit after its run, and the
      match is the value of that run. */
  predicate FirstUnitAt(s: string, p: nat, q: nat, months: bool)
    requires p <= |s|
  {
    p <= q < |s| && UnitAfter(s, q, months)
    && (forall q' :: p <= q' < q ==> !UnitAfter(s, q', months))
    && UnitMatchFrom(s, p, months) == Some(DigitsValue(s[q..DigitRunEnd(s, q)]))
  }

  /** The first digit position with the unit after its run gives the match. */
  lemma {:induction false} UnitMatchAt(s: string, p: nat, q: nat, months: bool)
    requires p <= q < |s| && UnitAfter(s, q, months)
    requires forall q' :: p <= q' < q ==> !UnitAfter(s, q', months)
    ensures UnitMatchFrom(s, p, months) == Some(DigitsValue(s[q..DigitRunEnd(s, q)]))
    decreases q - p
  {
    if p < q {
      UnitMatchAt(s, p + 1, q, months);
    }
  }

  // ---------------------------------------------------------------- experience

  /** The `technologies` member of an item: an array as is, a string split on commas and
      trimmed (blank pieces kept), anything else `[]`. */
  function ItemTechnologies(exp: JsonValue): seq<JsonValue> {
    var t := Prop(exp, "technologies");
    if t.Some? && t.value.JArr? then t.value.items
    else if t.Some? && t.value.JStr? then
      var pieces := Split(t.value.s, {','});
      seq(|pieces|, i requires 0 <= i < |pieces| => JStr(Trim(pieces[i])))
    else []
  }

  /** The item `extractExperience` builds from an object entry; `endDate` defaults to
      `'Present'`. */
  function ExperienceItemOf(exp: JsonValue): (r: ExperienceItem)
    ensures Truthy(Some(r.endDate))
    ensures !Truthy(PropChain(exp, ["end_date", "to", "endDate"])) ==> r.endDate == JStr("Present")
  {
    var end := PropChain(exp, ["end_date", "to", "endDate"]);
    ExperienceItem(
      PropChain(exp, ["company", "organization", "employer"]),
      PropChain(exp, ["role", "title", "position"]),
      PropChain(exp, ["duration", "period"]),
      PropChain(exp, ["description", "responsibilities"]),
      PropChain(exp, ["start_date", "from", "startDate"]),
      if Truthy(end) then end.value else JStr("Present"),
      ItemTechnologies(exp))
  }

  /** `calculateYearsFromDates(start, end)`: `null` without a start date, otherwise the
      clock-dependent span, given as `yearsBetween` (`None` for `null` or NaN). */
  function YearsFromDates(start: Option<JsonValue>, end: JsonValue,
                          yearsBetween: (JsonValue, JsonValue) -> Option<real>): Option<real> {
    if !Truthy(start) then None else yearsBetween(start.value, end)
  }

  /** `calculateYearsFromDates(…) || extractYearsFromDuration(item.duration)` */
  function ItemYears(item: ExperienceItem, yearsBetween: (JsonValue, JsonValue) -> Option<real>): Result<Option<real>> {
    var fromDates := YearsFromDates(item.startDate, item.endDate, yearsBetween);
    if fromDates.Some? && fromDates.value != 0.0 then Ok(fromDates)
    else ExtractYearsFromDuration(item.duration)
  }

  /** The items and the summed years of the object entries of `entries`. */
  datatype ExperienceSummary = ExperienceSummary(items: seq<ExperienceItem>, total: real)

  /** What one entry does to the items and the running total. */
  function ExperienceStep(prev: ExperienceSummary, exp: JsonValue,
                          yearsBetween: (JsonValue, JsonValue) -> Option<real>): Result<ExperienceSummary> {
    if !IsObjectLike(exp) then Ok(prev)
    else
      var item := ExperienceItemOf(exp);
      var years :- ItemYears(item, yearsBetween);
      Ok(ExperienceSummary(prev.items + [item], if years.Some? then prev.total + years.value else prev.total))
  }

  function ExperienceOf(entries: seq<JsonValue>, yearsBetween: (JsonValue, JsonValue) -> Option<real>): Result<ExperienceSummary> {
    if entries == [] then Ok(ExperienceSummary([], 0.0))
    else
      var prev :- ExperienceOf(entries[..|entries| - 1], yearsBetween);
      ExperienceStep(prev, entries[|entries| - 1], yearsBetween)
  }

  /** The direct years field, used when the entries sum to 0: a number as is, a string
      by its first digit run, anything else 0. */
  function DirectYears(raw: JsonValue): real {
    var yearsField := PropChain(raw, ["years_of_experience", "yearsOfExperience", "experience_years", "totalExperience", "yoe"]);
    if yearsField.Some? && yearsField.value.JNum? then yearsField.value.n
    else if yearsField.Some? && yearsField.value.JStr? then
      var m := FirstNumberFrom(yearsField.value.s, 0);
      if m.Some? then m.value as real else 0.0
    else 0.0
  }

  /** `Math.round(x * 10) / 10`; `Math.round` rounds halves up. */
  function RoundTenth(x: real): (r: real)
    ensures x - 0.05 < r <= x + 0.05
  {
    ((x * 10.0 + 0.5).Floor as real) / 10.0
  }

  /** What `extractExperience` returns for a record. */
  function ExperienceResult(raw: JsonValue, schema: DetectedSchema,
                            yearsBetween: (JsonValue, JsonValue) -> Option<real>): Result<ExperienceSummary> {
    var summary :- ExperienceOf(ExtractArrayField(raw, schema.experienceFields), yearsBetween);
    var total := if summary.total == 0.0 then DirectYears(raw) else summary.total;
    Ok(ExperienceSummary(summary.items, RoundTenth(total)))
  }

  /** The loop of `extractExperience`: one item per object entry, and the years of each
      added up. */
  method CollectExperience(expData: seq<JsonValue>, yearsBetween: (JsonValue, JsonValue) -> Option<real>)
    returns (r: Result<ExperienceSummary>)
    ensures r == ExperienceOf(expData, yearsBetween)
  {
    var experience: seq<ExperienceItem> := [];
    var totalYears := 0.0;
    var i := 0;
    while i < |expData|
      invariant 0 <= i <= |expData|
      invariant ExperienceOf(expData[..i], yearsBetween) == Ok(ExperienceSummary(experience, totalYears))
    {
      assert expData[..i + 1][..i] == expData[..i];
      var exp := expData[i];
      ghost var before := ExperienceSummary(experience, totalYears);
      assert ExperienceOf(expData[..i + 1], yearsBetween) == ExperienceStep(before, exp, yearsBetween);
      if IsObjectLike(exp) {
        var item := ExperienceItemOf(exp);
        experience := experience + [item];
        var years := ItemYears(item, yearsBetween);
        if years.Err? {
          ExperienceOfErrPersists(expData, i + 1, yearsBetween);
          return Err(years.message);
        }
        if years.value.Some? {
          totalYears := totalYears + years.value.value;
        }
        assert ExperienceStep(before, exp, yearsBetween) == Ok(ExperienceSummary(experience, totalYears));
      }
      i := i + 1;
    }
    assert expData[..i] == expData;
    return Ok(ExperienceSummary(experience, totalYears));
  }

  /** `extractExperience`: the entries' years, or the direct field when they sum to 0,
      rounded to a tenth. */
  method ExtractExperience(raw: JsonValue, schema: DetectedSchema,
                           yearsBetween: (JsonValue, JsonValue) -> Option<real>) returns (r: Result<ExperienceSummary>)
    ensures r == ExperienceResult(raw, schema, yearsBetween)
  {
    var collected := CollectExperience(ExtractArrayField(raw, schema.experienceFields), yearsBetween);
    if collected.Err? {
      return Err(collected.message);
    }
    var totalYears := collected.value.total;
    if totalYears == 0.0 {
      totalYears := DirectYears(raw);
    }
    return Ok(ExperienceSummary(collected.value.items, RoundTenth(totalYears)));
  }

  lemma {:induction false} ExperienceOfErrPersists(entries: seq<JsonValue>, i: nat,
                                                   yearsBetween: (JsonValue, JsonValue) -> Option<real>)
    requires i <= |entries| && ExperienceOf(entries[..i], yearsBetween).Err?
    ensures ExperienceOf(entries, yearsBetween) == ExperienceOf(entries[..i], yearsBetween)
    decreases |entries| - i
  {
    if i < |entries| {
      assert entries[..i + 1][..i] == entries[..i];
      ExperienceOfErrPersists(entries, i + 1, yearsBetween);
    } else {
      assert entries[..i] == entries;
    }
  }

  /** There is one item per object entry, in entry order. */
  lemma {:induction false} ExperienceItemsSpec(entries: seq<JsonValue>, yearsBetween: (JsonValue, JsonValue) -> Option<real>)
    requires ExperienceOf(entries, yearsBetween).Ok?
    ensures ExperienceOf(entries, yearsBetween).value.items
              == seq(|Objects(entries)|, i requires 0 <= i < |Objects(entries)| => ExperienceItemOf(Objects(entries)[i]))
  {
    if entries != [] {
      var init := entries[..|entries| - 1];
      ExperienceItemsSpec(init, yearsBetween);
    }
  }

  /** The total is the sum of the items' years, an item without years counting 0. */
  lemma {:induction false} ExperienceTotalSpec(entries: seq<JsonValue>, yearsBetween: (JsonValue, JsonValue) -> Option<real>)
    requires ExperienceOf(entries, yearsBetween).Ok?
    ensures ExperienceOf(entries, yearsBetween).value.total
              == YearsSum(ExperienceOf(entries, yearsBetween).value.items, yearsBetween)
  {
    if entries != [] {
      var init := entries[..|entries| - 1];
      var prev := ExperienceOf(init, yearsBetween).value;
      ExperienceTotalSpec(init, yearsBetween);
      var exp := entries[|entries| - 1];
      assert ExperienceOf(entries, yearsBetween) == ExperienceStep(prev, exp, yearsBetween);
      if IsObjectLike(exp) {
        var item := ExperienceItemOf(exp);
        var years := ItemYears(item, yearsBetween);
        var items := prev.items + [item];
        assert items[..|items| - 1] == prev.items && items[|items| - 1] == item;
        assert YearsSum(items, yearsBetween)
               == prev.total + (if years.value.Some? then years.value.value else 0.0);
      }
    }
  }

  /** The years of `items` added up; an item whose years are missing or fail counts 0. */
  function YearsSum(items: seq<ExperienceItem>, yearsBetween: (JsonValue, JsonValue) -> Option<real>): real {
    if items == [] then 0.0
    else
      var years := ItemYears(items[|items| - 1], yearsBetween);
      YearsSum(items[..|items| - 1], yearsBetween) + (if years.Ok? && years.value.Some? then years.value.value else 0.0)
  }

  /** The object-like entries, in order. */
  function Objects(entries: seq<JsonValue>): seq<JsonValue> {
    if entries == [] then []
    else Objects(entries[..|entries| - 1]) + (if IsObjectLike(entries[|entries| - 1]) then [entries[|entries| - 1]] else [])
  }

  /** Without experience entries the years come from the direct field alone. */
  lemma NoEntriesUseDirectField(raw: JsonValue, schema: DetectedSchema,
                                yearsBetween: (JsonValue, JsonValue) -> Option<real>)
    requires ExtractArrayField(raw, schema.experienceFields) == []
    ensures ExperienceResult(raw, schema, yearsBetween) == Ok(ExperienceSummary([], RoundTenth(DirectYears(raw))))
  {
  }

  // ---------------------------------------------------------------- education

  /** The item an education entry gives: an object's first truthy members, or a string
      as the institution; other entries give nothing. */
  function EducationEntry(edu: JsonValue): seq<EducationItem> {
    if IsObjectLike(edu) then
      [EducationItem(
        PropChain(edu, ["institution", "school", "university", "college"]),
        PropChain(edu, ["degree", "qualification"]),
        PropChain(edu, ["field", "major", "specialization"]),
        PropChain(edu, ["year", "graduation_year", "graduationYear"]),
        PropChain(edu, ["gpa", "grade"]))]
    else if edu.JStr? then [EducationItem(Some(edu), None, None, None, None)]
    else []
  }

  function EducationOf(entries: seq<JsonValue>): seq<EducationItem> {
    if entries == [] then []
    else EducationOf(entries[..|entries| - 1]) + EducationEntry(entries[|entries| - 1])
  }

  /** `extractEducation` */
  method ExtractEducation(raw: JsonValue, schema: DetectedSchema) returns (education: seq<EducationItem>)
    ensures education == EducationOf(ExtractArrayField(raw, schema.educationFields))
  {
    var eduData := ExtractArrayField(raw, schema.educationFields);
    education := [];
    var i := 0;
    while i < |eduData|
      invariant 0 <= i <= |eduData|
      invariant education == EducationOf(eduData[..i])
    {
      assert eduData[..i + 1][..i] == eduData[..i];
      var edu := eduData[i];
      if IsObjectLike(edu) {
        education := education + [EducationItem(
          PropChain(edu, ["institution", "school", "university", "college"]),
          PropChain(edu, ["degree", "qualification"]),
          PropChain(edu, ["field", "major", "specialization"]),
          PropChain(edu, ["year", "graduation_year", "graduationYear"]),
          PropChain(edu, ["gpa", "grade"]))];
      } else if edu.JStr? {
        education := education + [EducationItem(Some(edu), None, None, None, None)];
      }
      i := i + 1;
    }
    assert eduData[..i] == eduData;
  }

  /** Exactly the object and string entries give an item, and a string entry is kept
      whole as the institution. */
  lemma {:induction false} EducationCount(entries: seq<JsonValue>)
    ensures |EducationOf(entries)| == Count(entries, (v: JsonValue) => IsObjectLike(v) || v.JStr?)
  {
    if entries != [] {
      EducationCount(entries[..|entries| - 1]);
    }
  }

  // ---------------------------------------------------------------- salary

  /** `extractSalary` */
  function ExtractSalary(raw: JsonValue, schema: DetectedSchema): (r: Option<Salary>)
    ensures !Truthy(ExtractFieldValue(raw, schema.salaryFields)) ==> r.None?
  {
    var salaryData := ExtractFieldValue(raw, schema.salaryFields);
    if !Truthy(salaryData) then None
    else match salaryData.value
      case JNum(n) => Some(Salary(None, Some(JNum(n)), None))
      case JObj(_) => Some(SalaryOfObject(salaryData.value))
      case JArr(_) => Some(SalaryOfObject(salaryData.value))
      case JStr(s) =>
        var m := FirstNumberFrom(s, 0);
        if m.Some? then Some(Salary(None, Some(JNum(m.value as real)), None)) else None
      case _ => None
  }

  function SalaryOfObject(v: JsonValue): Salary {
    Salary(PropChain(v, ["current", "current_salary"]),
           PropChain(v, ["expected", "expected_salary"]),
           Or(Prop(v, "currency"), Some(JStr("USD"))))
  }

  /** The salary shapes: a number is the expected salary; an object gives
      `current || current_salary`, `expected || expected_salary` and `currency || 'USD'`;
      a string gives its first integer as the expected salary, or nothing without a
      digit; a boolean gives nothing. */
  lemma SalaryShapes(raw: JsonValue, schema: DetectedSchema)
    ensures var v := ExtractFieldValue(raw, schema.salaryFields);
            Truthy(v) && v.value.JNum? ==> ExtractSalary(raw, schema) == Some(Salary(None, Some(v.value), None))
    ensures var v := ExtractFieldValue(raw, schema.salaryFields);
            Truthy(v) && IsObjectLike(v.value) ==>
              ExtractSalary(raw, schema)
              == Some(Salary(PropChain(v.value, ["current", "current_salary"]),
                             PropChain(v.value, ["expected", "expected_salary"]),
                             Or(Prop(v.value, "currency"), Some(JStr("USD")))))
    ensures var v := ExtractFieldValue(raw, schema.salaryFields);
            Truthy(v) && IsObjectLike(v.value) ==>
              Truthy(ExtractSalary(raw, schema).value.currency)
              && (!Truthy(Prop(v.value, "currency")) ==> ExtractSalary(raw, schema).value.currency == Some(JStr("USD")))
    ensures var v := ExtractFieldValue(raw, schema.salaryFields);
            Truthy(v) && v.value.JStr? ==>
              (ExtractSalary(raw, schema).Some? <==> exists k :: 0 <= k < |v.value.s| && IsDigit(v.value.s[k]))
    ensures var v := ExtractFieldValue(raw, schema.salaryFields);
            Truthy(v) && v.value.JStr? && ExtractSalary(raw, schema).Some? ==>
              exists k: nat :: FirstDigitAt(v.value.s, 0, k)
                && ExtractSalary(raw, schema)
                   == Some(Salary(None, Some(JNum(DigitsValue(v.value.s[k..DigitRunEnd(v.value.s, k)]) as real)), None))
    ensures var v := ExtractFieldValue(raw, schema.salaryFields);
            v.Some? && v.value.JBool? ==> ExtractSalary(raw, schema).None?
  {
    var v := ExtractFieldValue(raw, schema.salaryFields);
    if Truthy(v) && v.value.JStr? {
      FirstNumberFound(v.value.s, 0);
    }
  }

  lemma {:induction false} FirstNumberFound(s: string, i: nat)
    requires i <= |s|
    ensures FirstNumberFrom(s, i).Some? <==> exists k :: i <= k < |s| && IsDigit(s[k])
    decreases |s| - i
  {
    if i < |s| && !IsDigit(s[i]) {
      FirstNumberFound(s, i + 1);
    }
  }

  /** The digit run at the first digit is the number found. */
  lemma FirstNumberAt(s: string, i: nat, k: nat)
    requires FirstDigitAt(s, i, k)
    ensures FirstNumberFrom(s, i) == Some(DigitsValue(s[k..DigitRunEnd(s, k)]))
  {
    var r := FirstNumberFrom(s, i);
    assert r.Some?;
    var k': nat :| FirstDigitAt(s, i, k') && r.value == DigitsValue(s[k'..DigitRunEnd(s, k')]);
    assert k' == k;
  }

  // ---------------------------------------------------------------- links

  datatype Links = Links(portfolio: Option<JsonValue>, github: Option<JsonValue>, linkedin: Option<JsonValue>)

  /** `a || b` assigned only when truthy, as `if (a || b) result.x = a || b` does. */
  function IfTruthy(v: Option<JsonValue>): (r: Option<JsonValue>)
    ensures Truthy(r) <==> Truthy(v)
    ensures r.Some? ==> r == v
  {
    if Truthy(v) then v else None
  }

  /** The direct `github`, `linkedin` and `portfolio` fields of the record. */
  function DirectLinks(raw: JsonValue): Links {
    Links(IfTruthy(PropChain(raw, ["portfolio", "website", "personalWebsite"])),
          IfTruthy(PropChain(raw, ["github", "githubUrl"])),
          IfTruthy(PropChain(raw, ["linkedin", "linkedinUrl"])))
  }

  /** `url.includes(text)`: substring search on a string, element search on an array,
      and a TypeError on anything else. */
  function UrlIncludes(url: JsonValue, text: string): Result<bool> {
    match url
    case JStr(s) => Ok(Contains(s, text))
    case JArr(items) => Ok(JStr(text) in items)
    case _ => Err("url.includes is not a function")
  }

  /** The URL of a portfolio entry: a string itself, else its `url || link`; reading a
      member of `null` throws. */
  function EntryUrl(item: JsonValue): Result<Option<JsonValue>> {
    if item.JStr? then Ok(Some(item))
    else if item.JNull? then Err("Cannot read properties of null (reading 'url')")
    else Ok(PropChain(item, ["url", "link"]))
  }

  /** What one portfolio entry does to the links: fill the github slot with a
      `github.com` URL, else the linkedin slot with a `linkedin.com` URL, else the
      portfolio slot; each only while that slot is falsy. */
  function LinkStep(links: Links, item: JsonValue): Result<Links> {
    var url :- EntryUrl(item);
    if !Truthy(url) then Ok(links)
    else
      var gh :- UrlIncludes(url.value, "github.com");
      if gh && !Truthy(links.github) then Ok(links.(github := url))
      else
        var li :- UrlIncludes(url.value, "linkedin.com");
        if li && !Truthy(links.linkedin) then Ok(links.(linkedin := url))
        else if !Truthy(links.portfolio) then Ok(links.(portfolio := url))
        else Ok(links)
  }

  function LinksOf(links: Links, items: seq<JsonValue>): Result<Links> {
    if items == [] then Ok(links)
    else
      var prev :- LinksOf(links, items[..|items| - 1]);
      LinkStep(prev, items[|items| - 1])
  }

  /** What `extractPortfolioLinks` returns for a record. */
  function LinksResult(raw: JsonValue, schema: DetectedSchema): Result<Links> {
    LinksOf(DirectLinks(raw), ExtractArrayField(raw, schema.portfolioFields))
  }

  /** The loop of `extractPortfolioLinks` over the portfolio entries. */
  method ApplyPortfolioEntries(start: Links, portfolioData: seq<JsonValue>) returns (r: Result<Links>)
    ensures r == LinksOf(start, portfolioData)
  {
    var result := start;
    var i := 0;
    while i < |portfolioData|
      invariant 0 <= i <= |portfolioData|
      invariant LinksOf(start, portfolioData[..i]) == Ok(result)
    {
      assert portfolioData[..i + 1][..i] == portfolioData[..i];
      var step := LinkStep(result, portfolioData[i]);
      if step.Err? {
        LinksOfErrPersists(start, portfolioData, i + 1);
        return step;
      }
      result := step.value;
      i := i + 1;
    }
    assert portfolioData[..i] == portfolioData;
    return Ok(result);
  }

  /** `extractPortfolioLinks`: the direct fields first, then each portfolio entry in turn. */
  method ExtractPortfolioLinks(raw: JsonValue, schema: DetectedSchema) returns (r: Result<Links>)
    ensures r == LinksResult(raw, schema)
  {
    var portfolioData := ExtractArrayField(raw, schema.portfolioFields);
    r := ApplyPortfolioEntries(DirectLinks(raw), portfolioData);
  }

  lemma {:induction false} LinksOfErrPersists(links: Links, items: seq<JsonValue>, i: nat)
    requires i <= |items| && LinksOf(links, items[..i]).Err?
    ensures LinksOf(links, items) == LinksOf(links, items[..i])
    decreases |items| - i
  {
    if i < |items| {
      assert items[..i + 1][..i] == items[..i];
      LinksOfErrPersists(links, items, i + 1);
    } else {
      assert items[..i] == items;
    }
  }

  /** Slot by slot, what a step keeps: a truthy slot is never overwritten, and a slot
      that changes receives the entry's URL. */
  predicate Keeps(before: Links, after: Links) {
    (Truthy(before.github) ==> after.github == before.github)
    && (Truthy(before.linkedin) ==> after.linkedin == before.linkedin)
    && (Truthy(before.portfolio) ==> after.portfolio == before.portfolio)
    && (Truthy(before.github) ==> Truthy(after.github))
    && (Truthy(before.linkedin) ==> Truthy(after.linkedin))
    && (Truthy(before.portfolio) ==> Truthy(after.portfolio))
  }

  /** Direct fields take precedence: once a slot holds a truthy value, no portfolio entry
      replaces it. */
  lemma {:induction false} LinksKeepTruthy(links: Links, items: seq<JsonValue>)
    requires LinksOf(links, items).Ok?
    ensures Keeps(links, LinksOf(links, items).value)
  {
    if items != [] {
      LinksKeepTruthy(links, items[..|items| - 1]);
    }
  }

  /** A `github.com` string URL whose slot is taken goes to the portfolio slot when that
      one is still empty. */
  lemma GithubFallsThrough(links: Links, url: string)
    requires Contains(url, "github.com") && !Contains(url, "linkedin.com")
    requires Truthy(links.github) && !Truthy(links.portfolio)
    ensures LinkStep(links, JStr(url)) == Ok(links.(portfolio := Some(JStr(url))))
  {
  }

  // ---------------------------------------------------------------- summary

  /** `generateSummary` */
  function GenerateSummary(raw: JsonValue, schema: DetectedSchema, fracText: real -> string): string {
    var summary := PropChain(raw, ["summary", "bio", "about", "description"]);
    if Truthy(summary) then ToText(summary, fracText)
    else
      var role := ExtractFieldValue(raw, schema.roleFields);
      var location := ExtractFieldValue(raw, schema.locationFields);
      var parts := (if Truthy(role) then [ToText(role, fracText)] else [])
                   + (if Truthy(location) then ["based in " + ToText(location, fracText)] else []);
      var joined := Join(parts, " ");
      if joined != "" then joined else "No summary available"
  }

  /** The record's own summary, when it is a non-empty string, is used verbatim. */
  lemma OwnSummaryWins(raw: JsonValue, schema: DetectedSchema, fracText: real -> string)
    requires var own := PropChain(raw, ["summary", "bio", "about", "description"]);
             Truthy(own) && own.value.JStr?
    ensures GenerateSummary(raw, schema, fracText) == PropChain(raw, ["summary", "bio", "about", "description"]).value.s
  {
  }

  /** Otherwise the role and the location are joined by a space. */
  lemma RoleAndLocationSummary(raw: JsonValue, schema: DetectedSchema, fracText: real -> string)
    requires !Truthy(PropChain(raw, ["summary", "bio", "about", "description"]))
    requires var role := ExtractFieldValue(raw, schema.roleFields);
             Truthy(role) && role.value.JStr?
    requires var location := ExtractFieldValue(raw, schema.locationFields);
             Truthy(location) && location.value.JStr?
    ensures GenerateSummary(raw, schema, fracText)
            == ExtractFieldValue(raw, schema.roleFields).value.s + " " + "based in "
               + ExtractFieldValue(raw, schema.locationFields).value.s
  {
    var role := ExtractFieldValue(raw, schema.roleFields);
    var location := ExtractFieldValue(raw, schema.locationFields);
    assert ToText(role, fracText) == role.value.s;
    assert ToText(location, fracText) == location.value.s;
    var parts := [role.value.s, "based in " + location.value.s];
    assert ([ToText(role, fracText)] + ["based in " + ToText(location, fracText)]) == parts;
    assert Join(parts, " ") == parts[0] + " " + parts[1];
    assert parts[0] + " " + parts[1] != "";
  }

  /** With neither a summary, a role nor a location the fixed text is used. */
  lemma FallbackSummary(raw: JsonValue, schema: DetectedSchema, fracText: real -> string)
    requires !Truthy(PropChain(raw, ["summary", "bio", "about", "description"]))
    requires !Truthy(ExtractFieldValue(raw, schema.roleFields))
    requires !Truthy(ExtractFieldValue(raw, schema.locationFields))
    ensures GenerateSummary(raw, schema, fracText) == "No summary available"
  {
  }

  // ---------------------------------------------------------------- records

  /** `String(x)` when `x` is truthy, else `undefined`. */
  function TextIfTruthy(v: Option<JsonValue>, fracText: real -> string): Option<string> {
    if Truthy(v) then Some(ToText(v, fracText)) else None
  }

  /** `normalizeCandidate`: `Err` when the record is `null` (reading `rawCandidate.id`
      throws) or when experience or links throw. */
  function NormalizeCandidate(raw: JsonValue, schema: DetectedSchema, index: nat, fracText: real -> string,
                              yearsBetween: (JsonValue, JsonValue) -> Option<real>): (r: Result<NormalizedCandidate>)
    ensures r.Err? <==> raw.JNull? || ExperienceResult(raw, schema, yearsBetween).Err? || LinksResult(raw, schema).Err?
    ensures r.Ok? ==> r.value.rawData == raw
  {
    if raw.JNull? then Err("Cannot read properties of null (reading 'id')")
    else
      var id := Prop(raw, "id");
      var name := ExtractFieldValue(raw, schema.nameFields);
      var email := ExtractFieldValue(raw, schema.emailFields);
      var experience :- ExperienceResult(raw, schema, yearsBetween);
      var links :- LinksResult(raw, schema);
      Ok(NormalizedCandidate(
        if Truthy(id) then ToText(id, fracText) else "candidate_" + NatText(index),
        if Truthy(name) then ToText(name, fracText) else "Candidate " + NatText(index),
        if Truthy(email) then ToText(email, fracText) else "",
        TextIfTruthy(ExtractFieldValue(raw, schema.phoneFields), fracText),
        TextIfTruthy(ExtractFieldValue(raw, schema.roleFields), fracText),
        Some(experience.total),
        SkillList(raw, schema, fracText),
        experience.items,
        EducationOf(ExtractArrayField(raw, schema.educationFields)),
        ExtractSalary(raw, schema),
        TextIfTruthy(ExtractFieldValue(raw, schema.locationFields), fracText),
        links.portfolio,
        links.github,
        links.linkedin,
        Some(GenerateSummary(raw, schema, fracText)),
        raw))
  }

  /** The defaults of the identifying fields, and a skill list without duplicates. */
  lemma NormalizeDefaults(raw: JsonValue, schema: DetectedSchema, index: nat, fracText: real -> string,
                          yearsBetween: (JsonValue, JsonValue) -> Option<real>)
    requires NormalizeCandidate(raw, schema, index, fracText, yearsBetween).Ok?
    ensures var c := NormalizeCandidate(raw, schema, index, fracText, yearsBetween).value;
            (!Truthy(Prop(raw, "id")) ==> c.id == "candidate_" + NatText(index))
            && (!Truthy(ExtractFieldValue(raw, schema.nameFields)) ==> c.name == "Candidate " + NatText(index))
            && (!Truthy(ExtractFieldValue(raw, schema.emailFields)) ==> c.email == "")
            && Distinct(c.skills)
  {
    SkillListSpec(raw, schema, fracText);
  }

  /** `xs.map((x, i) => f(x, i))` where `f` may throw: the first failure ends the map. */
  function MapIndexed<T, U>(xs: seq<T>, f: (T, nat) -> Result<U>): Result<seq<U>> {
    if xs == [] then Ok([])
    else
      var prev :- MapIndexed(xs[..|xs| - 1], f);
      var last :- f(xs[|xs| - 1], |xs| - 1);
      Ok(prev + [last])
  }

  lemma {:induction false} MapIndexedSpec<T, U>(xs: seq<T>, f: (T, nat) -> Result<U>)
    requires MapIndexed(xs, f).Ok?
    ensures |MapIndexed(xs, f).value| == |xs|
    ensures forall i :: 0 <= i < |xs| ==> f(xs[i], i) == Ok(MapIndexed(xs, f).value[i])
  {
    if xs != [] {
      var init := xs[..|xs| - 1];
      MapIndexedSpec(init, f);
      assert forall i :: 0 <= i < |init| ==> init[i] == xs[i];
    }
  }

  lemma {:induction false} MapIndexedOk<T, U>(xs: seq<T>, f: (T, nat) -> Result<U>)
    ensures MapIndexed(xs, f).Ok? <==> forall i :: 0 <= i < |xs| ==> f(xs[i], i).Ok?
  {
    if xs != [] {
      var init := xs[..|xs| - 1];
      MapIndexedOk(init, f);
      assert forall i :: 0 <= i < |init| ==> init[i] == xs[i];
    }
  }

  /** `rawCandidates.map((c, i) => normalizeCandidate(c, schema, i))`, which throws at
      the first record that throws. */
  function NormalizeCandidates(raws: seq<JsonValue>, schema: DetectedSchema, fracText: real -> string,
                               yearsBetween: (JsonValue, JsonValue) -> Option<real>): Result<seq<NormalizedCandidate>> {
    MapIndexed(raws, (raw, i) => NormalizeCandidate(raw, schema, i, fracText, yearsBetween))
  }

  /** The mapping keeps the length and passes each record its own position. */
  lemma NormalizeCandidatesSpec(raws: seq<JsonValue>, schema: DetectedSchema, fracText: real -> string,
                                yearsBetween: (JsonValue, JsonValue) -> Option<real>)
    requires NormalizeCandidates(raws, schema, fracText, yearsBetween).Ok?
    ensures |NormalizeCandidates(raws, schema, fracText, yearsBetween).value| == |raws|
    ensures forall i :: 0 <= i < |raws| ==>
              NormalizeCandidate(raws[i], schema, i, fracText, yearsBetween)
                == Ok(NormalizeCandidates(raws, schema, fracText, yearsBetween).value[i])
  {
    MapIndexedSpec(raws, (raw, i) => NormalizeCandidate(raw, schema, i, fracText, yearsBetween));
  }

  /** The mapping succeeds exactly when every record normalises. */
  lemma NormalizeCandidatesOk(raws: seq<JsonValue>, schema: DetectedSchema, fracText: real -> string,
                              yearsBetween: (JsonValue, JsonValue) -> Option<real>)
    ensures NormalizeCandidates(raws, schema, fracText, yearsBetween).Ok? <==>
              forall i :: 0 <= i < |raws| ==> NormalizeCandidate(raws[i], schema, i, fracText, yearsBetween).Ok?
  {
    MapIndexedOk(raws, (raw, i) => NormalizeCandidate(raw, schema, i, fracText, yearsBetween));
  }
}
