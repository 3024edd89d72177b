/** Schema detection: which keys of the uploaded records hold which semantic field,
    and the first-match lookups the normaliser performs with the detected key lists. */
module SchemaDetector {
  import opened Wrappers
  import opened Strings
  import opened Json
  import opened Types
  import opened Seqs

  /** A row of the field-pattern table: a category and the patterns that select it. */
  datatype Row = Row(category: Category, patterns: seq<string>)

  /** The field-pattern table, in the order in which its rows are tried. Each pattern is
      given with its separators already removed, as every key is matched against it. */
  const FieldTable: seq<Row> := [
    Row(NameCat, ["name", "fullname", "fullname", "candidatename", "applicantname", "candidatename"]),
    Row(EmailCat, ["email", "emailaddress", "emailaddress", "mail", "email"]),
    Row(PhoneCat, ["phone", "phonenumber", "phonenumber", "mobile", "contact", "telephone", "cell"]),
    Row(RoleCat, ["role", "position", "title", "jobtitle", "jobtitle", "currentrole", "desiredrole", "designation"]),
    Row(ExperienceCat, ["experience", "workexperience", "employment", "workhistory", "jobhistory", "previousroles", "career"]),
    Row(SkillsCat, ["skills", "technicalskills", "technologies", "techstack", "competencies", "expertise", "proficiencies"]),
    Row(EducationCat, ["education", "academic", "qualifications", "degrees", "schooling", "university"]),
    Row(SalaryCat, ["salary", "compensation", "expectedsalary", "currentsalary", "ctc", "package", "pay"]),
    Row(LocationCat, ["location", "city", "address", "currentlocation", "residence", "basedin", "region"]),
    Row(PortfolioCat, ["portfolio", "website", "personalsite", "projects", "github", "linkedin", "url", "link"])
  ]

  lemma FieldTableCategories()
    ensures forall u :: 0 <= u < |FieldTable| ==> FieldTable[u].category != UnknownCat
  {
  }

  /** The maximum number of records whose keys are sampled. */
  const SampleSize: nat := 50

  /** The characters of the class `[_\s-]`. */
  predicate IsSeparator(c: char) {
    c == '_' || c == '-' || IsSpace(c)
  }

  /** `s.replace(/[_\s-]/g, '')` */
  function StripSeparators(s: string): string {
    if s == [] then [] else (if IsSeparator(s[0]) then [] else [s[0]]) + StripSeparators(s[1..])
  }

  /** `key.toLowerCase().replace(/[_\s-]/g, '')` */
  function NormalizeKey(key: string): string {
    StripSeparators(Lower(key))
  }

  /** `patterns.some(p => normalizedKey.includes(p.replace(/[_\s-]/g, '')))` */
  predicate MatchesAny(normalizedKey: string, patterns: seq<string>) {
    exists i :: 0 <= i < |patterns| && Contains(normalizedKey, patterns[i])
  }

  /** The category of the first row from `t` on with a pattern contained in `nk`. */
  function ClassifyIn(table: seq<Row>, nk: string, t: nat): Category
    requires t <= |table|
    decreases |table| - t
  {
    if t == |table| then UnknownCat
    else if MatchesAny(nk, table[t].patterns) then table[t].category
    else ClassifyIn(table, nk, t + 1)
  }

  /** The category of a key (see `ClassifySpec`). */
  function Classify(key: string): Category {
    ClassifyIn(FieldTable, NormalizeKey(key), 0)
  }

  lemma {:induction false} ClassifyInSpec(table: seq<Row>, nk: string, t: nat)
    requires t <= |table|
    requires forall u :: 0 <= u < |table| ==> table[u].category != UnknownCat
    ensures ClassifyIn(table, nk, t) == UnknownCat <==>
              forall u :: t <= u < |table| ==> !MatchesAny(nk, table[u].patterns)
    ensures ClassifyIn(table, nk, t) != UnknownCat ==>
              exists u :: t <= u < |table| && table[u].category == ClassifyIn(table, nk, t)
                && MatchesAny(nk, table[u].patterns)
                && forall v :: t <= v < u ==> !MatchesAny(nk, table[v].patterns)
    decreases |table| - t
  {
    if t < |table| && !MatchesAny(nk, table[t].patterns) {
      ClassifyInSpec(table, nk, t + 1);
    }
  }

  lemma {:induction false} ClassifyInFirstMatch(table: seq<Row>, nk: string, t: nat, u: nat)
    requires t <= u < |table| && MatchesAny(nk, table[u].patterns)
    requires forall v :: t <= v < u ==> !MatchesAny(nk, table[v].patterns)
    ensures ClassifyIn(table, nk, t) == table[u].category
    decreases u - t
  {
    if t < u {
      ClassifyInFirstMatch(table, nk, t + 1, u);
    }
  }

  /** A key goes to the category of the first table row that has a pattern contained in
      the normalised key, and to `UnknownCat` exactly when no row has one. */
  lemma ClassifySpec(key: string)
    ensures Classify(key) == UnknownCat <==>
              forall u :: 0 <= u < |FieldTable| ==> !MatchesAny(NormalizeKey(key), FieldTable[u].patterns)
    ensures Classify(key) != UnknownCat ==>
              exists u :: 0 <= u < |FieldTable| && FieldTable[u].category == Classify(key)
                && MatchesAny(NormalizeKey(key), FieldTable[u].patterns)
                && forall v :: 0 <= v < u ==> !MatchesAny(NormalizeKey(key), FieldTable[v].patterns)
  {
    ClassifyInSpec(FieldTable, NormalizeKey(key), 0);
  }

  /** The keys of the sampled records, each once, in first-seen order; `Err` where
      `Object.keys` throws (a `null` record). */
  function KeysOf(records: seq<JsonValue>): Result<seq<string>> {
    if records == [] then Ok([])
    else
      var prev := KeysOf(records[..|records| - 1]);
      if prev.Err? then prev
      else
        var ks := ObjectKeys(records[|records| - 1]);
        if ks.Err? then Err(ks.message) else Ok(AppendNew(prev.value, ks.value))
  }

  lemma {:induction false} KeysOfErrPersists(records: seq<JsonValue>, i: nat)
    requires i <= |records| && KeysOf(records[..i]).Err?
    ensures KeysOf(records) == KeysOf(records[..i])
    decreases |records| - i
  {
    if i < |records| {
      assert records[..i + 1][..i] == records[..i];
      KeysOfErrPersists(records, i + 1);
    } else {
      assert records[..i] == records;
    }
  }

  /** Sampled keys are distinct, and a key is sampled exactly when some record of the
      sample has it. */
  lemma {:induction false} KeysOfSpec(records: seq<JsonValue>)
    requires KeysOf(records).Ok?
    ensures Distinct(KeysOf(records).value)
    ensures forall k :: k in KeysOf(records).value <==>
              exists i :: 0 <= i < |records| && ObjectKeys(records[i]).Ok? && k in ObjectKeys(records[i]).value
  {
    if records != [] {
      var init := records[..|records| - 1];
      KeysOfSpec(init);
      var last := records[|records| - 1];
      AppendNewSpec(KeysOf(init).value, ObjectKeys(last).value);
      forall k
        ensures k in KeysOf(records).value <==>
          exists i :: 0 <= i < |records| && ObjectKeys(records[i]).Ok? && k in ObjectKeys(records[i]).value
      {
        if k in KeysOf(records).value && k !in ObjectKeys(last).value {
          var i :| 0 <= i < |init| && ObjectKeys(init[i]).Ok? && k in ObjectKeys(init[i]).value;
          assert records[i] == init[i];
        }
        if exists i :: 0 <= i < |records| && ObjectKeys(records[i]).Ok? && k in ObjectKeys(records[i]).value {
          var i :| 0 <= i < |records| && ObjectKeys(records[i]).Ok? && k in ObjectKeys(records[i]).value;
          if i < |init| {
            assert init[i] == records[i];
          }
        }
      }
    }
  }

  /** The keys of the sampled records one after another, duplicates included. */
  function SampledKeys(records: seq<JsonValue>): seq<string> {
    if records == [] then []
    else
      var ks := ObjectKeys(records[|records| - 1]);
      SampledKeys(records[..|records| - 1]) + (if ks.Ok? then ks.value else [])
  }

  /** The collected keys are those of the sampled records in first-seen order: each key
      appears once, where it first appears in record order and key order. */
  lemma {:induction false} KeysOfOrder(records: seq<JsonValue>)
    requires KeysOf(records).Ok?
    ensures KeysOf(records).value == Dedup(SampledKeys(records))
  {
    if records != [] {
      var init := records[..|records| - 1];
      KeysOfOrder(init);
      var ks := ObjectKeys(records[|records| - 1]);
      AppendNewConcat([], SampledKeys(init), ks.value);
    }
  }

  /** Only a `null` record among those sampled makes key collection fail. */
  lemma {:induction false} KeysOfOk(records: seq<JsonValue>)
    requires forall i :: 0 <= i < |records| ==> !records[i].JNull?
    ensures KeysOf(records).Ok?
  {
    if records != [] {
      KeysOfOk(records[..|records| - 1]);
    }
  }

  /** The schema built by classifying `keys` in order. */
  function SchemaOf(keys: seq<string>): DetectedSchema {
    if keys == [] then EmptySchema
    else SchemaOf(keys[..|keys| - 1]).Push(Classify(keys[|keys| - 1]), keys[|keys| - 1])
  }

  /** The keys of category `c`, in key order. */
  function OfCategory(keys: seq<string>, c: Category): seq<string> {
    if keys == [] then []
    else OfCategory(keys[..|keys| - 1], c) + (if Classify(keys[|keys| - 1]) == c then [keys[|keys| - 1]] else [])
  }

  lemma {:induction false} OfCategoryMembers(keys: seq<string>, c: Category, k: string)
    ensures k in OfCategory(keys, c) <==> k in keys && Classify(k) == c
  {
    if keys != [] {
      var init := keys[..|keys| - 1];
      OfCategoryMembers(init, c, k);
      assert keys == init + [keys[|keys| - 1]];
    }
  }

  /** Each list of the schema is exactly the keys of its category, in key order. */
  lemma {:induction false} SchemaOfLists(keys: seq<string>, c: Category)
    ensures SchemaOf(keys).FieldsOf(c) == OfCategory(keys, c)
  {
    if keys != [] {
      SchemaOfLists(keys[..|keys| - 1], c);
    }
  }

  /** Every key appears in exactly one list: the one of its category. */
  lemma SchemaOfPartition(keys: seq<string>, k: string)
    requires k in keys
    ensures k in SchemaOf(keys).FieldsOf(Classify(k))
    ensures forall c :: c != Classify(k) ==> k !in SchemaOf(keys).FieldsOf(c)
  {
    SchemaOfLists(keys, Classify(k));
    OfCategoryMembers(keys, Classify(k), k);
    forall c | c != Classify(k) ensures k !in SchemaOf(keys).FieldsOf(c) {
      SchemaOfLists(keys, c);
      OfCategoryMembers(keys, c, k);
    }
  }

  function Min(a: nat, b: nat): nat {
    if a < b then a else b
  }

  /** What `detectSchema` computes: an error on an empty list or on a sampled `null`
      record, otherwise the classification of the sampled keys. */
  function SchemaResult(candidates: seq<JsonValue>): Result<DetectedSchema> {
    if |candidates| == 0 then Err("Cannot detect schema from empty candidate array")
    else
      var keys := KeysOf(candidates[..Min(SampleSize, |candidates|)]);
      if keys.Err? then Err(keys.message) else Ok(SchemaOf(keys.value))
  }

  /** The key-collection loop of `detectSchema`: every key of every sampled record,
      added to an insertion-ordered set; `Object.keys` throws on a `null` record. */
  method CollectKeys(sample: seq<JsonValue>) returns (r: Result<seq<string>>)
    ensures r == KeysOf(sample)
  {
    var allKeys: seq<string> := [];
    var i := 0;
    while i < |sample|
      invariant 0 <= i <= |sample|
      invariant KeysOf(sample[..i]) == Ok(allKeys)
    {
      assert sample[..i + 1][..i] == sample[..i];
      var ks := ObjectKeys(sample[i]);
      if ks.Err? {
        KeysOfErrPersists(sample, i + 1);
        return Err(ks.message);
      }
      var before := allKeys;
      var j := 0;
      while j < |ks.value|
        invariant 0 <= j <= |ks.value|
        invariant allKeys == AppendNew(before, ks.value[..j])
      {
        assert ks.value[..j + 1][..j] == ks.value[..j];
        if ks.value[j] !in allKeys {
          allKeys := allKeys + [ks.value[j]];
        }
        j := j + 1;
      }
      assert ks.value[..j] == ks.value;
      i := i + 1;
    }
    assert sample[..i] == sample;
    return Ok(allKeys);
  }

  /** The body of the classification loop of `detectSchema` for one key: the key is
      pushed onto the list of the first row with a matching pattern (the loop breaks
      there), or onto `unknownFields` when no row matches. */
  method ClassifyInto(schema: DetectedSchema, key: string) returns (r: DetectedSchema)
    ensures r == schema.Push(Classify(key), key)
  {
    var normalizedKey := NormalizeKey(key);
    var t := 0;
    while t < |FieldTable|
      invariant 0 <= t <= |FieldTable|
      invariant forall u :: 0 <= u < t ==> !MatchesAny(normalizedKey, FieldTable[u].patterns)
    {
      if MatchesAny(normalizedKey, FieldTable[t].patterns) {
        ClassifyInFirstMatch(FieldTable, normalizedKey, 0, t);
        return schema.Push(FieldTable[t].category, key);
      }
      t := t + 1;
    }
    FieldTableCategories();
    ClassifyInSpec(FieldTable, normalizedKey, 0);
    return schema.Push(UnknownCat, key);
  }

  /** The classification loop of `detectSchema`: each key, in order, joins its category's list. */
  method ClassifyAll(allKeys: seq<string>) returns (schema: DetectedSchema)
    ensures schema == SchemaOf(allKeys)
  {
    schema := EmptySchema;
    var k := 0;
    while k < |allKeys|
      invariant 0 <= k <= |allKeys|
      invariant schema == SchemaOf(allKeys[..k])
    {
      assert allKeys[..k + 1][..k] == allKeys[..k];
      schema := ClassifyInto(schema, allKeys[k]);
      k := k + 1;
    }
    assert allKeys[..k] == allKeys;
  }

  /** `detectSchema`: collects the keys of the first 50 records, then classifies each. */
  method DetectSchema(candidates: seq<JsonValue>) returns (r: Result<DetectedSchema>)
    ensures r == SchemaResult(candidates)
  {
    if |candidates| == 0 {
      return Err("Cannot detect schema from empty candidate array");
    }
    var sample := candidates[..Min(SampleSize, |candidates|)];
    var collected := CollectKeys(sample);
    if collected.Err? {
      return Err(collected.message);
    }
    var schema := ClassifyAll(collected.value);
    return Ok(schema);
  }

  /** An empty list is the only input without a schema, apart from a sampled `null` record. */
  lemma DetectSchemaSucceeds(candidates: seq<JsonValue>)
    requires forall i :: 0 <= i < |candidates| ==> !candidates[i].JNull?
    ensures SchemaResult(candidates).Ok? <==> |candidates| > 0
  {
    if |candidates| > 0 {
      KeysOfOk(candidates[..Min(SampleSize, |candidates|)]);
    }
  }

  /** A value `extractFieldValue` accepts: defined, not `null` and not `''`. */
  predicate Present(v: Option<JsonValue>) {
    v.Some? && v.value != JNull && v.value != JStr("")
  }

  /** `extractFieldValue`: the value of the first listed field that is present. */
  function ExtractFieldValue(candidate: JsonValue, fieldList: seq<string>): Option<JsonValue> {
    if fieldList == [] then None
    else if Present(Prop(candidate, fieldList[0])) then Prop(candidate, fieldList[0])
    else ExtractFieldValue(candidate, fieldList[1..])
  }

  /** The result is the first listed field that is present, and nothing when none is. */
  lemma {:induction false} ExtractFieldValueSpec(candidate: JsonValue, fieldList: seq<string>)
    ensures var r := ExtractFieldValue(candidate, fieldList);
            r.Some? ==>
              exists i :: 0 <= i < |fieldList| && r == Prop(candidate, fieldList[i])
                && forall j :: 0 <= j < i ==> !Present(Prop(candidate, fieldList[j]))
    ensures var r := ExtractFieldValue(candidate, fieldList); r.Some? <==> Present(r)
    ensures ExtractFieldValue(candidate, fieldList).None? <==>
              forall i :: 0 <= i < |fieldList| ==> !Present(Prop(candidate, fieldList[i]))
  {
    if fieldList != [] && !Present(Prop(candidate, fieldList[0])) {
      ExtractFieldValueSpec(candidate, fieldList[1..]);
      assert forall i :: 1 <= i < |fieldList| ==> fieldList[i] == fieldList[1..][i - 1];
      var r := ExtractFieldValue(candidate, fieldList);
      if r.Some? {
        var i :| 0 <= i < |fieldList[1..]| && r == Prop(candidate, fieldList[1..][i])
                 && forall j :: 0 <= j < i ==> !Present(Prop(candidate, fieldList[1..][j]));
        assert r == Prop(candidate, fieldList[i + 1]);
        forall j | 0 <= j < i + 1 ensures !Present(Prop(candidate, fieldList[j])) {
          if j > 0 {
            assert fieldList[j] == fieldList[1..][j - 1];
          }
        }
      }
    }
  }

  /** `0` and `false` are values, unlike `null` and `''`. */
  lemma ZeroAndFalseArePresent(key: string)
    ensures ExtractFieldValue(JObj([(key, JNum(0.0))]), [key]) == Some(JNum(0.0))
    ensures ExtractFieldValue(JObj([(key, JBool(false))]), [key]) == Some(JBool(false))
    ensures ExtractFieldValue(JObj([(key, JStr(""))]), [key]) == None
  {
  }

  predicate IsArrayOrString(v: Option<JsonValue>) {
    v.Some? && (v.value.JArr? || v.value.JStr?)
  }

  /** `s.split(',').map(v => v.trim()).filter(v => v)` as JSON strings. */
  function CommaItems(s: string): (r: seq<JsonValue>)
    ensures forall k :: 0 <= k < |r| ==> r[k].JStr? && r[k].s != ""
  {
    var pieces := NonEmptyTrimmed(Split(s, {','}));
    seq(|pieces|, i requires 0 <= i < |pieces| => JStr(pieces[i]))
  }

  function ArrayItems(v: JsonValue): seq<JsonValue> {
    if v.JArr? then v.items else if v.JStr? then CommaItems(v.s) else []
  }

  /** `extractArrayField`: the first listed field holding an array or a string decides
      the result, the array as is or the string split on commas; other values are
      passed over; `[]` when no field qualifies. */
  function ExtractArrayField(candidate: JsonValue, fieldList: seq<string>): seq<JsonValue> {
    if fieldList == [] then []
    else if IsArrayOrString(Prop(candidate, fieldList[0])) then ArrayItems(Prop(candidate, fieldList[0]).value)
    else ExtractArrayField(candidate, fieldList[1..])
  }

  /** The first qualifying field decides; without one the result is empty. */
  lemma {:induction false} ExtractArrayFieldSpec(candidate: JsonValue, fieldList: seq<string>)
    ensures (forall i :: 0 <= i < |fieldList| ==> !IsArrayOrString(Prop(candidate, fieldList[i])))
              ==> ExtractArrayField(candidate, fieldList) == []
    ensures forall i :: 0 <= i < |fieldList| && IsArrayOrString(Prop(candidate, fieldList[i]))
              && (forall j :: 0 <= j < i ==> !IsArrayOrString(Prop(candidate, fieldList[j])))
              ==> ExtractArrayField(candidate, fieldList) == ArrayItems(Prop(candidate, fieldList[i]).value)
  {
    if fieldList != [] && !IsArrayOrString(Prop(candidate, fieldList[0])) {
      ExtractArrayFieldSpec(candidate, fieldList[1..]);
      assert forall i :: 1 <= i < |fieldList| ==> fieldList[i] == fieldList[1..][i - 1];
      forall i | 0 <= i < |fieldList| && IsArrayOrString(Prop(candidate, fieldList[i]))
                 && (forall j :: 0 <= j < i ==> !IsArrayOrString(Prop(candidate, fieldList[j])))
        ensures ExtractArrayField(candidate, fieldList) == ArrayItems(Prop(candidate, fieldList[i]).value)
      {
        assert i > 0;
        assert fieldList[i] == fieldList[1..][i - 1];
        forall j | 0 <= j < i - 1 ensures !IsArrayOrString(Prop(candidate, fieldList[1..][j])) {
          assert fieldList[1..][j] == fieldList[j + 1];
        }
      }
    }
  }

  /** A string field that splits into nothing still wins over a later array field. */
  lemma BlankStringFieldWins()
    ensures ExtractArrayField(JObj([("a", JStr(",")), ("b", JArr([JNum(1.0)]))]), ["a", "b"]) == []
  {
    assert Prop(JObj([("a", JStr(",")), ("b", JArr([JNum(1.0)]))]), "a") == Some(JStr(","));
    assert ","[1..] == "";
    assert Split(",", {','}) == ["", ""];
  }
}
