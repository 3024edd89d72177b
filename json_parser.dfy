/** Locating the candidate array in an uploaded document, and the structural check of
    the records found. `JSON.parse` is an oracle: the caller passes its outcome, a
    value or the message of the `SyntaxError` it raised. */
module JsonParser {
  import opened Wrappers
  import opened Json
  import opened Seqs

  /** The member names tried first, in order. */
  const ArrayKeys: seq<string> := ["candidates", "applications", "data", "results", "applicants", "users"]

  /** The first of `keys` whose member is an array (possibly empty). */
  function KnownArray(obj: JsonValue, keys: seq<string>): (r: Option<seq<JsonValue>>)
    ensures r.Some? ==> exists i :: 0 <= i < |keys| && Prop(obj, keys[i]) == Some(JArr(r.value))
  {
    if keys == [] then None
    else
      var v := Prop(obj, keys[0]);
      if v.Some? && v.value.JArr? then Some(v.value.items) else KnownArray(obj, keys[1..])
  }

  /** The first of `keys` whose member is a non-empty array. */
  function AnyNonEmptyArray(obj: JsonValue, keys: seq<string>): (r: Option<seq<JsonValue>>)
    ensures r.Some? ==> r.value != [] && exists i :: 0 <= i < |keys| && Prop(obj, keys[i]) == Some(JArr(r.value))
  {
    if keys == [] then None
    else
      var v := Prop(obj, keys[0]);
      if v.Some? && v.value.JArr? && |v.value.items| > 0 then Some(v.value.items) else AnyNonEmptyArray(obj, keys[1..])
  }

  /** `parseJsonFile` applied to the outcome of `JSON.parse`. */
  function ParseJsonFile(parsed: Result<JsonValue>): Result<seq<JsonValue>> {
    if parsed.Err? then Err("Invalid JSON format: " + parsed.message)
    else
      var v := parsed.value;
      if v.JArr? then Ok(v.items)
      else if v.JObj? then
        var known := KnownArray(v, ArrayKeys);
        if known.Some? then Ok(known.value)
        else
          var keys := ObjectKeys(v).value;
          var any := AnyNonEmptyArray(v, keys);
          if any.Some? then Ok(any.value) else Err("Could not find candidate array in JSON structure")
      else Err("Could not find candidate array in JSON structure")
  }

  /** A top-level array is the candidate list itself. */
  lemma TopLevelArrayIsReturned(items: seq<JsonValue>)
    ensures ParseJsonFile(Ok(JArr(items))) == Ok(items)
  {
  }

  /** A known member holding an array wins, even an empty one, over any other member. */
  lemma {:induction false} KnownArrayWins(fields: seq<(string, JsonValue)>, i: nat, items: seq<JsonValue>)
    requires i < |ArrayKeys| && Prop(JObj(fields), ArrayKeys[i]) == Some(JArr(items))
    requires forall j :: 0 <= j < i ==> !(Prop(JObj(fields), ArrayKeys[j]).Some? && Prop(JObj(fields), ArrayKeys[j]).value.JArr?)
    ensures ParseJsonFile(Ok(JObj(fields))) == Ok(items)
  {
    KnownArrayFirst(JObj(fields), ArrayKeys, i);
  }

  lemma {:induction false} KnownArrayFirst(obj: JsonValue, keys: seq<string>, i: nat)
    requires i < |keys| && Prop(obj, keys[i]).Some? && Prop(obj, keys[i]).value.JArr?
    requires forall j :: 0 <= j < i ==> !(Prop(obj, keys[j]).Some? && Prop(obj, keys[j]).value.JArr?)
    ensures KnownArray(obj, keys) == Some(Prop(obj, keys[i]).value.items)
  {
    if i > 0 {
      assert forall j :: 0 <= j < i - 1 ==> keys[1..][j] == keys[j + 1];
      KnownArrayFirst(obj, keys[1..], i - 1);
    }
  }

  /** Without a known member and without any non-empty array member, there is no list. */
  lemma {:induction false} NoArrayIsAnError(fields: seq<(string, JsonValue)>)
    requires forall j :: 0 <= j < |ArrayKeys| ==> !(Prop(JObj(fields), ArrayKeys[j]).Some? && Prop(JObj(fields), ArrayKeys[j]).value.JArr?)
    requires forall k :: 0 <= k < |fields| ==> !(Prop(JObj(fields), fields[k].0).Some? && Prop(JObj(fields), fields[k].0).value.JArr?
                                                 && |Prop(JObj(fields), fields[k].0).value.items| > 0)
    ensures ParseJsonFile(Ok(JObj(fields))) == Err("Could not find candidate array in JSON structure")
  {
    NoKnownArray(JObj(fields), ArrayKeys);
    var keys := ObjectKeys(JObj(fields)).value;
    NoNonEmptyArray(JObj(fields), keys);
  }

  lemma {:induction false} NoKnownArray(obj: JsonValue, keys: seq<string>)
    requires forall j :: 0 <= j < |keys| ==> !(Prop(obj, keys[j]).Some? && Prop(obj, keys[j]).value.JArr?)
    ensures KnownArray(obj, keys).None?
  {
    if keys != [] {
      assert forall j :: 0 <= j < |keys| - 1 ==> keys[1..][j] == keys[j + 1];
      NoKnownArray(obj, keys[1..]);
    }
  }

  lemma {:induction false} NoNonEmptyArray(obj: JsonValue, keys: seq<string>)
    requires forall j :: 0 <= j < |keys| ==> !(Prop(obj, keys[j]).Some? && Prop(obj, keys[j]).value.JArr?
                                                && |Prop(obj, keys[j]).value.items| > 0)
    ensures AnyNonEmptyArray(obj, keys).None?
  {
    if keys != [] {
      assert forall j :: 0 <= j < |keys| - 1 ==> keys[1..][j] == keys[j + 1];
      NoNonEmptyArray(obj, keys[1..]);
    }
  }

  /** `keys[i]` holds a non-empty array. */
  predicate NonEmptyArrayAt(obj: JsonValue, keys: seq<string>, i: nat)
    requires i < |keys|
  {
    var v := Prop(obj, keys[i]);
    v.Some? && v.value.JArr? && |v.value.items| > 0
  }

  /** The fallback search returns the array of the first name holding a non-empty array. */
  lemma {:induction false} AnyNonEmptyArrayFirst(obj: JsonValue, keys: seq<string>, i: nat)
    requires i < |keys| && NonEmptyArrayAt(obj, keys, i)
    requires forall j :: 0 <= j < i ==> !NonEmptyArrayAt(obj, keys, j)
    ensures AnyNonEmptyArray(obj, keys) == Some(Prop(obj, keys[i]).value.items)
  {
    if i > 0 {
      assert !NonEmptyArrayAt(obj, keys, 0);
      forall j | 0 <= j < i - 1
        ensures !NonEmptyArrayAt(obj, keys[1..], j)
      {
        assert keys[1..][j] == keys[j + 1];
        assert !NonEmptyArrayAt(obj, keys, j + 1);
      }
      assert keys[1..][i - 1] == keys[i];
      AnyNonEmptyArrayFirst(obj, keys[1..], i - 1);
    }
  }

  /** The fallback search finds an array iff some name holds a non-empty array. */
  lemma AnyNonEmptyArrayFound(obj: JsonValue, keys: seq<string>)
    ensures AnyNonEmptyArray(obj, keys).Some? <==> exists i :: 0 <= i < |keys| && NonEmptyArrayAt(obj, keys, i)
  {
    if exists i :: 0 <= i < |keys| && NonEmptyArrayAt(obj, keys, i) {
      var i := FirstNonEmptyArray(obj, keys);
      AnyNonEmptyArrayFirst(obj, keys, i);
    } else {
      forall j | 0 <= j < |keys|
        ensures !(Prop(obj, keys[j]).Some? && Prop(obj, keys[j]).value.JArr? && |Prop(obj, keys[j]).value.items| > 0)
      {
        assert !NonEmptyArrayAt(obj, keys, j);
      }
      NoNonEmptyArray(obj, keys);
    }
  }

  /** The least index holding a non-empty array. */
  lemma {:induction false} FirstNonEmptyArray(obj: JsonValue, keys: seq<string>) returns (i: nat)
    requires exists i :: 0 <= i < |keys| && NonEmptyArrayAt(obj, keys, i)
    ensures i < |keys| && NonEmptyArrayAt(obj, keys, i)
    ensures forall j :: 0 <= j < i ==> !NonEmptyArrayAt(obj, keys, j)
  {
    i := 0;
    while !NonEmptyArrayAt(obj, keys, i)
      invariant i < |keys| && exists k :: i <= k < |keys| && NonEmptyArrayAt(obj, keys, k)
      invariant forall j :: 0 <= j < i ==> !NonEmptyArrayAt(obj, keys, j)
      decreases |keys| - i
    {
      i := i + 1;
    }
  }

  /** Without an array under a known name, the first member (in key order) holding a
      non-empty array is the candidate list. */
  lemma FallbackArrayWins(fields: seq<(string, JsonValue)>, i: nat)
    requires forall j :: 0 <= j < |ArrayKeys| ==> !(Prop(JObj(fields), ArrayKeys[j]).Some? && Prop(JObj(fields), ArrayKeys[j]).value.JArr?)
    requires i < |fields| && NonEmptyArrayAt(JObj(fields), ObjectKeys(JObj(fields)).value, i)
    requires forall j :: 0 <= j < i ==> !NonEmptyArrayAt(JObj(fields), ObjectKeys(JObj(fields)).value, j)
    ensures ParseJsonFile(Ok(JObj(fields))) == Ok(Prop(JObj(fields), fields[i].0).value.items)
  {
    NoKnownArray(JObj(fields), ArrayKeys);
    var keys := ObjectKeys(JObj(fields)).value;
    AnyNonEmptyArrayFirst(JObj(fields), keys, i);
  }

  // ---------------------------------------------------------------- validation

  datatype Stats = Stats(total: nat, withEmail: nat, withName: nat)

  datatype CandidateValidation = CandidateValidation(valid: bool, error: Option<string>, stats: Stats)

  const NameFields: seq<string> := ["name", "fullname", "full_name", "candidate_name", "applicant_name"]
  const EmailFields: seq<string> := ["email", "emailaddress", "email_address", "mail"]

  /** `fields.some(field => candidate[field])` */
  predicate HasAny(candidate: JsonValue, fields: seq<string>) {
    exists i :: 0 <= i < |fields| && Truthy(Prop(candidate, fields[i]))
  }

  /** A record that counts towards `withName`: an object (or array) with a truthy name field. */
  predicate CountsForName(candidate: JsonValue) {
    IsObjectType(candidate) && !candidate.JNull? && HasAny(candidate, NameFields)
  }

  predicate CountsForEmail(candidate: JsonValue) {
    IsObjectType(candidate) && !candidate.JNull? && HasAny(candidate, EmailFields)
  }

  /** What `validateCandidateData` returns. */
  function ValidationOf(candidates: JsonValue): CandidateValidation {
    if !candidates.JArr? then CandidateValidation(false, Some("Candidates data must be an array"), Stats(0, 0, 0))
    else if |candidates.items| == 0 then CandidateValidation(false, Some("Candidate array is empty"), Stats(0, 0, 0))
    else
      CandidateValidation(true, None,
        Stats(|candidates.items|, Count(candidates.items, CountsForEmail), Count(candidates.items, CountsForName)))
  }

  /** `validateCandidateData`: counts the records with a name and with an email. */
  method ValidateCandidateData(candidates: JsonValue) returns (r: CandidateValidation)
    ensures r == ValidationOf(candidates)
  {
    if !candidates.JArr? {
      return CandidateValidation(false, Some("Candidates data must be an array"), Stats(0, 0, 0));
    }
    var items := candidates.items;
    if |items| == 0 {
      return CandidateValidation(false, Some("Candidate array is empty"), Stats(0, 0, 0));
    }
    var withEmail := 0;
    var withName := 0;
    var i := 0;
    while i < |items|
      invariant 0 <= i <= |items|
      invariant withName == Count(items[..i], CountsForName)
      invariant withEmail == Count(items[..i], CountsForEmail)
    {
      assert items[..i + 1][..i] == items[..i];
      var candidate := items[i];
      if IsObjectType(candidate) && !candidate.JNull? {
        if HasAny(candidate, NameFields) {
          withName := withName + 1;
        }
        if HasAny(candidate, EmailFields) {
          withEmail := withEmail + 1;
        }
      }
      i := i + 1;
    }
    assert items[..i] == items;
    return CandidateValidation(true, None, Stats(|items|, withEmail, withName));
  }

  /** Invalid inputs carry all-zero statistics; on a valid input the total is the
      length and neither count exceeds it. */
  lemma ValidationStats(candidates: JsonValue)
    ensures !ValidationOf(candidates).valid ==> ValidationOf(candidates).stats == Stats(0, 0, 0)
    ensures ValidationOf(candidates).valid <==> candidates.JArr? && |candidates.items| > 0
    ensures ValidationOf(candidates).valid ==>
              var s := ValidationOf(candidates).stats;
              s.total == |candidates.items| && s.withName <= s.total && s.withEmail <= s.total
  {
  }

  /** Records that are not objects count for nothing. */
  lemma {:induction false} NonObjectsDoNotCount(items: seq<JsonValue>)
    requires forall i :: 0 <= i < |items| ==> !IsObjectType(items[i]) || items[i].JNull?
    ensures Count(items, CountsForName) == 0 && Count(items, CountsForEmail) == 0
  {
    if items != [] {
      NonObjectsDoNotCount(items[..|items| - 1]);
    }
  }
}
