/** The upload checks: the size limit and the shape of the parsed document. */
module FileUtils {
  import opened Wrappers
  import opened Json

  /** `validateFileSize` */
  predicate ValidateFileSize(size: real, maxSize: real) {
    size <= maxSize
  }

  datatype StructureCheck = StructureCheck(valid: bool, error: Option<string>)

  /** Some member of the object holds an array (possibly empty). */
  predicate HasArrayMember(data: JsonValue) {
    data.JObj? && exists i :: 0 <= i < |data.fields| && Prop(data, data.fields[i].0).Some?
                              && Prop(data, data.fields[i].0).value.JArr?
  }

  /** `validateJsonStructure` */
  function ValidateJsonStructure(data: JsonValue): (r: StructureCheck)
    ensures r.valid <==> r.error.None?
  {
    if !Truthy(Some(data)) then StructureCheck(false, Some("Empty file content"))
    else if TypeOf(Some(data)) != "object" then StructureCheck(false, Some("File must contain a JSON object or array"))
    else if data.JArr? then
      if |data.items| == 0 then StructureCheck(false, Some("Array cannot be empty"))
      else if TypeOf(Some(data.items[0])) != "object" then StructureCheck(false, Some("Array must contain objects"))
      else StructureCheck(true, None)
    else if HasArrayMember(data) then StructureCheck(true, None)
    else StructureCheck(false, Some("File must contain an array of candidates or an object with candidate arrays"))
  }

  /** `null`, `false`, `0` and `""` are empty content; other scalars are not objects. */
  lemma ScalarsAreInvalid(data: JsonValue)
    requires data.JNull? || data.JBool? || data.JNum? || data.JStr?
    ensures !ValidateJsonStructure(data).valid
    ensures !Truthy(Some(data)) ==> ValidateJsonStructure(data).error == Some("Empty file content")
  {
  }

  /** An array passes exactly when it is non-empty and its first element is an object,
      an array or `null`; later elements are not looked at. */
  lemma ArrayRule(items: seq<JsonValue>)
    ensures ValidateJsonStructure(JArr(items)).valid <==> |items| > 0 && IsObjectType(items[0])
    ensures |items| > 0 ==> ValidateJsonStructure(JArr(items)) == ValidateJsonStructure(JArr(items[..1]))
  {
  }

  /** An object passes exactly when one of its members is an array. */
  lemma ObjectRule(fields: seq<(string, JsonValue)>)
    ensures ValidateJsonStructure(JObj(fields)).valid <==> HasArrayMember(JObj(fields))
  {
  }

  /** An object whose only member is an empty array passes. */
  lemma EmptyArrayMemberPasses(key: string)
    ensures ValidateJsonStructure(JObj([(key, JArr([]))])).valid
  {
    assert Prop(JObj([(key, JArr([]))]), key) == Some(JArr([]));
  }
}
