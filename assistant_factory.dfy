/** The lookups of utilities/assistant_factory.py over the assistant records
    loaded from the JSON files of the assistant folder. Reading the folder is
    left out: the functions take the loaded list. */
module AssistantFactory {
  import opened Wrappers

  /** A JSON value as `json.load` returns it. */
  datatype Json =
    | JNull
    | JBool(b: bool)
    | JNumber(n: int)
    | JString(s: string)
    | JArray(items: seq<Json>)
    | JObject(fields: map<string, Json>)

  /** `assistant[key]`: a missing key raises `KeyError`, a value that is not an object `TypeError`. */
  function Field(assistant: Json, key: string): (r: Result<Json>)
    ensures r.Ok? <==> assistant.JObject? && key in assistant.fields
    ensures r.Ok? ==> r.value == assistant.fields[key]
    ensures r.Err? ==> r.error == if assistant.JObject? then KeyError(key) else TypeError
  {
    match assistant
    case JObject(fields) => if key in fields then Ok(fields[key]) else Err(KeyError(key))
    case _ => Err(TypeError)
  }

  /** The record is named `assistantName`. */
  predicate Named(assistant: Json, assistantName: string) {
    Field(assistant, "assistant_name") == Ok(JString(assistantName))
  }

  /** `[assistant for assistant in assistant_list if assistant['assistant_name'] == assistant_name]`:
      every record is read, and the first one without a name raises. */
  function Matching(assistantList: seq<Json>, assistantName: string): (r: Result<seq<Json>>)
    ensures r.Ok? <==> forall i :: 0 <= i < |assistantList| ==> Field(assistantList[i], "assistant_name").Ok?
    ensures r.Ok? ==> forall a :: a in r.value ==> a in assistantList && Named(a, assistantName)
    ensures r.Ok? ==> forall i :: 0 <= i < |assistantList| && Named(assistantList[i], assistantName) ==>
      assistantList[i] in r.value
    ensures r.Err? ==> r.error == KeyError("assistant_name") || r.error == TypeError
  {
    if assistantList == [] then Ok([])
    else
      var head := assistantList[0];
      match Field(head, "assistant_name")
      case Err(e) => Err(e)
      case Ok(name) =>
        match Matching(assistantList[1..], assistantName)
        case Err(e) => Err(e)
        case Ok(rest) =>
          assert forall i :: 0 < i < |assistantList| ==> assistantList[i] == assistantList[1..][i - 1];
          if name == JString(assistantName) then Ok([head] + rest) else Ok(rest)
  }

  /** The first record kept is the first record of the list with that name. */
  lemma {:induction false} FirstMatch(assistantList: seq<Json>, assistantName: string) returns (i: nat)
    requires Matching(assistantList, assistantName).Ok? && Matching(assistantList, assistantName).value != []
    ensures i < |assistantList| && Named(assistantList[i], assistantName)
    ensures Matching(assistantList, assistantName).value[0] == assistantList[i]
    ensures forall j :: 0 <= j < i ==> !Named(assistantList[j], assistantName)
  {
    if Named(assistantList[0], assistantName) {
      i := 0;
    } else {
      var k := FirstMatch(assistantList[1..], assistantName);
      i := k + 1;
      assert forall j :: 0 < j < |assistantList| ==> assistantList[j] == assistantList[1..][j - 1];
    }
  }

  /** `get_assistant_field`: the field of the first record with that name;
      no such record raises `IndexError`, a missing field `KeyError`. */
  function GetAssistantField(assistantList: seq<Json>, assistantName: string, assistantField: string): (r: Result<Json>)
    ensures (exists i :: 0 <= i < |assistantList| && Field(assistantList[i], "assistant_name").Err?) ==>
      r.Err? && (r.error == KeyError("assistant_name") || r.error == TypeError)
    ensures r == Err(IndexError) <==>
      (forall i :: 0 <= i < |assistantList| ==> Field(assistantList[i], "assistant_name").Ok?) &&
      (forall i :: 0 <= i < |assistantList| ==> !Named(assistantList[i], assistantName))
    ensures r.Ok? ==> (exists i :: 0 <= i < |assistantList| && Named(assistantList[i], assistantName) &&
                                  Field(assistantList[i], assistantField) == r)
  {
    match Matching(assistantList, assistantName)
    case Err(e) => Err(e)
    case Ok(matches) =>
      if matches == [] then Err(IndexError)
      else
        assert matches[0] in matches;
        assert exists i :: 0 <= i < |assistantList| && assistantList[i] == matches[0];
        Field(matches[0], assistantField)
  }

  /** With duplicate names the first record wins; a missing field raises `KeyError`. */
  lemma FirstAssistantWins(assistantList: seq<Json>, assistantName: string, assistantField: string) returns (i: nat)
    requires Matching(assistantList, assistantName).Ok? && Matching(assistantList, assistantName).value != []
    ensures i < |assistantList| && Named(assistantList[i], assistantName)
    ensures forall j :: 0 <= j < i ==> !Named(assistantList[j], assistantName)
    ensures GetAssistantField(assistantList, assistantName, assistantField) == Field(assistantList[i], assistantField)
    ensures assistantField !in assistantList[i].fields <==>
      GetAssistantField(assistantList, assistantName, assistantField) == Err(KeyError(assistantField))
  {
    i := FirstMatch(assistantList, assistantName);
  }

  /** `get_assistant_name_list`: one name per record, in the same order; a
      record without a name raises. */
  function GetAssistantNameList(assistantList: seq<Json>): (r: Result<seq<Json>>)
    ensures r.Ok? <==> forall i :: 0 <= i < |assistantList| ==> Field(assistantList[i], "assistant_name").Ok?
    ensures r.Ok? ==> (|r.value| == |assistantList| && forall i :: 0 <= i < |assistantList| ==>
      r.value[i] == Field(assistantList[i], "assistant_name").value)
  {
    if assistantList == [] then Ok([])
    else
      match Field(assistantList[0], "assistant_name")
      case Err(e) => Err(e)
      case Ok(name) =>
        match GetAssistantNameList(assistantList[1..])
        case Err(e) => Err(e)
        case Ok(rest) =>
          assert forall i :: 0 < i < |assistantList| ==> assistantList[i] == assistantList[1..][i - 1];
          Ok([name] + rest)
  }

  /** The field lookup finds a record exactly for the names the name list shows. */
  lemma LookupIffListed(assistantList: seq<Json>, assistantName: string, assistantField: string)
    requires GetAssistantNameList(assistantList).Ok?
    ensures GetAssistantField(assistantList, assistantName, assistantField) == Err(IndexError) <==>
      JString(assistantName) !in GetAssistantNameList(assistantList).value
  {
    var names := GetAssistantNameList(assistantList).value;
    if JString(assistantName) in names {
      var i :| 0 <= i < |names| && names[i] == JString(assistantName);
      assert Named(assistantList[i], assistantName);
      var j := FirstAssistantWins(assistantList, assistantName, assistantField);
    } else {
      if Matching(assistantList, assistantName).value != [] {
        var j := FirstMatch(assistantList, assistantName);
      }
    }
  }

  /** `is_there_assistants`. */
  function IsThereAssistants(assistantList: seq<Json>): (r: bool)
    ensures r <==> |assistantList| > 0
  {
    if |assistantList| > 0 then true else false
  }

  /** There are assistants exactly when the name list is not empty. */
  lemma AssistantsIffNames(assistantList: seq<Json>)
    requires GetAssistantNameList(assistantList).Ok?
    ensures IsThereAssistants(assistantList) <==> GetAssistantNameList(assistantList).value != []
  {
  }
}
