/** The OpenAPI capability registry and call planner (utilities/openapi_helper.py):
    the document is turned into a table from `operationId` to {path, method,
    parameters} and into a list of tool descriptors in OpenAI "function" shape;
    a call is planned as one URL per server and the candidates are tried, in a
    shuffled order, until one answers HTTP 200. */
module OpenApiHelper {
  import opened Wrappers
  import opened Text

  // ---------------------------------------------------------------- document

  /** One entry of an operation's `parameters` array. */
  datatype Parameter = Parameter(name: string, description: string, location: string, schemaType: string)

  /** The `parameters` key of an operation: absent, JSON `null`, or an array. */
  datatype ParamsField = Missing | Null | Given(list: seq<Parameter>)

  /** An operation object; a key the document leaves out is `None`. */
  datatype Operation = Operation(operationId: Option<string>, summary: Option<string>, parameters: ParamsField)

  /** A path item: the operation objects under its HTTP-verb keys. */
  type PathItem = map<string, Operation>

  datatype Server = Server(url: string)

  /** The parsed document: `servers` and `paths`, the latter in document order. */
  datatype Document = Document(servers: seq<Server>, paths: seq<(string, PathItem)>)

  /** The verbs the registry looks at, in the order it looks at them. */
  const Verbs: seq<string> := ["get", "post", "put", "delete", "patch"]

  /** The position of a verb in `Verbs`, and `|Verbs|` for any other key. */
  function VerbRank(v: string): (k: nat)
    ensures k <= |Verbs|
    ensures k < |Verbs| <==> v in Verbs
    ensures k < |Verbs| ==> Verbs[k] == v
  {
    if v == "get" then 0
    else if v == "post" then 1
    else if v == "put" then 2
    else if v == "delete" then 3
    else if v == "patch" then 4
    else 5
  }

  /** `url[0:-1]`: the URL without its last character (empty stays empty). */
  function DropLast(s: string): string {
    if s == [] then [] else s[..|s| - 1]
  }

  /** `server_list` of `__init__`: one entry per server, in order. */
  function ServerList(servers: seq<Server>): (r: seq<string>)
    ensures |r| == |servers|
    ensures forall i :: 0 <= i < |r| && servers[i].url == [] ==> r[i] == []
    ensures forall i :: 0 <= i < |r| && servers[i].url != [] ==>
      r[i] + [servers[i].url[|servers[i].url| - 1]] == servers[i].url
  {
    seq(|servers|, i requires 0 <= i < |servers| => DropLast(servers[i].url))
  }

  // ------------------------------------------------------- operation walk

  /** An operation found at `path` under `verb`. */
  datatype OpRef = OpRef(path: string, verb: string, op: Operation)

  /** The operations of one path item under the first `j` verbs, in verb order. */
  function VerbOps(path: string, item: PathItem, j: nat): seq<OpRef>
    requires j <= |Verbs|
  {
    if j == 0 then []
    else
      var v := Verbs[j - 1];
      VerbOps(path, item, j - 1) + (if v in item then [OpRef(path, v, item[v])] else [])
  }

  /** Every (path, verb) operation, by path and then by verb: the order of the
      nested loops of `_create_function_dict` and `_extract_openai_functions`. */
  function Operations(paths: seq<(string, PathItem)>): seq<OpRef> {
    if paths == [] then []
    else
      var last := paths[|paths| - 1];
      Operations(paths[..|paths| - 1]) + VerbOps(last.0, last.1, |Verbs|)
  }

  predicate IsPrefix<T(==)>(a: seq<T>, b: seq<T>) {
    |a| <= |b| && b[..|a|] == a
  }

  lemma {:induction false} VerbOpsSound(path: string, item: PathItem, j: nat)
    requires j <= |Verbs|
    ensures forall k :: 0 <= k < |VerbOps(path, item, j)| ==>
      var r := VerbOps(path, item, j)[k];
      r.path == path && r.verb in item && r.op == item[r.verb] && VerbRank(r.verb) < j
  {
    if j > 0 {
      VerbOpsSound(path, item, j - 1);
    }
  }

  lemma {:induction false} VerbOpsOrdered(path: string, item: PathItem, j: nat)
    requires j <= |Verbs|
    ensures forall k, l :: 0 <= k < l < |VerbOps(path, item, j)| ==>
      VerbRank(VerbOps(path, item, j)[k].verb) < VerbRank(VerbOps(path, item, j)[l].verb)
  {
    if j > 0 {
      VerbOpsSound(path, item, j - 1);
      VerbOpsOrdered(path, item, j - 1);
    }
  }

  lemma {:induction false} VerbOpsComplete(path: string, item: PathItem, j: nat)
    requires j <= |Verbs|
    ensures forall v :: v in item && VerbRank(v) < j ==> OpRef(path, v, item[v]) in VerbOps(path, item, j)
  {
    if j > 0 {
      VerbOpsComplete(path, item, j - 1);
    }
  }

  lemma VerbOpsFacts(path: string, item: PathItem, j: nat)
    requires j <= |Verbs|
    ensures forall k :: 0 <= k < |VerbOps(path, item, j)| ==>
      var r := VerbOps(path, item, j)[k];
      r.path == path && r.verb in item && r.op == item[r.verb] && VerbRank(r.verb) < j
    ensures forall k, l :: 0 <= k < l < |VerbOps(path, item, j)| ==>
      VerbRank(VerbOps(path, item, j)[k].verb) < VerbRank(VerbOps(path, item, j)[l].verb)
    ensures forall v :: v in item && VerbRank(v) < j ==> OpRef(path, v, item[v]) in VerbOps(path, item, j)
  {
    VerbOpsSound(path, item, j);
    VerbOpsOrdered(path, item, j);
    VerbOpsComplete(path, item, j);
  }

  lemma {:induction false} VerbOpsPrefix(path: string, item: PathItem, j: nat)
    requires j <= |Verbs|
    ensures IsPrefix(VerbOps(path, item, j), VerbOps(path, item, |Verbs|))
    decreases |Verbs| - j
  {
    if j < |Verbs| {
      VerbOpsPrefix(path, item, j + 1);
    }
  }

  lemma {:induction false} OperationsPrefix(paths: seq<(string, PathItem)>, i: nat)
    requires i <= |paths|
    ensures IsPrefix(Operations(paths[..i]), Operations(paths))
    decreases |paths| - i
  {
    if i < |paths| {
      OperationsPrefix(paths, i + 1);
      assert paths[..i + 1][..i] == paths[..i];
    } else {
      assert paths[..i] == paths;
    }
  }

  /** One step of the walk: path `i` contributes its operations after those of the paths before it. */
  lemma OperationsStep(paths: seq<(string, PathItem)>, i: nat)
    requires i < |paths|
    ensures Operations(paths[..i + 1]) == Operations(paths[..i]) + VerbOps(paths[i].0, paths[i].1, |Verbs|)
  {
    assert paths[..i + 1][..i] == paths[..i];
  }

  /** The path item `entry` holds `r` under one of the five verbs. */
  predicate Holds(entry: (string, PathItem), r: OpRef) {
    entry.0 == r.path && r.verb in Verbs && r.verb in entry.1 && entry.1[r.verb] == r.op
  }

  lemma VerbOpsMembership(entry: (string, PathItem), r: OpRef)
    ensures r in VerbOps(entry.0, entry.1, |Verbs|) <==> Holds(entry, r)
  {
    VerbOpsFacts(entry.0, entry.1, |Verbs|);
  }

  /** An operation is walked exactly when some path item holds it under one of the five verbs. */
  lemma {:induction false} OperationsMembership(paths: seq<(string, PathItem)>, r: OpRef)
    ensures r in Operations(paths) <==> exists i :: 0 <= i < |paths| && Holds(paths[i], r)
  {
    if paths != [] {
      var n := |paths| - 1;
      var prefix := paths[..n];
      OperationsMembership(prefix, r);
      VerbOpsMembership(paths[n], r);
      assert Operations(paths) == Operations(prefix) + VerbOps(paths[n].0, paths[n].1, |Verbs|);
      assert forall i :: 0 <= i < n ==> prefix[i] == paths[i];
    }
  }

  /** The paths of the document are distinct, as the keys of a JSON object are. */
  predicate UniquePaths(paths: seq<(string, PathItem)>) {
    forall i, j :: 0 <= i < j < |paths| ==> paths[i].0 != paths[j].0
  }

  /** The position of path `p` in the document (the last one with that key). */
  function PathRank(paths: seq<(string, PathItem)>, p: string): nat {
    if paths == [] then 0
    else if paths[|paths| - 1].0 == p then |paths| - 1
    else PathRank(paths[..|paths| - 1], p)
  }

  lemma {:induction false} PathRankAt(paths: seq<(string, PathItem)>, i: nat)
    requires UniquePaths(paths) && i < |paths|
    ensures PathRank(paths, paths[i].0) == i
  {
    var n := |paths| - 1;
    if i < n {
      assert paths[..n][i] == paths[i];
      PathRankAt(paths[..n], i);
    }
  }

  /** Where an operation stands in the walk: by path position, then by verb position. */
  function Rank(paths: seq<(string, PathItem)>, r: OpRef): nat {
    |Verbs| * PathRank(paths, r.path) + VerbRank(r.verb)
  }

  /** The walk lists the operations strictly by path position and then by verb
      position: every (path, verb) pair appears once, in that order. */
  lemma {:induction false} OperationsOrdered(paths: seq<(string, PathItem)>)
    requires UniquePaths(paths)
    ensures forall k, l :: 0 <= k < l < |Operations(paths)| ==>
      Rank(paths, Operations(paths)[k]) < Rank(paths, Operations(paths)[l])
  {
    if paths != [] {
      var n := |paths| - 1;
      var prefix := paths[..n];
      var last := paths[n];
      var a := Operations(prefix);
      var v := VerbOps(last.0, last.1, |Verbs|);
      OperationsOrdered(prefix);
      VerbOpsFacts(last.0, last.1, |Verbs|);
      PathRankAt(paths, n);
      forall k | 0 <= k < |a|
        ensures Rank(paths, a[k]) == Rank(prefix, a[k]) && Rank(paths, a[k]) < |Verbs| * n
      {
        OperationsMembership(prefix, a[k]);
        assert a[k] in a;
        var i :| 0 <= i < |prefix| && Holds(prefix[i], a[k]);
        assert prefix[i] == paths[i];
        PathRankAt(prefix, i);
      }
      forall k | 0 <= k < |v| ensures Rank(paths, v[k]) == |Verbs| * n + VerbRank(v[k].verb) {
      }
      assert Operations(paths) == a + v;
    }
  }

  // ---------------------------------------------------------- function table

  /** What `function_dict` stores for an operation; `parameters` is copied as found. */
  datatype FunctionEntry = FunctionEntry(path: string, httpMethod: string, parameters: ParamsField)

  function EntryOf(r: OpRef): FunctionEntry {
    FunctionEntry(r.path, r.verb, r.op.parameters)
  }

  /** The table built from the walked operations; an operation without
      `operationId` raises `KeyError`, and a repeated id overwrites the earlier entry. */
  function FunctionTable(ops: seq<OpRef>): Result<map<string, FunctionEntry>> {
    if ops == [] then Ok(map[])
    else
      match FunctionTable(ops[..|ops| - 1])
      case Err(e) => Err(e)
      case Ok(m) =>
        var r := ops[|ops| - 1];
        match r.op.operationId
        case None => Err(KeyError("operationId"))
        case Some(id) => Ok(m[id := EntryOf(r)])
  }

  /** The table is built exactly when every operation has an `operationId`. */
  lemma {:induction false} FunctionTableSucceeds(ops: seq<OpRef>)
    ensures FunctionTable(ops).Ok? <==> forall k :: 0 <= k < |ops| ==> ops[k].op.operationId.Some?
    ensures FunctionTable(ops).Err? ==> FunctionTable(ops).error == KeyError("operationId")
  {
    if ops != [] {
      var n := |ops| - 1;
      FunctionTableSucceeds(ops[..n]);
      assert forall k :: 0 <= k < n ==> ops[..n][k] == ops[k];
    }
  }

  /** Every key is the `operationId` of a walked operation, and every walked
      operation's id is a key. */
  lemma {:induction false} FunctionTableKeys(ops: seq<OpRef>, id: string)
    requires FunctionTable(ops).Ok?
    ensures id in FunctionTable(ops).value <==> exists k :: 0 <= k < |ops| && ops[k].op.operationId == Some(id)
  {
    if ops != [] {
      var n := |ops| - 1;
      FunctionTableKeys(ops[..n], id);
      if exists k :: 0 <= k < n && ops[..n][k].op.operationId == Some(id) {
        var k :| 0 <= k < n && ops[..n][k].op.operationId == Some(id);
        assert ops[k] == ops[..n][k];
      }
      if exists k :: 0 <= k < n && ops[k].op.operationId == Some(id) {
        var k :| 0 <= k < n && ops[k].op.operationId == Some(id);
        assert ops[..n][k] == ops[k];
      }
    }
  }

  /** The entry for an id is that of the last walked operation with that id. */
  lemma {:induction false} FunctionTableLastWins(ops: seq<OpRef>, k: nat, id: string)
    requires FunctionTable(ops).Ok?
    requires k < |ops| && ops[k].op.operationId == Some(id)
    requires forall l :: k < l < |ops| ==> ops[l].op.operationId != Some(id)
    ensures id in FunctionTable(ops).value && FunctionTable(ops).value[id] == EntryOf(ops[k])
  {
    var n := |ops| - 1;
    if k < n {
      assert ops[..n][k] == ops[k];
      forall l | k < l < n ensures ops[..n][l].op.operationId != Some(id) {
        assert ops[..n][l] == ops[l];
      }
      FunctionTableLastWins(ops[..n], k, id);
    }
  }

  /** Each entry is the entry of some walked operation with that id. */
  lemma {:induction false} FunctionTableSound(ops: seq<OpRef>, id: string) returns (k: nat)
    requires FunctionTable(ops).Ok? && id in FunctionTable(ops).value
    ensures k < |ops| && ops[k].op.operationId == Some(id)
    ensures FunctionTable(ops).value[id] == EntryOf(ops[k])
  {
    var n := |ops| - 1;
    if ops[n].op.operationId == Some(id) {
      k := n;
    } else {
      k := FunctionTableSound(ops[..n], id);
      assert ops[..n][k] == ops[k];
    }
  }

  lemma {:induction false} FunctionTableErrPrefix(a: seq<OpRef>, b: seq<OpRef>)
    requires IsPrefix(a, b) && FunctionTable(a).Err?
    ensures FunctionTable(b) == FunctionTable(a)
    decreases |b|
  {
    if |a| < |b| {
      assert b[..|b| - 1][..|a|] == a;
      FunctionTableErrPrefix(a, b[..|b| - 1]);
    } else {
      assert b == a;
    }
  }

  /** Read against the document: each entry records the path and verb of an
      operation stored under one of the five verbs that has that id, and
      carries `parameters` exactly as that operation does. */
  lemma FunctionTableFromDocument(paths: seq<(string, PathItem)>, id: string)
    requires FunctionTable(Operations(paths)).Ok?
    requires id in FunctionTable(Operations(paths)).value
    ensures exists i, v :: (0 <= i < |paths| && v in Verbs && v in paths[i].1 &&
      paths[i].1[v].operationId == Some(id) &&
      FunctionTable(Operations(paths)).value[id] == FunctionEntry(paths[i].0, v, paths[i].1[v].parameters))
  {
    var ops := Operations(paths);
    var k := FunctionTableSound(ops, id);
    assert ops[k] in ops;
    OperationsMembership(paths, ops[k]);
  }

  /** A common front keeps a prefix a prefix. */
  lemma PrefixAppend<T>(p: seq<T>, a: seq<T>, b: seq<T>)
    requires IsPrefix(a, b)
    ensures IsPrefix(p + a, p + b)
  {
    assert (p + b)[..|p + a|] == p + b[..|a|];
  }

  /** One verb of the inner loop: it adds its operation, if the item has one, to the walk. */
  lemma WalkStep(done: seq<OpRef>, path: string, item: PathItem, j: nat)
    requires j < |Verbs|
    ensures Verbs[j] in item ==>
      done + VerbOps(path, item, j + 1) == (done + VerbOps(path, item, j)) + [OpRef(path, Verbs[j], item[Verbs[j]])]
    ensures Verbs[j] !in item ==> done + VerbOps(path, item, j + 1) == done + VerbOps(path, item, j)
  {
  }

  /** The walk of an item up to a verb is a prefix of the walk of the whole item. */
  lemma ItemPrefix(done: seq<OpRef>, path: string, item: PathItem, j: nat)
    requires j <= |Verbs|
    ensures IsPrefix(done + VerbOps(path, item, j), done + VerbOps(path, item, |Verbs|))
  {
    VerbOpsPrefix(path, item, j);
    PrefixAppend(done, VerbOps(path, item, j), VerbOps(path, item, |Verbs|));
  }

  lemma FunctionTableSnoc(ops: seq<OpRef>, ref: OpRef)
    ensures FunctionTable(ops + [ref]) ==
      match FunctionTable(ops)
      case Err(e) => Err(e)
      case Ok(m) => if ref.op.operationId.None? then Err(KeyError("operationId"))
                    else Ok(m[ref.op.operationId.value := EntryOf(ref)])
  {
    assert (ops + [ref])[..|ops|] == ops;
  }

  /** One verb of the inner loop of `_create_function_dict`: its operation, if
      any, is registered, and one without an `operationId` ends the whole item
      with `KeyError`. */
  lemma RegisterStep(done: seq<OpRef>, path: string, item: PathItem, j: nat)
    requires j < |Verbs| && FunctionTable(done + VerbOps(path, item, j)).Ok?
    ensures var m := FunctionTable(done + VerbOps(path, item, j)).value;
      var v := Verbs[j];
      && (v !in item ==> FunctionTable(done + VerbOps(path, item, j + 1)) == Ok(m))
      && (v in item && item[v].operationId.Some? ==>
            FunctionTable(done + VerbOps(path, item, j + 1)) ==
              Ok(m[item[v].operationId.value := FunctionEntry(path, v, item[v].parameters)]))
      && (v in item && item[v].operationId.None? ==>
            FunctionTable(done + VerbOps(path, item, |Verbs|)) == Err(KeyError("operationId")))
  {
    WalkStep(done, path, item, j);
    if Verbs[j] in item {
      FunctionTableSnoc(done + VerbOps(path, item, j), OpRef(path, Verbs[j], item[Verbs[j]]));
      if item[Verbs[j]].operationId.None? {
        ItemPrefix(done, path, item, j + 1);
        FunctionTableErrPrefix(done + VerbOps(path, item, j + 1), done + VerbOps(path, item, |Verbs|));
      }
    }
  }

  /** The inner loop of `_create_function_dict`: the operations of one path
      item, in verb order, added to the table built so far. */
  method RegisterPathItem(ghost done: seq<OpRef>, table: map<string, FunctionEntry>, path: string, item: PathItem)
    returns (r: Result<map<string, FunctionEntry>>)
    requires FunctionTable(done) == Ok(table)
    ensures r == FunctionTable(done + VerbOps(path, item, |Verbs|))
  {
    var current := table;
    assert done + VerbOps(path, item, 0) == done;
    for j := 0 to |Verbs|
      invariant FunctionTable(done + VerbOps(path, item, j)) == Ok(current)
    {
      var httpMethod := Verbs[j];
      RegisterStep(done, path, item, j);
      if httpMethod in item {
        var op := item[httpMethod];
        if op.operationId.None? {
          return Err(KeyError("operationId"));
        }
        current := current[op.operationId.value := FunctionEntry(path, httpMethod, op.parameters)];
      }
    }
    r := Ok(current);
  }

  /** `_create_function_dict`. */
  method CreateFunctionDict(paths: seq<(string, PathItem)>) returns (r: Result<map<string, FunctionEntry>>)
    ensures r == FunctionTable(Operations(paths))
  {
    var table: map<string, FunctionEntry> := map[];
    for i := 0 to |paths|
      invariant FunctionTable(Operations(paths[..i])) == Ok(table)
    {
      var added := RegisterPathItem(Operations(paths[..i]), table, paths[i].0, paths[i].1);
      OperationsStep(paths, i);
      if added.Err? {
        OperationsPrefix(paths, i + 1);
        FunctionTableErrPrefix(Operations(paths[..i + 1]), Operations(paths));
        return Err(added.error);
      }
      table := added.value;
    }
    assert paths[..|paths|] == paths;
    r := Ok(table);
  }

  // --------------------------------------------------------- tool descriptors

  datatype Property = Property(description: string, propertyType: string)
  datatype ParameterSchema = ParameterSchema(schemaType: string, properties: map<string, Property>)
  datatype FunctionSpec = FunctionSpec(name: string, description: string, parameters: Option<ParameterSchema>)

  /** A tool descriptor in OpenAI "function" shape. */
  datatype Tool = Tool(toolType: string, definition: FunctionSpec)

  /** The `properties` object: each parameter name to its description and
      schema type, built in order so that a later duplicate name wins. */
  function PropertiesOf(ps: seq<Parameter>): map<string, Property> {
    if ps == [] then map[]
    else
      var p := ps[|ps| - 1];
      PropertiesOf(ps[..|ps| - 1])[p.name := Property(p.description, p.schemaType)]
  }

  lemma {:induction false} PropertiesOfKeys(ps: seq<Parameter>, name: string)
    ensures name in PropertiesOf(ps) <==> exists k :: 0 <= k < |ps| && ps[k].name == name
  {
    if ps != [] {
      var n := |ps| - 1;
      PropertiesOfKeys(ps[..n], name);
      assert forall k :: 0 <= k < n ==> ps[..n][k] == ps[k];
    }
  }

  lemma {:induction false} PropertiesOfLastWins(ps: seq<Parameter>, k: nat)
    requires k < |ps|
    requires forall l :: k < l < |ps| ==> ps[l].name != ps[k].name
    ensures ps[k].name in PropertiesOf(ps)
    ensures PropertiesOf(ps)[ps[k].name] == Property(ps[k].description, ps[k].schemaType)
  {
    var n := |ps| - 1;
    if k < n {
      assert ps[..n][k] == ps[k];
      forall l | k < l < n ensures ps[..n][l].name != ps[..n][k].name {
        assert ps[..n][l] == ps[l];
      }
      PropertiesOfLastWins(ps[..n], k);
    }
  }

  /** `_parse_path`: `operationId` and `summary` are read first (a missing one
      raises `KeyError`); a JSON-null `parameters` cannot be iterated. */
  function ParsePath(op: Operation): (r: Result<Tool>)
    ensures op.operationId.None? ==> r == Err(KeyError("operationId"))
    ensures op.operationId.Some? && op.summary.None? ==> r == Err(KeyError("summary"))
    ensures op.operationId.Some? && op.summary.Some? && op.parameters.Null? ==> r == Err(TypeError)
    ensures r.Ok? <==> op.operationId.Some? && op.summary.Some? && !op.parameters.Null?
    ensures r.Ok? ==> (r.value.toolType == "function" && r.value.definition.name == op.operationId.value &&
      r.value.definition.description == op.summary.value)
    ensures r.Ok? ==> (r.value.definition.parameters.Some? <==> op.parameters.Given?)
    ensures r.Ok? && op.parameters.Given? ==>
      r.value.definition.parameters.value.schemaType == "object" &&
      r.value.definition.parameters.value.properties == PropertiesOf(op.parameters.list)
  {
    match op.operationId
    case None => Err(KeyError("operationId"))
    case Some(name) =>
      match op.summary
      case None => Err(KeyError("summary"))
      case Some(description) =>
        match op.parameters
        case Missing => Ok(Tool("function", FunctionSpec(name, description, None)))
        case Null => Err(TypeError)
        case Given(ps) =>
          Ok(Tool("function", FunctionSpec(name, description, Some(ParameterSchema("object", PropertiesOf(ps))))))
  }

  /** The descriptors for the walked operations, stopping at the first that raises. */
  function ToolsOf(ops: seq<OpRef>): Result<seq<Tool>> {
    if ops == [] then Ok([])
    else
      match ToolsOf(ops[..|ops| - 1])
      case Err(e) => Err(e)
      case Ok(ts) =>
        match ParsePath(ops[|ops| - 1].op)
        case Err(e) => Err(e)
        case Ok(t) => Ok(ts + [t])
  }

  /** One descriptor per walked operation, in walk order, whenever none raises. */
  lemma {:induction false} ToolsOfShape(ops: seq<OpRef>)
    ensures ToolsOf(ops).Ok? <==> forall k :: 0 <= k < |ops| ==> ParsePath(ops[k].op).Ok?
    ensures ToolsOf(ops).Ok? ==> (|ToolsOf(ops).value| == |ops| &&
      forall k :: 0 <= k < |ops| ==> ToolsOf(ops).value[k] == ParsePath(ops[k].op).value)
  {
    if ops != [] {
      var n := |ops| - 1;
      ToolsOfShape(ops[..n]);
      assert forall k :: 0 <= k < n ==> ops[..n][k] == ops[k];
    }
  }

  lemma {:induction false} ToolsOfErrPrefix(a: seq<OpRef>, b: seq<OpRef>)
    requires IsPrefix(a, b) && ToolsOf(a).Err?
    ensures ToolsOf(b) == ToolsOf(a)
    decreases |b|
  {
    if |a| < |b| {
      assert b[..|b| - 1][..|a|] == a;
      ToolsOfErrPrefix(a, b[..|b| - 1]);
    } else {
      assert b == a;
    }
  }

  lemma ToolsOfSnoc(ops: seq<OpRef>, ref: OpRef)
    ensures ToolsOf(ops + [ref]) ==
      match ToolsOf(ops)
      case Err(e) => Err(e)
      case Ok(ts) => if ParsePath(ref.op).Err? then Err(ParsePath(ref.op).error) else Ok(ts + [ParsePath(ref.op).value])
  {
    assert (ops + [ref])[..|ops|] == ops;
  }

  /** One verb of the inner loop of `_extract_openai_functions`: its operation,
      if any, adds a descriptor, and one that raises ends the whole item. */
  lemma ExtractStep(done: seq<OpRef>, path: string, item: PathItem, j: nat)
    requires j < |Verbs| && ToolsOf(done + VerbOps(path, item, j)).Ok?
    ensures var ts := ToolsOf(done + VerbOps(path, item, j)).value;
      var v := Verbs[j];
      && (v !in item ==> ToolsOf(done + VerbOps(path, item, j + 1)) == Ok(ts))
      && (v in item && ParsePath(item[v]).Ok? ==>
            ToolsOf(done + VerbOps(path, item, j + 1)) == Ok(ts + [ParsePath(item[v]).value]))
      && (v in item && ParsePath(item[v]).Err? ==>
            ToolsOf(done + VerbOps(path, item, |Verbs|)) == Err(ParsePath(item[v]).error))
  {
    WalkStep(done, path, item, j);
    if Verbs[j] in item {
      ToolsOfSnoc(done + VerbOps(path, item, j), OpRef(path, Verbs[j], item[Verbs[j]]));
      if ParsePath(item[Verbs[j]]).Err? {
        ItemPrefix(done, path, item, j + 1);
        ToolsOfErrPrefix(done + VerbOps(path, item, j + 1), done + VerbOps(path, item, |Verbs|));
      }
    }
  }

  /** The inner loop of `_extract_openai_functions`: one descriptor per
      operation of the path item, in verb order. */
  method ExtractPathItem(ghost done: seq<OpRef>, tools: seq<Tool>, path: string, item: PathItem)
    returns (r: Result<seq<Tool>>)
    requires ToolsOf(done) == Ok(tools)
    ensures r == ToolsOf(done + VerbOps(path, item, |Verbs|))
  {
    var current := tools;
    assert done + VerbOps(path, item, 0) == done;
    for j := 0 to |Verbs|
      invariant ToolsOf(done + VerbOps(path, item, j)) == Ok(current)
    {
      var httpMethod := Verbs[j];
      ExtractStep(done, path, item, j);
      if httpMethod in item {
        var dictOutput := ParsePath(item[httpMethod]);
        if dictOutput.Err? {
          return Err(dictOutput.error);
        }
        current := current + [dictOutput.value];
      }
    }
    r := Ok(current);
  }

  /** `_extract_openai_functions`: the same nested loops, appending one descriptor per operation. */
  method ExtractOpenaiFunctions(paths: seq<(string, PathItem)>) returns (r: Result<seq<Tool>>)
    ensures r == ToolsOf(Operations(paths))
  {
    var tools: seq<Tool> := [];
    for i := 0 to |paths|
      invariant ToolsOf(Operations(paths[..i])) == Ok(tools)
    {
      var added := ExtractPathItem(Operations(paths[..i]), tools, paths[i].0, paths[i].1);
      OperationsStep(paths, i);
      if added.Err? {
        OperationsPrefix(paths, i + 1);
        ToolsOfErrPrefix(Operations(paths[..i + 1]), Operations(paths));
        return Err(added.error);
      }
      tools := added.value;
    }
    assert paths[..|paths|] == paths;
    r := Ok(tools);
  }

  // ------------------------------------------------------------- the helper

  /** An `OpenAPIHelper` once `__init__` has returned; nothing updates it afterwards. */
  datatype Helper = Helper(spec: Document, serverList: seq<string>, functionDict: map<string, FunctionEntry>)

  /** `__init__` on an already parsed document. */
  method Init(spec: Document) returns (r: Result<Helper>)
    ensures r.Ok? <==> FunctionTable(Operations(spec.paths)).Ok?
    ensures r.Err? ==> r.error == KeyError("operationId")
    ensures r.Ok? ==> (r.value.spec == spec && r.value.serverList == ServerList(spec.servers) &&
      FunctionTable(Operations(spec.paths)) == Ok(r.value.functionDict))
  {
    var serverList := ServerList(spec.servers);
    var functionDict := CreateFunctionDict(spec.paths);
    FunctionTableSucceeds(Operations(spec.paths));
    if functionDict.Err? {
      return Err(functionDict.error);
    }
    r := Ok(Helper(spec, serverList, functionDict.value));
  }

  // ------------------------------------------------------------ call planning

  /** `[param for param in params if param['in'] == loc]`. */
  function InLocation(ps: seq<Parameter>, loc: string): (r: seq<Parameter>)
    ensures |r| <= |ps|
    ensures forall p :: p in r <==> p in ps && p.location == loc
  {
    if ps == [] then []
    else (if ps[0].location == loc then [ps[0]] else []) + InLocation(ps[1..], loc)
  }

  /** The filter keeps the order and the repeats of the list: one more
      parameter is kept at the end exactly when it is in that location. */
  lemma {:induction false} InLocationSnoc(ps: seq<Parameter>, p: Parameter, loc: string)
    ensures InLocation(ps + [p], loc) == InLocation(ps, loc) + (if p.location == loc then [p] else [])
    decreases |ps|
  {
    var t := ps + [p];
    if ps == [] {
      assert t == [p] && t[1..] == [];
    } else {
      assert t[0] == ps[0] && t[1..] == ps[1..] + [p];
      InLocationSnoc(ps[1..], p, loc);
    }
  }

  /** The path after the path parameters are substituted in order, each by
      replacing every occurrence of its bare name with its argument; a missing
      argument raises `KeyError`. */
  function Substitute(path: string, ps: seq<Parameter>, args: map<string, string>): Result<string> {
    if ps == [] then Ok(path)
    else
      match Substitute(path, ps[..|ps| - 1], args)
      case Err(e) => Err(e)
      case Ok(q) =>
        var name := ps[|ps| - 1].name;
        if name in args then Ok(Replace(q, name, args[name])) else Err(KeyError(name))
  }

  /** Substitution succeeds exactly when every path parameter has an argument. */
  lemma {:induction false} SubstituteSucceeds(path: string, ps: seq<Parameter>, args: map<string, string>)
    ensures Substitute(path, ps, args).Ok? <==> forall k :: 0 <= k < |ps| ==> ps[k].name in args
  {
    if ps != [] {
      var n := |ps| - 1;
      SubstituteSucceeds(path, ps[..n], args);
      assert forall k :: 0 <= k < n ==> ps[..n][k] == ps[k];
    }
  }

  lemma {:induction false} SubstituteErrPrefix(path: string, ps: seq<Parameter>, k: nat, args: map<string, string>)
    requires k <= |ps| && Substitute(path, ps[..k], args).Err?
    ensures Substitute(path, ps, args) == Substitute(path, ps[..k], args)
    decreases |ps|
  {
    if k < |ps| {
      assert ps[..|ps| - 1][..k] == ps[..k];
      SubstituteErrPrefix(path, ps[..|ps| - 1], k, args);
    } else {
      assert ps[..k] == ps;
    }
  }

  /** The rewritten path of `_construct_call_fqdns`. An absent `parameters` key
      raises `KeyError` (it is read unconditionally); a JSON-null one leaves the
      path as it is, braces included; any query parameter raises `TypeError`,
      because the arguments are indexed by the parameter object itself. */
  function RewritePath(path: string, params: ParamsField, args: map<string, string>): Result<string> {
    match params
    case Missing => Err(KeyError("parameters"))
    case Null => Ok(path)
    case Given(ps) =>
      match Substitute(path, InLocation(ps, "path"), args)
      case Err(e) => Err(e)
      case Ok(q) => if |InLocation(ps, "query")| > 0 then Err(TypeError) else Ok(StripBraces(q))
  }

  /** A rewritten path of a document that lists its parameters has no braces left,
      and holds no character the substituted path did not: nothing, `?`
      included, is appended to it. */
  lemma RewriteStripsBraces(path: string, ps: seq<Parameter>, args: map<string, string>)
    requires RewritePath(path, Given(ps), args).Ok?
    ensures Substitute(path, InLocation(ps, "path"), args).Ok?
    ensures var p := RewritePath(path, Given(ps), args).value;
      '{' !in p && '}' !in p &&
      forall c :: c in p <==> c in Substitute(path, InLocation(ps, "path"), args).value && c != '{' && c != '}'
  {
  }

  /** The outcomes of `_construct_call_fqdns`: no `parameters` key raises
      `KeyError`, a null one keeps the path as it is; for a listed one, any
      query parameter raises `TypeError`, and otherwise the path is rewritten
      exactly when every path parameter has an argument. */
  lemma RewriteOutcome(path: string, ps: seq<Parameter>, args: map<string, string>)
    ensures RewritePath(path, Missing, args) == Err(KeyError("parameters"))
    ensures RewritePath(path, Null, args) == Ok(path)
    ensures |InLocation(ps, "query")| > 0 && Substitute(path, InLocation(ps, "path"), args).Ok? ==>
      RewritePath(path, Given(ps), args) == Err(TypeError)
    ensures RewritePath(path, Given(ps), args).Ok? <==>
      InLocation(ps, "query") == [] && forall p :: p in ps && p.location == "path" ==> p.name in args
  {
    var inPath := InLocation(ps, "path");
    SubstituteSucceeds(path, inPath, args);
    assert (forall k :: 0 <= k < |inPath| ==> inPath[k].name in args) <==>
      (forall p :: p in inPath ==> p.name in args);
  }

  /** A path template with one path parameter, `a{name}b`, becomes `a` + the
      argument + `b`, when the name's first character occurs nowhere else in the
      template and no brace occurs outside the one pair. */
  lemma TemplateFilled(a: string, b: string, p: Parameter, args: map<string, string>)
    requires p.location == "path" && p.name != [] && p.name in args
    requires p.name[0] !in a + "{}" + b
    requires '{' !in a + args[p.name] + b && '}' !in a + args[p.name] + b
    ensures RewritePath(a + "{" + p.name + "}" + b, Given([p]), args) == Ok(a + args[p.name] + b)
  {
    var v := args[p.name];
    assert InLocation([p], "path") == [p];
    assert InLocation([p], "query") == [];
    var path := a + "{" + p.name + "}" + b;
    assert [p][..0] == [];
    assert Substitute(path, [p], args) == Ok(Replace(path, p.name, v));
    assert path == (a + "{") + p.name + ("}" + b);
    ReplaceFirst(a + "{", p.name, "}" + b, v);
    NoOccurrence("}" + b, p.name);
    ReplaceAbsent("}" + b, p.name, v);
    assert Replace(path, p.name, v) == a + "{" + v + "}" + b;
    StripOnePair(a, v, b);
  }

  /** The candidate URLs: the rewritten path behind every server, in server order. */
  function CallUrls(serverList: seq<string>, entry: FunctionEntry, args: map<string, string>): (r: Result<seq<string>>)
    ensures r.Ok? <==> RewritePath(entry.path, entry.parameters, args).Ok?
    ensures r.Err? ==> r.error == RewritePath(entry.path, entry.parameters, args).error
    ensures r.Ok? ==> |r.value| == |serverList| && forall i :: 0 <= i < |serverList| ==>
      r.value[i] == serverList[i] + RewritePath(entry.path, entry.parameters, args).value
  {
    match RewritePath(entry.path, entry.parameters, args)
    case Err(e) => Err(e)
    case Ok(p) => Ok(seq(|serverList|, i requires 0 <= i < |serverList| => serverList[i] + p))
  }

  /** The loop of `_construct_call_fqdns` over the path parameters: the path is
      reassigned once per parameter. */
  method SubstitutePath(path: string, paramsInPath: seq<Parameter>, functionArgs: map<string, string>)
    returns (r: Result<string>)
    ensures r == Substitute(path, paramsInPath, functionArgs)
  {
    var current := path;
    for i := 0 to |paramsInPath|
      invariant Substitute(path, paramsInPath[..i], functionArgs) == Ok(current)
    {
      var paramName := paramsInPath[i].name;
      assert paramsInPath[..i + 1][..i] == paramsInPath[..i];
      if paramName !in functionArgs {
        SubstituteErrPrefix(path, paramsInPath, i + 1, functionArgs);
        return Err(KeyError(paramName));
      }
      current := Replace(current, paramName, functionArgs[paramName]);
    }
    assert paramsInPath[..|paramsInPath|] == paramsInPath;
    r := Ok(current);
  }

  /** `_construct_call_fqdns`. */
  method ConstructCallFqdns(serverList: seq<string>, functionData: FunctionEntry, functionArgs: map<string, string>)
    returns (r: Result<seq<string>>)
    ensures r == CallUrls(serverList, functionData, functionArgs)
  {
    if functionData.parameters.Missing? {
      return Err(KeyError("parameters"));
    }
    var path := functionData.path;
    if functionData.parameters.Given? {
      var params := functionData.parameters.list;
      var substituted := SubstitutePath(path, InLocation(params, "path"), functionArgs);
      if substituted.Err? {
        return Err(substituted.error);
      }
      path := substituted.value;
      if |InLocation(params, "query")| > 0 {
        return Err(TypeError);
      }
      path := Replace(path, "{", "");
      path := Replace(path, "}", "");
    }
    r := Ok(seq(|serverList|, k requires 0 <= k < |serverList| => serverList[k] + path));
  }

  // ------------------------------------------------------------------ calling

  datatype Request = Get(url: string) | Post(url: string, body: map<string, string>)

  /** What an HTTP attempt gives back: an exception, or a status and a body. */
  datatype Response = Raised | Reply(status: int, text: string)

  predicate Succeeded(resp: Response) {
    resp.Reply? && resp.status == 200
  }

  /** One attempt of the candidate loop. For a method other than get and post
      `req` is never bound, so reading its status raises and the attempt fails. */
  function Attempt(httpMethod: string, url: string, body: map<string, string>, http: Request -> Response): Response {
    if httpMethod == "get" then http(Get(url))
    else if httpMethod == "post" then http(Post(url, body))
    else Raised
  }

  /** The body of the first candidate, in tried order, that answers 200. */
  function FirstSuccess(tried: seq<string>, httpMethod: string, body: map<string, string>, http: Request -> Response): Option<string> {
    if tried == [] then None
    else
      var resp := Attempt(httpMethod, tried[0], body, http);
      if Succeeded(resp) then Some(resp.text) else FirstSuccess(tried[1..], httpMethod, body, http)
  }

  /** The result is the body of candidate `k` exactly when `k` answers 200 and
      every candidate tried before it failed. */
  lemma {:induction false} FirstSuccessWinner(tried: seq<string>, httpMethod: string, body: map<string, string>,
                                              http: Request -> Response, text: string)
    ensures FirstSuccess(tried, httpMethod, body, http) == Some(text) <==>
      exists k :: 0 <= k < |tried| && Attempt(httpMethod, tried[k], body, http) == Reply(200, text) &&
        forall j :: 0 <= j < k ==> !Succeeded(Attempt(httpMethod, tried[j], body, http))
  {
    if tried != [] {
      FirstSuccessWinner(tried[1..], httpMethod, body, http, text);
      var resp := Attempt(httpMethod, tried[0], body, http);
      if !Succeeded(resp) {
        if exists k :: (0 <= k < |tried| && Attempt(httpMethod, tried[k], body, http) == Reply(200, text) &&
          forall j :: 0 <= j < k ==> !Succeeded(Attempt(httpMethod, tried[j], body, http)))
        {
          var k :| 0 <= k < |tried| && Attempt(httpMethod, tried[k], body, http) == Reply(200, text) &&
            forall j :: 0 <= j < k ==> !Succeeded(Attempt(httpMethod, tried[j], body, http));
          assert k > 0;
          assert tried[1..][k - 1] == tried[k];
          forall j | 0 <= j < k - 1 ensures !Succeeded(Attempt(httpMethod, tried[1..][j], body, http)) {
            assert tried[1..][j] == tried[j + 1];
          }
        }
        if FirstSuccess(tried, httpMethod, body, http) == Some(text) {
          var k :| 0 <= k < |tried[1..]| && Attempt(httpMethod, tried[1..][k], body, http) == Reply(200, text) &&
            forall j :: 0 <= j < k ==> !Succeeded(Attempt(httpMethod, tried[1..][j], body, http));
          assert tried[k + 1] == tried[1..][k];
          forall j | 0 <= j < k + 1 ensures !Succeeded(Attempt(httpMethod, tried[j], body, http)) {
            if j > 0 {
              assert tried[j] == tried[1..][j - 1];
            }
          }
        }
      } else {
        if FirstSuccess(tried, httpMethod, body, http) == Some(text) {
          assert Attempt(httpMethod, tried[0], body, http) == Reply(200, text);
        }
      }
    }
  }

  /** No result at all exactly when every candidate fails. */
  lemma {:induction false} FirstSuccessNone(tried: seq<string>, httpMethod: string, body: map<string, string>,
                                            http: Request -> Response)
    ensures FirstSuccess(tried, httpMethod, body, http).None? <==>
      forall k :: 0 <= k < |tried| ==> !Succeeded(Attempt(httpMethod, tried[k], body, http))
  {
    if tried != [] {
      FirstSuccessNone(tried[1..], httpMethod, body, http);
      assert forall k :: 0 < k < |tried| ==> tried[k] == tried[1..][k - 1];
    }
  }

  /** A function registered under put, delete or patch can never return a body. */
  lemma UnsupportedMethodFails(tried: seq<string>, httpMethod: string, body: map<string, string>,
                               http: Request -> Response)
    requires httpMethod != "get" && httpMethod != "post"
    ensures FirstSuccess(tried, httpMethod, body, http) == None
  {
    FirstSuccessNone(tried, httpMethod, body, http);
  }

  /** `call_function` with the arguments already decoded (`None` when the
      argument text is not JSON) and `random.shuffle` given as `shuffle`. */
  function CallOutcome(h: Helper, functionName: string, functionArgs: Option<map<string, string>>,
                       shuffle: seq<string> -> seq<string>, http: Request -> Response): Result<Option<string>> {
    if functionName !in h.functionDict then Err(KeyError(functionName))
    else
      var entry := h.functionDict[functionName];
      match functionArgs
      case None => Err(ValueError)
      case Some(args) =>
        match CallUrls(h.serverList, entry, args)
        case Err(e) => Err(e)
        case Ok(urls) => Ok(FirstSuccess(shuffle(urls), entry.httpMethod, args, http))
  }

  /** An unknown function name raises `KeyError`; there is no sentinel result. */
  lemma UnknownFunctionRaises(h: Helper, functionName: string, functionArgs: Option<map<string, string>>,
                              shuffle: seq<string> -> seq<string>, http: Request -> Response)
    requires functionName !in h.functionDict
    ensures CallOutcome(h, functionName, functionArgs, shuffle, http) == Err(KeyError(functionName))
  {
  }

  /** When the shuffle is a permutation, a returned body is the 200 answer of
      one server's URL for the rewritten path. */
  lemma BodyComesFromAServer(h: Helper, functionName: string, args: map<string, string>,
                             shuffle: seq<string> -> seq<string>, http: Request -> Response, text: string)
    requires functionName in h.functionDict
    requires var e := h.functionDict[functionName]; CallUrls(h.serverList, e, args).Ok?
    requires var e := h.functionDict[functionName];
      multiset(shuffle(CallUrls(h.serverList, e, args).value)) == multiset(CallUrls(h.serverList, e, args).value)
    requires CallOutcome(h, functionName, Some(args), shuffle, http) == Ok(Some(text))
    ensures var e := h.functionDict[functionName];
      exists i :: 0 <= i < |h.serverList| &&
        Attempt(e.httpMethod, h.serverList[i] + RewritePath(e.path, e.parameters, args).value, args, http) == Reply(200, text)
  {
    var e := h.functionDict[functionName];
    var urls := CallUrls(h.serverList, e, args).value;
    var tried := shuffle(urls);
    FirstSuccessWinner(tried, e.httpMethod, args, http, text);
    var k :| 0 <= k < |tried| && Attempt(e.httpMethod, tried[k], args, http) == Reply(200, text) &&
      forall j :: 0 <= j < k ==> !Succeeded(Attempt(e.httpMethod, tried[j], args, http));
    assert tried[k] in multiset(tried);
    assert tried[k] in urls;
    var i :| 0 <= i < |urls| && urls[i] == tried[k];
  }

  /** `call_function`: lookup, decoding, planning, shuffling, then the candidate loop. */
  method CallFunction(h: Helper, functionName: string, functionArgs: Option<map<string, string>>,
                      shuffle: seq<string> -> seq<string>, http: Request -> Response)
    returns (r: Result<Option<string>>)
    ensures r == CallOutcome(h, functionName, functionArgs, shuffle, http)
  {
    if functionName !in h.functionDict {
      return Err(KeyError(functionName));
    }
    var functionData := h.functionDict[functionName];
    var functionMethod := functionData.httpMethod;
    if functionArgs.None? {
      return Err(ValueError);
    }
    var functionArgsDict := functionArgs.value;
    var fqdns := ConstructCallFqdns(h.serverList, functionData, functionArgsDict);
    if fqdns.Err? {
      return Err(fqdns.error);
    }
    var callFqdns := shuffle(fqdns.value);
    for k := 0 to |callFqdns|
      invariant FirstSuccess(callFqdns, functionMethod, functionArgsDict, http) ==
        FirstSuccess(callFqdns[k..], functionMethod, functionArgsDict, http)
    {
      var req: Response;
      if functionMethod == "get" {
        req := http(Get(callFqdns[k]));
      } else if functionMethod == "post" {
        req := http(Post(callFqdns[k], functionArgsDict));
      } else {
        req := Raised;
      }
      assert callFqdns[k..][0] == callFqdns[k] && callFqdns[k..][1..] == callFqdns[k + 1..];
      if req.Reply? && req.status == 200 {
        return Ok(Some(req.text));
      }
    }
    r := Ok(None);
  }
}
