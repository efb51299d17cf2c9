/**
 * Function declarations for the chat model's tool calling. A tool is given either as a
 * flat dict (a name, a description and an output schema of field descriptions) or as the
 * JSON Schema of a pydantic model. In the schema, nested models are local `$ref`s into
 * `$defs` (JSON Schema 2020-12 Core, sections 8.2.3.1 and 8.2.4), and they are inlined by
 * looking up the reference's last "/" segment and nothing else.
 *
 * `fuel` is the number of `process_properties` frames Python's recursion limit still
 * allows: a definition that refers to itself recurses until that limit is reached.
 */
module ToolFormatter {
  import opened Wrappers
  import opened Json
  import Text

  const AttributeError: string := "AttributeError"
  const KeyError: string := "KeyError"
  const TypeError: string := "TypeError"
  const RecursionError: string := "RecursionError"

  /** The declaration both converters return. */
  function Declaration(name: string, description: Value, properties: Doc, required: Value): Doc
  {
    [("name", Str(name)), ("description", description),
     ("parameters", Obj([("type", Str("object")), ("properties", Obj(properties)), ("required", required)]))]
  }

  /** What a client reads off a declaration. */
  predicate Declares(decl: Doc, name: string, description: Value, properties: Doc, required: Value)
  {
    && Get(decl, "name") == Some(Str(name))
    && Get(decl, "description") == Some(description)
    && Get(decl, "parameters").Some? && Get(decl, "parameters").value.Obj?
    && var ps := Get(decl, "parameters").value.fields;
       && Get(ps, "type") == Some(Str("object"))
       && Get(ps, "properties") == Some(Obj(properties))
       && Get(ps, "required") == Some(required)
  }

  lemma DeclarationDeclares(name: string, description: Value, properties: Doc, required: Value)
    ensures Declares(Declaration(name, description, properties, required), name, description, properties, required)
  {
    var ps := [("type", Str("object")), ("properties", Obj(properties)), ("required", required)];
    GetAt(ps, 0, "type");
    GetAt(ps, 1, "properties");
    GetAt(ps, 2, "required");
    var decl := Declaration(name, description, properties, required);
    GetAt(decl, 0, "name");
    GetAt(decl, 1, "description");
    GetAt(decl, 2, "parameters");
  }

  // ---------------------------------------------------------------------------------
  // dict_to_tool_format

  /** The properties built from an output schema: every field becomes a described string. */
  function StringProperties(schema: Doc): (r: Doc)
    ensures Keys(r) == Keys(schema)
    ensures forall i :: 0 <= i < |schema| ==>
              r[i].1 == Obj([("description", schema[i].1), ("type", Str("string"))])
  {
    if |schema| == 0 then []
    else [(schema[0].0, Obj([("description", schema[0].1), ("type", Str("string"))]))] + StringProperties(schema[1..])
  }

  /** `list(output_schema.keys())`. */
  function KeyList(schema: Doc): (r: seq<Value>)
    ensures |r| == |schema|
    ensures forall i :: 0 <= i < |schema| ==> r[i] == Str(schema[i].0)
  {
    if |schema| == 0 then [] else [Str(schema[0].0)] + KeyList(schema[1..])
  }

  /** `tool_dict.get("tool_name", "").lower()`: a name that is not a string has no `lower`. */
  function ToolName(tool: Doc): Result<string>
  {
    match Get(tool, "tool_name")
    case None => Ok("")
    case Some(Str(s)) => Ok(Text.Lower(s))
    case Some(_) => Err(AttributeError)
  }

  /** `dict_to_tool_format`. */
  function DictToToolFormat(tool: Doc): Result<Doc>
  {
    var name := ToolName(tool);
    var schema := GetOr(tool, "output_schema", Obj([]));
    if name.Err? then Err(name.msg)
    else if !schema.Obj? then Err(AttributeError)
    else Ok(Declaration(name.value, GetOr(tool, "description", Str("")), StringProperties(schema.fields),
                        Arr(KeyList(schema.fields))))
  }

  /**
   * The flat converter succeeds unless the name is not a string or the output schema is
   * not a dict. It lowercases the name (default ""), and the description defaults to "".
   * Its properties hold exactly the schema's fields, in order, each a string with the
   * given description. `required` lists the same fields in the same order.
   */
  lemma DictToToolFormatSpec(tool: Doc)
    ensures var r := DictToToolFormat(tool);
            var tn := Get(tool, "tool_name");
            var schema := GetOr(tool, "output_schema", Obj([]));
            && (r.Ok? <==> (tn.None? || tn.value.Str?) && schema.Obj?)
            && (r.Ok? ==>
                  Declares(r.value, if tn.None? then "" else Text.Lower(tn.value.s),
                           GetOr(tool, "description", Str("")), StringProperties(schema.fields),
                           Arr(KeyList(schema.fields))))
  {
    var r := DictToToolFormat(tool);
    if r.Ok? {
      var schema := GetOr(tool, "output_schema", Obj([]));
      DeclarationDeclares(ToolName(tool).value, GetOr(tool, "description", Str("")), StringProperties(schema.fields),
                          Arr(KeyList(schema.fields)));
    }
  }

  // ---------------------------------------------------------------------------------
  // pydantic_schema_to_tool_format

  /** `resolve_ref`: the definition under the reference's last "/" segment, or {}. */
  function ResolveRef(defs: Value, ref: Value): (r: Result<Value>)
    ensures r.Ok? <==> ref.Str? && defs.Obj?
  {
    if !ref.Str? || !defs.Obj? then Err(AttributeError)
    else Ok(GetOr(defs.fields, Text.AfterLast(ref.s, '/'), Obj([])))
  }

  /**
   * A reference ending in "/<name>" names the definition `name`, whatever the path before
   * it: "#/$defs/Item" and "#/definitions/Item" both resolve to `$defs["Item"]`, and an
   * unknown name resolves to {}.
   */
  lemma ResolveByName(defs: Doc, path: string, name: string)
    requires '/' !in name
    ensures Text.AfterLast(path + "/" + name, '/') == name
    ensures ResolveRef(Obj(defs), Str(path + "/" + name)) == Ok(GetOr(defs, name, Obj([])))
  {
    var s := path + "/" + name;
    var k := Text.LastIndexOf(s, '/');
    assert s[|path|] == '/';
    assert forall j :: |path| < j < |s| ==> s[j] == name[j - |path| - 1];
    assert k == |path|;
    assert s[k + 1..] == name;
  }

  /** Python's `key in v`: a key of a dict, an element of a list, a substring of a string. */
  function Contains(v: Value, key: string): Result<bool>
  {
    match v
    case Obj(fields) => Ok(Get(fields, key).Some?)
    case Arr(items) => Ok(Str(key) in items)
    case Str(s) => Ok(Text.Occurs(s, key))
    case _ => Err(TypeError)
  }

  /** Python's `v[key]`: only a dict can be indexed by a string. */
  function Index(v: Value, key: string): (r: Result<Value>)
    ensures r.Ok? ==> v.Obj? && Get(v.fields, key) == Some(r.value)
  {
    match v
    case Obj(fields) => if Get(fields, key).Some? then Ok(Get(fields, key).value) else Err(KeyError)
    case _ => Err(TypeError)
  }

  /** `process_properties(properties)` with `fuel` frames left. */
  function ProcessProperties(defs: Value, properties: Value, fuel: nat): Result<Doc>
    decreases fuel, 0, 0
  {
    if fuel == 0 then Err(RecursionError)
    else if !properties.Obj? then Err(AttributeError)
    else ProcessEntries(defs, properties.fields, fuel - 1)
  }

  /**
   * The loop of `process_properties`, left to right: `processed[key] = value` with each
   * value processed, the first failure propagating. The keys of a dict are distinct, so
   * each assignment adds a new entry at the end.
   */
  function ProcessEntries(defs: Value, entries: Doc, fuel: nat): Result<Doc>
    decreases fuel, 4, |entries|
  {
    if |entries| == 0 then Ok([])
    else
      var init := ProcessEntries(defs, entries[..|entries| - 1], fuel);
      var v := ProcessEntry(defs, entries[|entries| - 1].1, fuel);
      if init.Err? then init
      else if v.Err? then Err(v.msg)
      else Ok(init.value + [(entries[|entries| - 1].0, v.value)])
  }

  /** `value.pop("title", None)` then `value = resolve_ref(value["$ref"])` when there is a reference. */
  function Resolved(defs: Value, value: Doc): Result<Value>
  {
    var stripped := Remove(value, "title");
    match Get(stripped, "$ref")
    case Some(ref) => ResolveRef(defs, ref)
    case None => Ok(Obj(stripped))
  }

  /** One property: drop "title", then inline a `$ref`, then expand the result. */
  function ProcessEntry(defs: Value, value: Value, fuel: nat): Result<Value>
    decreases fuel, 3, 0
  {
    if !value.Obj? then Err(AttributeError)
    else
      var resolved := Resolved(defs, value.fields);
      if resolved.Err? then Err(resolved.msg)
      else if !resolved.value.Obj? then Err(AttributeError)
      else Expand(defs, resolved.value.fields, fuel)
  }

  /** An object's properties are processed; an array's item schema is handed to `ExpandItems`. */
  function Expand(defs: Value, d: Doc, fuel: nat): Result<Value>
    decreases fuel, 2, 0
  {
    if Get(d, "type") == Some(Str("object")) && Get(d, "properties").Some? then
      var p := ProcessProperties(defs, Get(d, "properties").value, fuel);
      if p.Err? then Err(p.msg) else Ok(Obj(Put(d, "properties", Obj(p.value))))
    else if Get(d, "type") == Some(Str("array")) && Get(d, "items").Some? then
      ExpandItems(defs, d, Get(d, "items").value, fuel)
    else Ok(Obj(d))
  }

  /** `if "$ref" in value["items"]: value["items"] = resolve_ref(value["items"]["$ref"])`; None when there is no reference. */
  function ItemsResolved(defs: Value, items: Value): Result<Option<Value>>
  {
    var hasRef := Contains(items, "$ref");
    var ref := Index(items, "$ref");
    if hasRef.Err? then Err(hasRef.msg)
    else if !hasRef.value then Ok(None)
    else if ref.Err? then Err(ref.msg)
    else
      var def := ResolveRef(defs, ref.value);
      if def.Err? then Err(def.msg) else Ok(Some(def.value))
  }

  /** `value["items"]["properties"]` when `"properties" in value["items"]`, None when it is not. */
  function ItemProperties(items: Value): (r: Result<Option<Value>>)
    ensures r.Ok? && r.value.Some? ==> items.Obj? && Get(items.fields, "properties") == Some(r.value.value)
  {
    var hasProps := Contains(items, "properties");
    var inner := Index(items, "properties");
    if hasProps.Err? then Err(hasProps.msg)
    else if !hasProps.value then Ok(None)
    else if inner.Err? then Err(inner.msg)
    else Ok(Some(inner.value))
  }

  /** The item schema of an array: a `$ref` is inlined, then its properties are processed. */
  function ExpandItems(defs: Value, d: Doc, items: Value, fuel: nat): Result<Value>
    decreases fuel, 1, 0
  {
    var resolved := ItemsResolved(defs, items);
    if resolved.Err? then Err(resolved.msg)
    else
      var items' := resolved.value.GetOr(items);
      var d' := if resolved.value.Some? then Put(d, "items", items') else d;
      var inner := ItemProperties(items');
      if inner.Err? then Err(inner.msg)
      else if inner.value.None? then Ok(Obj(d'))
      else
        var p := ProcessProperties(defs, inner.value.value, fuel);
        if p.Err? then Err(p.msg)
        else Ok(Obj(Put(d', "items", Obj(Put(items'.fields, "properties", Obj(p.value))))))
  }

  /** The tool name: the title with every "Params" removed, lowercased. */
  function ToolNameOf(title: string): string
  {
    Text.Lower(Text.RemoveAll(title, "Params"))
  }

  /** `pydantic_schema_to_tool_format`, on the dict `model_json_schema()` returns. */
  function PydanticSchemaToToolFormat(schema: Doc, fuel: nat): Result<Doc>
  {
    match Get(schema, "title")
    case None => Err(KeyError)
    case Some(title) =>
      if !title.Str? then Err(AttributeError)
      else
        match Get(schema, "properties")
        case None => Err(KeyError)
        case Some(props) =>
          var p := ProcessProperties(GetOr(schema, "$defs", Obj([])), props, fuel);
          if p.Err? then Err(p.msg)
          else Ok(Declaration(ToolNameOf(title.s), GetOr(schema, "description", Str("")), p.value,
                              GetOr(schema, "required", Arr([]))))
  }

  // ---------------------------------------------------------------------------------
  // What process_properties guarantees

  lemma KeysSnoc(d: Doc)
    requires |d| > 0
    ensures Keys(d) == Keys(d[..|d| - 1]) + [d[|d| - 1].0]
  {
    var init := Keys(d[..|d| - 1]);
    var whole := init + [d[|d| - 1].0];
    forall i | 0 <= i < |d|
      ensures Keys(d)[i] == whole[i]
    {
      if i < |d| - 1 {
        assert whole[i] == init[i];
      }
    }
  }

  /** `ProcessEntries` with the processing of one property abstracted as `f`. */
  function MapEntries(entries: Doc, f: Value -> Result<Value>): Result<Doc>
  {
    if |entries| == 0 then Ok([])
    else
      var init := MapEntries(entries[..|entries| - 1], f);
      var v := f(entries[|entries| - 1].1);
      if init.Err? then init
      else if v.Err? then Err(v.msg)
      else Ok(init.value + [(entries[|entries| - 1].0, v.value)])
  }

  /** One more entry: the loop's dict so far, with that entry assigned. */
  lemma MapEntriesSnoc(entries: Doc, f: Value -> Result<Value>)
    requires |entries| > 0 && MapEntries(entries, f).Ok?
    ensures MapEntries(entries[..|entries| - 1], f).Ok?
    ensures f(entries[|entries| - 1].1).Ok?
    ensures MapEntries(entries, f).value
         == MapEntries(entries[..|entries| - 1], f).value + [(entries[|entries| - 1].0, f(entries[|entries| - 1].1).value)]
  {
  }

  /** The loop succeeds exactly when every property does. */
  lemma {:induction false} MapEntriesOk(entries: Doc, f: Value -> Result<Value>)
    ensures MapEntries(entries, f).Ok? <==> forall i :: 0 <= i < |entries| ==> f(entries[i].1).Ok?
  {
    if |entries| > 0 {
      var init := entries[..|entries| - 1];
      var last := entries[|entries| - 1].1;
      MapEntriesOk(init, f);
      assert MapEntries(entries, f).Ok? <==> MapEntries(init, f).Ok? && f(last).Ok?;
      if MapEntries(entries, f).Ok? {
        forall i | 0 <= i < |entries| ensures f(entries[i].1).Ok? {
          if i < |init| {
            assert init[i] == entries[i];
          }
        }
      } else if !f(last).Ok? {
        assert !f(entries[|entries| - 1].1).Ok?;
      } else {
        var i :| 0 <= i < |init| && !f(init[i].1).Ok?;
        assert init[i] == entries[i];
      }
    }
  }

  /** Once a property fails, the loop fails with that property's error. */
  lemma {:induction false} MapEntriesErr(entries: Doc, f: Value -> Result<Value>, i: nat)
    requires i <= |entries| && MapEntries(entries[..i], f).Err?
    ensures MapEntries(entries, f) == MapEntries(entries[..i], f)
    decreases |entries| - i
  {
    if i < |entries| {
      assert entries[..i + 1][..i] == entries[..i];
      MapEntriesErr(entries, f, i + 1);
    } else {
      assert entries[..i] == entries;
    }
  }

  /** Each property comes out under its own key, in the input's order, processed. */
  lemma {:induction false} MapEntriesAt(entries: Doc, f: Value -> Result<Value>)
    requires MapEntries(entries, f).Ok?
    ensures |MapEntries(entries, f).value| == |entries|
    ensures forall i :: 0 <= i < |entries| ==>
              f(entries[i].1).Ok? && MapEntries(entries, f).value[i] == (entries[i].0, f(entries[i].1).value)
  {
    if |entries| > 0 {
      var init := entries[..|entries| - 1];
      MapEntriesSnoc(entries, f);
      MapEntriesAt(init, f);
      forall i | 0 <= i < |init| ensures init[i] == entries[i] { }
    }
  }

  /** The processed dict has exactly the input's keys, in order. */
  lemma MapEntriesKeys(entries: Doc, f: Value -> Result<Value>)
    requires MapEntries(entries, f).Ok?
    ensures Keys(MapEntries(entries, f).value) == Keys(entries)
  {
    MapEntriesAt(entries, f);
  }

  /** The body of the loop of `process_properties`, as a function of the property. */
  function Processor(defs: Value, fuel: nat): Value -> Result<Value>
  {
    v => ProcessEntry(defs, v, fuel)
  }

  lemma {:induction false} ProcessEntriesIsMap(defs: Value, entries: Doc, fuel: nat)
    ensures ProcessEntries(defs, entries, fuel) == MapEntries(entries, Processor(defs, fuel))
  {
    if |entries| > 0 {
      ProcessEntriesIsMap(defs, entries[..|entries| - 1], fuel);
    }
  }

  /**
   * `process_properties` fails on anything but a dict and when the recursion budget is
   * spent. Otherwise it keeps the keys of its input, in order, and each key holds its own
   * property, processed; when a property fails, the whole call fails.
   */
  lemma ProcessPropertiesKeys(defs: Value, properties: Value, fuel: nat)
    requires ProcessProperties(defs, properties, fuel).Ok?
    ensures fuel > 0 && properties.Obj?
    ensures Keys(ProcessProperties(defs, properties, fuel).value) == Keys(properties.fields)
    ensures forall i :: 0 <= i < |properties.fields| ==>
              && ProcessEntry(defs, properties.fields[i].1, fuel - 1).Ok?
              && ProcessProperties(defs, properties, fuel).value[i]
                 == (properties.fields[i].0, ProcessEntry(defs, properties.fields[i].1, fuel - 1).value)
  {
    var lower: nat := fuel - 1;
    ProcessEntriesIsMap(defs, properties.fields, lower);
    MapEntriesKeys(properties.fields, Processor(defs, lower));
    MapEntriesAt(properties.fields, Processor(defs, lower));
  }

  lemma ExpandItemsKeepsFields(defs: Value, d: Doc, items: Value, fuel: nat)
    requires ExpandItems(defs, d, items, fuel).Ok?
    ensures ExpandItems(defs, d, items, fuel).value.Obj?
    ensures forall k :: k != "items" ==> Get(ExpandItems(defs, d, items, fuel).value.fields, k) == Get(d, k)
  {
  }

  /** Expansion only rewrites "properties" and "items"; every other field, "title" included, stays. */
  lemma ExpandKeepsFields(defs: Value, d: Doc, fuel: nat)
    requires Expand(defs, d, fuel).Ok?
    ensures Expand(defs, d, fuel).value.Obj?
    ensures forall k :: k != "properties" && k != "items" ==> Get(Expand(defs, d, fuel).value.fields, k) == Get(d, k)
  {
    if !(Get(d, "type") == Some(Str("object")) && Get(d, "properties").Some?)
       && Get(d, "type") == Some(Str("array")) && Get(d, "items").Some? {
      ExpandItemsKeepsFields(defs, d, Get(d, "items").value, fuel);
    }
  }

  /**
   * "title" is dropped before `$ref` resolution. A property without a reference comes out
   * with no title. A referenced definition comes out with the definition's own title.
   */
  lemma EntryTitle(defs: Value, value: Value, fuel: nat)
    requires ProcessEntry(defs, value, fuel).Ok?
    ensures value.Obj?
    ensures var out := ProcessEntry(defs, value, fuel).value;
            && out.Obj?
            && (Get(value.fields, "$ref").None? ==> !Has(out.fields, "title"))
            && (Get(value.fields, "$ref").Some? ==>
                  var def := ResolveRef(defs, Get(value.fields, "$ref").value).value;
                  def.Obj? && Get(out.fields, "title") == Get(def.fields, "title"))
  {
    var stripped := Remove(value.fields, "title");
    assert Get(stripped, "$ref") == Get(value.fields, "$ref");
    var resolved := Resolved(defs, value.fields);
    ExpandKeepsFields(defs, resolved.value.fields, fuel);
    var out := ProcessEntry(defs, value, fuel).value;
    GetHas(out.fields, "title");
    GetHas(stripped, "title");
  }

  /** An object property with "properties" has them processed: the same keys come back. */
  lemma EntryObject(defs: Value, value: Doc, properties: Value, fuel: nat)
    requires Get(value, "$ref").None? && Get(value, "type") == Some(Str("object"))
    requires Get(value, "properties") == Some(properties)
    requires ProcessEntry(defs, Obj(value), fuel).Ok?
    ensures ProcessProperties(defs, properties, fuel).Ok?
    ensures var out := ProcessEntry(defs, Obj(value), fuel).value;
            && out.Obj?
            && Get(out.fields, "properties") == Some(Obj(ProcessProperties(defs, properties, fuel).value))
            && Keys(ProcessProperties(defs, properties, fuel).value) == Keys(properties.fields)
  {
    var stripped := Remove(value, "title");
    assert Get(stripped, "$ref").None? && Get(stripped, "type") == Some(Str("object"));
    assert Get(stripped, "properties") == Some(properties);
    assert Resolved(defs, value) == Ok(Obj(stripped));
    ProcessPropertiesKeys(defs, properties, fuel);
  }

  /** The item schema `{"$ref": ref}` resolves: the definition, or an error. */
  lemma ItemsRefResolves(defs: Doc, ref: Value)
    ensures ItemsResolved(Obj(defs), Obj([("$ref", ref)]))
         == if ResolveRef(Obj(defs), ref).Ok? then Ok(Some(ResolveRef(Obj(defs), ref).value)) else Err(ResolveRef(Obj(defs), ref).msg)
  {
    var items := Obj([("$ref", ref)]);
    GetAt(items.fields, 0, "$ref");
    assert Contains(items, "$ref") == Ok(true);
    assert Index(items, "$ref") == Ok(ref);
  }

  lemma ItemsRefPlain(defs: Doc, d: Doc, ref: Value, fuel: nat)
    requires ExpandItems(Obj(defs), d, Obj([("$ref", ref)]), fuel).Ok?
    requires ResolveRef(Obj(defs), ref).Ok? && ItemProperties(ResolveRef(Obj(defs), ref).value) == Ok(None)
    ensures ResolveRef(Obj(defs), ref).Ok?
    ensures var def := ResolveRef(Obj(defs), ref).value;
            var out := ExpandItems(Obj(defs), d, Obj([("$ref", ref)]), fuel).value;
            && out.Obj? && Get(out.fields, "items").Some?
            && var items := Get(out.fields, "items").value;
               && (!def.Obj? ==> items == def)
               && (def.Obj? ==>
                     && items.Obj?
                     && Get(items.fields, "title") == Get(def.fields, "title")
                     && (Get(def.fields, "properties").Some? ==>
                           && ProcessProperties(Obj(defs), Get(def.fields, "properties").value, fuel).Ok?
                           && Get(items.fields, "properties")
                              == Some(Obj(ProcessProperties(Obj(defs), Get(def.fields, "properties").value, fuel).value))))
  {
    ItemsRefResolves(defs, ref);
    var def := ResolveRef(Obj(defs), ref).value;
    assert ExpandItems(Obj(defs), d, Obj([("$ref", ref)]), fuel).value == Obj(Put(d, "items", def));
    if def.Obj? {
      assert Get(def.fields, "properties").None?;
    }
  }

  /** Assigning one key leaves every other key's value as it was. */
  lemma GetPutOther(d: Doc, k: string, v: Value, k': string)
    requires k' != k
    ensures Get(Put(d, k, v), k') == Get(d, k')
  {
  }

  /** The item schema `{"$ref": ref}` whose definition has properties: the expanded schema. */
  lemma ItemsRefShape(defs: Doc, d: Doc, ref: Value, fuel: nat)
    requires ExpandItems(Obj(defs), d, Obj([("$ref", ref)]), fuel).Ok?
    requires ResolveRef(Obj(defs), ref).Ok? && ItemProperties(ResolveRef(Obj(defs), ref).value).Ok?
    requires ItemProperties(ResolveRef(Obj(defs), ref).value).value.Some?
    ensures var def := ResolveRef(Obj(defs), ref).value;
            var p := ProcessProperties(Obj(defs), ItemProperties(def).value.value, fuel);
            && p.Ok?
            && ExpandItems(Obj(defs), d, Obj([("$ref", ref)]), fuel).value
               == Obj(Put(Put(d, "items", def), "items", Obj(Put(def.fields, "properties", Obj(p.value)))))
  {
    ItemsRefResolves(defs, ref);
  }

  lemma ItemsRefProperties(defs: Doc, d: Doc, ref: Value, fuel: nat)
    requires ExpandItems(Obj(defs), d, Obj([("$ref", ref)]), fuel).Ok?
    requires ResolveRef(Obj(defs), ref).Ok? && ItemProperties(ResolveRef(Obj(defs), ref).value).Ok?
    requires ItemProperties(ResolveRef(Obj(defs), ref).value).value.Some?
    ensures ResolveRef(Obj(defs), ref).Ok?
    ensures var def := ResolveRef(Obj(defs), ref).value;
            var out := ExpandItems(Obj(defs), d, Obj([("$ref", ref)]), fuel).value;
            && out.Obj? && Get(out.fields, "items").Some?
            && var items := Get(out.fields, "items").value;
               && (!def.Obj? ==> items == def)
               && (def.Obj? ==>
                     && items.Obj?
                     && Get(items.fields, "title") == Get(def.fields, "title")
                     && (Get(def.fields, "properties").Some? ==>
                           && ProcessProperties(Obj(defs), Get(def.fields, "properties").value, fuel).Ok?
                           && Get(items.fields, "properties")
                              == Some(Obj(ProcessProperties(Obj(defs), Get(def.fields, "properties").value, fuel).value))))
  {
    ItemsRefShape(defs, d, ref, fuel);
    var def := ResolveRef(Obj(defs), ref).value;
    var inner := ItemProperties(def).value.value;
    var p := ProcessProperties(Obj(defs), inner, fuel);
    var newItems := Put(def.fields, "properties", Obj(p.value));
    var out := Put(Put(d, "items", def), "items", Obj(newItems));
    assert Get(out, "items") == Some(Obj(newItems));
    assert Get(newItems, "properties") == Some(Obj(p.value));
    assert "title"[0] != "properties"[0];
    GetPutOther(def.fields, "properties", Obj(p.value), "title");
  }

  lemma ItemsRef(defs: Doc, d: Doc, ref: Value, fuel: nat)
    requires ExpandItems(Obj(defs), d, Obj([("$ref", ref)]), fuel).Ok?
    ensures ResolveRef(Obj(defs), ref).Ok?
    ensures var def := ResolveRef(Obj(defs), ref).value;
            var out := ExpandItems(Obj(defs), d, Obj([("$ref", ref)]), fuel).value;
            && out.Obj? && Get(out.fields, "items").Some?
            && var items := Get(out.fields, "items").value;
               && (!def.Obj? ==> items == def)
               && (def.Obj? ==>
                     && items.Obj?
                     && Get(items.fields, "title") == Get(def.fields, "title")
                     && (Get(def.fields, "properties").Some? ==>
                           && ProcessProperties(Obj(defs), Get(def.fields, "properties").value, fuel).Ok?
                           && Get(items.fields, "properties")
                              == Some(Obj(ProcessProperties(Obj(defs), Get(def.fields, "properties").value, fuel).value))))
  {
    ItemsRefResolves(defs, ref);
    var r := ResolveRef(Obj(defs), ref);
    if ItemProperties(r.value).value.None? {
      ItemsRefPlain(defs, d, ref, fuel);
    } else {
      ItemsRefProperties(defs, d, ref, fuel);
    }
  }

  /**
   * An array whose item schema is a reference gets the referenced definition inlined as
   * its items, keeping the definition's title, with the definition's properties processed.
   */
  lemma EntryArrayRef(defs: Doc, value: Doc, ref: Value, fuel: nat)
    requires Get(value, "$ref").None? && Get(value, "type") == Some(Str("array"))
    requires Get(value, "items") == Some(Obj([("$ref", ref)]))
    requires ProcessEntry(Obj(defs), Obj(value), fuel).Ok?
    ensures ResolveRef(Obj(defs), ref).Ok?
    ensures var def := ResolveRef(Obj(defs), ref).value;
            var out := ProcessEntry(Obj(defs), Obj(value), fuel).value;
            && out.Obj? && Get(out.fields, "items").Some?
            && var items := Get(out.fields, "items").value;
               && (!def.Obj? ==> items == def)
               && (def.Obj? ==>
                     && items.Obj?
                     && Get(items.fields, "title") == Get(def.fields, "title")
                     && (Get(def.fields, "properties").Some? ==>
                           && ProcessProperties(Obj(defs), Get(def.fields, "properties").value, fuel).Ok?
                           && Get(items.fields, "properties")
                              == Some(Obj(ProcessProperties(Obj(defs), Get(def.fields, "properties").value, fuel).value))))
  {
    var stripped := Remove(value, "title");
    assert Get(stripped, "$ref").None? && Get(stripped, "type") == Some(Str("array"));
    assert Get(stripped, "items") == Some(Obj([("$ref", ref)]));
    assert Resolved(Obj(defs), value) == Ok(Obj(stripped));
    assert ProcessEntry(Obj(defs), Obj(value), fuel) == ExpandItems(Obj(defs), stripped, Obj([("$ref", ref)]), fuel);
    ItemsRef(defs, stripped, ref, fuel);
  }

  /** The reference `path/name` as a property. */
  function RefTo(path: string, name: string): Value
  {
    Obj([("$ref", Str(path + "/" + name))])
  }

  lemma RefEntryExpands(defs: Doc, path: string, name: string, d: Doc, e: Value, fuel: nat)
    requires '/' !in name && Get(defs, name) == Some(Obj(d)) && e == RefTo(path, name)
    ensures ProcessEntry(Obj(defs), e, fuel) == Expand(Obj(defs), d, fuel)
  {
    var value := [("$ref", Str(path + "/" + name))];
    assert Remove(value, "title") == value;
    GetAt(value, 0, "$ref");
    ResolveByName(defs, path, name);
    assert Resolved(Obj(defs), value) == Ok(Obj(d));
  }

  lemma MapEntriesFails(entries: Doc, f: Value -> Result<Value>, j: nat)
    requires j < |entries| && f(entries[j].1).Err?
    ensures MapEntries(entries, f).Err?
  {
    MapEntriesOk(entries, f);
  }

  lemma PropertiesFail(defs: Value, ps: Doc, j: nat, lower: nat, fuel: nat)
    requires fuel == lower + 1 && j < |ps| && ProcessEntry(defs, ps[j].1, lower).Err?
    ensures ProcessProperties(defs, Obj(ps), fuel).Err?
  {
    ProcessEntriesIsMap(defs, ps, lower);
    MapEntriesFails(ps, Processor(defs, lower), j);
  }

  lemma ObjectExpands(defs: Value, d: Doc, ps: Doc, fuel: nat)
    requires Get(d, "type") == Some(Str("object")) && Get(d, "properties") == Some(Obj(ps))
    requires ProcessProperties(defs, Obj(ps), fuel).Err?
    ensures Expand(defs, d, fuel).Err?
  {
  }

  /**
   * A definition that reaches itself through an object property recurses until Python's
   * recursion limit: whatever the budget, processing never succeeds.
   */
  lemma {:induction false} SelfReferenceFails(defs: Doc, path: string, name: string, d: Doc, ps: Doc, j: nat, fuel: nat)
    requires '/' !in name && Get(defs, name) == Some(Obj(d))
    requires Get(d, "type") == Some(Str("object")) && Get(d, "properties") == Some(Obj(ps))
    requires j < |ps| && ps[j].1 == RefTo(path, name)
    ensures ProcessEntry(Obj(defs), ps[j].1, fuel).Err?
  {
    RefEntryExpands(defs, path, name, d, ps[j].1, fuel);
    if fuel > 0 {
      var lower: nat := fuel - 1;
      SelfReferenceFails(defs, path, name, d, ps, j, lower);
      PropertiesFail(Obj(defs), ps, j, lower, fuel);
    }
    ObjectExpands(Obj(defs), d, ps, fuel);
  }

  /**
   * The tool name carries no upper-case letter, and is the lowercased title when the title
   * does not mention "Params".
   */
  lemma ToolNameSpec(title: string)
    ensures forall i :: 0 <= i < |ToolNameOf(title)| ==> !Text.IsUpper(ToolNameOf(title)[i])
    ensures |ToolNameOf(title)| <= |title|
    ensures !Text.Occurs(title, "Params") ==> ToolNameOf(title) == Text.Lower(title)
  {
    Text.LowerHasNoUpper(Text.RemoveAll(title, "Params"));
    Text.RemoveAllUnchangedIff(title, "Params");
  }

  /**
   * The schema converter needs a string "title" and a "properties" dict. Its declaration
   * is named after the title, the description defaults to "" and `required` to [], and
   * the properties are the processed ones, with the same keys.
   */
  lemma PydanticSchemaSpec(schema: Doc, fuel: nat)
    ensures var r := PydanticSchemaToToolFormat(schema, fuel);
            r.Ok? ==>
              && Get(schema, "title").Some? && Get(schema, "title").value.Str?
              && Get(schema, "properties").Some? && Get(schema, "properties").value.Obj?
              && var p := ProcessProperties(GetOr(schema, "$defs", Obj([])), Get(schema, "properties").value, fuel);
                 && p.Ok?
                 && Declares(r.value, ToolNameOf(Get(schema, "title").value.s), GetOr(schema, "description", Str("")),
                             p.value, GetOr(schema, "required", Arr([])))
                 && Keys(p.value) == Keys(Get(schema, "properties").value.fields)
    ensures Get(schema, "title").None? ==> PydanticSchemaToToolFormat(schema, fuel) == Err(KeyError)
    ensures Get(schema, "title").Some? && !Get(schema, "title").value.Str? ==> PydanticSchemaToToolFormat(schema, fuel) == Err(AttributeError)
    ensures Get(schema, "title").Some? && Get(schema, "title").value.Str? && Get(schema, "properties").None?
            ==> PydanticSchemaToToolFormat(schema, fuel) == Err(KeyError)
  {
    var r := PydanticSchemaToToolFormat(schema, fuel);
    if r.Ok? {
      var p := ProcessProperties(GetOr(schema, "$defs", Obj([])), Get(schema, "properties").value, fuel);
      ProcessPropertiesKeys(GetOr(schema, "$defs", Obj([])), Get(schema, "properties").value, fuel);
      DeclarationDeclares(ToolNameOf(Get(schema, "title").value.s), GetOr(schema, "description", Str("")),
                          p.value, GetOr(schema, "required", Arr([])));
    }
  }

  /** One more entry of the fold: its result appended, or its error. */
  lemma MapEntriesStep(entries: Doc, f: Value -> Result<Value>, i: nat, processed: Doc)
    requires i < |entries| && MapEntries(entries[..i], f) == Ok(processed)
    ensures MapEntries(entries[..i + 1], f)
         == if f(entries[i].1).Err? then Err(f(entries[i].1).msg)
            else Ok(processed + [(entries[i].0, f(entries[i].1).value)])
  {
    assert entries[..i + 1][..i] == entries[..i];
  }

  /** With fuel left, processing the properties of an object is the fold of `Processor`. */
  lemma ProcessPropertiesIsMap(defs: Value, properties: Value, lower: nat, fuel: nat)
    requires fuel == lower + 1 && properties.Obj?
    ensures ProcessProperties(defs, properties, fuel) == MapEntries(properties.fields, Processor(defs, lower))
  {
    ProcessEntriesIsMap(defs, properties.fields, lower);
  }

  /** The loop of `process_properties` filling `processed` entry by entry. */
  method ProcessPropertiesLoop(defs: Value, properties: Value, fuel: nat) returns (r: Result<Doc>)
    ensures r == ProcessProperties(defs, properties, fuel)
  {
    if fuel == 0 {
      return Err(RecursionError);
    }
    if !properties.Obj? {
      return Err(AttributeError);
    }
    var entries := properties.fields;
    var lower: nat := fuel - 1;
    ghost var f := Processor(defs, lower);
    ProcessPropertiesIsMap(defs, properties, lower, fuel);
    var processed: Doc := [];
    var i := 0;
    while i < |entries|
      invariant 0 <= i <= |entries|
      invariant MapEntries(entries[..i], f) == Ok(processed)
    {
      var v := ProcessEntry(defs, entries[i].1, lower);
      assert f(entries[i].1) == v;
      MapEntriesStep(entries, f, i, processed);
      if v.Err? {
        MapEntriesErr(entries, f, i + 1);
        return Err(v.msg);
      }
      processed := processed + [(entries[i].0, v.value)];
      i := i + 1;
    }
    assert entries[..i] == entries;
    r := Ok(processed);
  }
}
