/**
 * The Gemini client: the rate-limit retry loop around the HTTP post, the checks on the
 * arguments of a request, the JSON payloads of the generate and function-calling
 * requests, the region parsed off the instance zone, and the conversations the two chat
 * engines send. The HTTP post itself is a parameter: `post(k)` is what the `k`-th post
 * (counting from 0) answers.
 */
module Gemini {
  import opened Wrappers
  import opened Json
  import Text
  import ToolFormatter

  // ---------------------------------------------------------------------------------
  // make_request_with_retries

  /** An HTTP response: its status code and its JSON body. */
  datatype Response = Response(status: int, body: Value)

  const TooManyRequests := 429

  function RetryFailure(maxRetries: int): string
  {
    "Failed after " + Text.IntToString(maxRetries) + " retries due to rate limiting."
  }

  /** How many posts the loop may make: `max_retries`, or none when it is not positive. */
  function PostBound(maxRetries: int): nat
  {
    if maxRetries > 0 then maxRetries else 0
  }

  /**
   * `make_request_with_retries`: posts until a response is not a 429, at most
   * `max_retries` times, and returns that response unchanged; after that many 429s it
   * raises. `posts` is the number of posts made.
   */
  method MakeRequestWithRetries(maxRetries: int, post: nat -> Response) returns (r: Result<Response>, posts: nat)
    ensures posts <= PostBound(maxRetries)
    ensures forall i :: 0 <= i < posts - 1 ==> post(i).status == TooManyRequests
    ensures r.Ok? ==> posts > 0 && r.value == post(posts - 1) && r.value.status != TooManyRequests
    ensures r.Err? ==> r.msg == RetryFailure(maxRetries) && posts == PostBound(maxRetries)
                       && forall i :: 0 <= i < posts ==> post(i).status == TooManyRequests
  {
    var retries := 0;
    posts := 0;
    while retries < maxRetries
      invariant 0 <= retries <= PostBound(maxRetries)
      invariant posts == retries
      invariant forall i :: 0 <= i < retries ==> post(i).status == TooManyRequests
      decreases maxRetries - retries
    {
      var response := post(retries);
      posts := posts + 1;
      if response.status == TooManyRequests {
        retries := retries + 1;
      } else {
        return Ok(response), posts;
      }
    }
    return Err(RetryFailure(maxRetries)), posts;
  }

  // ---------------------------------------------------------------------------------
  // _validate_args

  const ContentListError := "Content role list must be a list"
  const ContentKeysError := "Content role list must have 'role' and 'content' keys"
  const ContentRoleError := "Content role must be 'user' or 'model'"
  const SystemError := "System instructions must be a string"
  const ToolsListError := "Tools must be a list"
  const ToolKeysError := "Tool must have 'name', 'description', and 'parameters' keys"
  const ToolTypesError := "Tool keys must be strings or dict"

  function InvalidTag(tag: string): string
  {
    "Invalid argument type: " + tag
  }

  /**
   * The check on one turn of a conversation: None when it passes, else the message of
   * what it raises. `in` on a value that is not a container, and indexing one that is
   * not a dict, raise a TypeError.
   */
  function TurnError(item: Value): Option<string>
  {
    var hasRole := ToolFormatter.Contains(item, "role");
    if hasRole.Err? then Some(hasRole.msg)
    else if !hasRole.value then Some(ContentKeysError)
    else
      var hasContent := ToolFormatter.Contains(item, "content");
      if hasContent.Err? then Some(hasContent.msg)
      else if !hasContent.value then Some(ContentKeysError)
      else
        var role := ToolFormatter.Index(item, "role");
        if role.Err? then Some(role.msg)
        else if role.value != Str("user") && role.value != Str("model") then Some(ContentRoleError)
        else None
  }

  /** The check on one tool: the three keys must be present, then be a string, a string and a dict. */
  function ToolError(tool: Value): Option<string>
  {
    var hasName := ToolFormatter.Contains(tool, "name");
    if hasName.Err? then Some(hasName.msg)
    else if !hasName.value then Some(ToolKeysError)
    else
      var hasDescription := ToolFormatter.Contains(tool, "description");
      if hasDescription.Err? then Some(hasDescription.msg)
      else if !hasDescription.value then Some(ToolKeysError)
      else
        var hasParameters := ToolFormatter.Contains(tool, "parameters");
        if hasParameters.Err? then Some(hasParameters.msg)
        else if !hasParameters.value then Some(ToolKeysError)
        else
          var name := ToolFormatter.Index(tool, "name");
          if name.Err? then Some(name.msg)
          else if !name.value.Str? then Some(ToolTypesError)
          else
            var description := ToolFormatter.Index(tool, "description");
            if description.Err? then Some(description.msg)
            else if !description.value.Str? then Some(ToolTypesError)
            else
              var parameters := ToolFormatter.Index(tool, "parameters");
              if parameters.Err? then Some(parameters.msg)
              else if !parameters.value.Obj? then Some(ToolTypesError)
              else None
  }

  /** The error of the first element that fails `check`, in order. */
  function FirstFailure(items: seq<Value>, check: Value -> Option<string>): Option<string>
  {
    if |items| == 0 then None
    else if check(items[0]).Some? then check(items[0])
    else FirstFailure(items[1..], check)
  }

  /** `_validate_args(arg, tag)`: None when it returns, else the message it raises. */
  function ArgsError(arg: Value, tag: string): Option<string>
  {
    if tag == "content_role_list" then
      if !arg.Arr? then Some(ContentListError) else FirstFailure(arg.items, TurnError)
    else if tag == "system_instructions" then
      if !arg.Str? then Some(SystemError) else None
    else if tag == "tools" then
      if !arg.Arr? then Some(ToolsListError) else FirstFailure(arg.items, ToolError)
    else Some(InvalidTag(tag))
  }

  /** `_validate_args`, checking the elements of a list one after the other. */
  method ValidateArgs(arg: Value, tag: string) returns (r: Option<string>)
    ensures r == ArgsError(arg, tag)
  {
    if tag == "system_instructions" {
      return if arg.Str? then None else Some(SystemError);
    }
    if tag != "content_role_list" && tag != "tools" {
      return Some(InvalidTag(tag));
    }
    if !arg.Arr? {
      return if tag == "tools" then Some(ToolsListError) else Some(ContentListError);
    }
    var check := if tag == "tools" then ToolError else TurnError;
    var i := 0;
    while i < |arg.items|
      invariant 0 <= i <= |arg.items|
      invariant FirstFailure(arg.items, check) == FirstFailure(arg.items[i..], check)
    {
      assert arg.items[i..][1..] == arg.items[i + 1..];
      var e := check(arg.items[i]);
      if e.Some? {
        return e;
      }
      i := i + 1;
    }
    return None;
  }

  /** A turn the checks accept: a dict with a "content" and the role "user" or "model". */
  predicate ValidTurn(item: Value)
  {
    && item.Obj?
    && Get(item.fields, "role").Some?
    && Get(item.fields, "content").Some?
    && (Get(item.fields, "role").value == Str("user") || Get(item.fields, "role").value == Str("model"))
  }

  /** A tool the checks accept: a dict with a string name, a string description and dict parameters. */
  predicate ValidTool(tool: Value)
  {
    && tool.Obj?
    && Get(tool.fields, "name").Some? && Get(tool.fields, "name").value.Str?
    && Get(tool.fields, "description").Some? && Get(tool.fields, "description").value.Str?
    && Get(tool.fields, "parameters").Some? && Get(tool.fields, "parameters").value.Obj?
  }

  lemma TurnErrorNone(item: Value)
    ensures TurnError(item).None? <==> ValidTurn(item)
  {
  }

  lemma ToolErrorNone(tool: Value)
    ensures ToolError(tool).None? <==> ValidTool(tool)
  {
  }

  /** No element fails exactly when every element passes; otherwise the first failure is reported. */
  lemma {:induction false} FirstFailureNone(items: seq<Value>, check: Value -> Option<string>)
    ensures FirstFailure(items, check).None? <==> forall i :: 0 <= i < |items| ==> check(items[i]).None?
    ensures FirstFailure(items, check).Some? ==>
              exists i :: 0 <= i < |items| && check(items[i]) == FirstFailure(items, check)
                          && forall j :: 0 <= j < i ==> check(items[j]).None?
  {
    if |items| > 0 {
      FirstFailureNone(items[1..], check);
      if check(items[0]).None? && FirstFailure(items[1..], check).Some? {
        var i :| 0 <= i < |items[1..]| && check(items[1..][i]) == FirstFailure(items[1..], check)
                 && forall j :: 0 <= j < i ==> check(items[1..][j]).None?;
        assert check(items[i + 1]) == FirstFailure(items, check);
        assert forall j :: 0 <= j < i + 1 ==> check(items[j]).None? by {
          forall j | 0 <= j < i + 1
            ensures check(items[j]).None?
          {
            if j > 0 {
              assert items[j] == items[1..][j - 1];
            }
          }
        }
      }
      if check(items[0]).None? && FirstFailure(items[1..], check).None? {
        forall i | 0 <= i < |items|
          ensures check(items[i]).None?
        {
          if i > 0 {
            assert items[i] == items[1..][i - 1];
          }
        }
      }
    }
  }

  /** A conversation is accepted exactly when it is a list of valid turns. */
  predicate ValidTurns(arg: Value)
  {
    arg.Arr? && forall i :: 0 <= i < |arg.items| ==> ValidTurn(arg.items[i])
  }

  /** The tools are accepted exactly when they form a list of valid tools. */
  predicate ValidTools(arg: Value)
  {
    arg.Arr? && forall i :: 0 <= i < |arg.items| ==> ValidTool(arg.items[i])
  }

  lemma ContentRoleListAccepted(arg: Value)
    ensures ArgsError(arg, "content_role_list").None? <==> ValidTurns(arg)
    ensures !arg.Arr? ==> ArgsError(arg, "content_role_list") == Some(ContentListError)
  {
    if arg.Arr? {
      FirstFailureNone(arg.items, TurnError);
      forall i | 0 <= i < |arg.items|
        ensures TurnError(arg.items[i]).None? <==> ValidTurn(arg.items[i])
      {
        TurnErrorNone(arg.items[i]);
      }
    }
  }

  lemma ToolsAccepted(arg: Value)
    ensures ArgsError(arg, "tools").None? <==> ValidTools(arg)
    ensures !arg.Arr? ==> ArgsError(arg, "tools") == Some(ToolsListError)
  {
    if arg.Arr? {
      FirstFailureNone(arg.items, ToolError);
      forall i | 0 <= i < |arg.items|
        ensures ToolError(arg.items[i]).None? <==> ValidTool(arg.items[i])
      {
        ToolErrorNone(arg.items[i]);
      }
    }
  }

  /** Only strings are system instructions, and a tag outside the three raises. */
  lemma OtherArgsChecked(arg: Value, tag: string)
    ensures ArgsError(arg, "system_instructions").None? <==> arg.Str?
    ensures tag != "content_role_list" && tag != "system_instructions" && tag != "tools" ==>
              ArgsError(arg, tag) == Some(InvalidTag(tag))
  {
  }

  // ---------------------------------------------------------------------------------
  // The request payloads

  /** The settings of a `GeminiModel` the payloads carry. */
  datatype ModelConfig = ModelConfig(temperature: Value, maxOutputTokens: Value)

  /** The defaults of `GeminiModel`: temperature 0.7 and 1024 output tokens. */
  const DefaultConfig := ModelConfig(Real(0.7), Int(1024))

  /** A text turn of the request: `{"role": role, "parts": [{"text": text}]}`. */
  function Turn(role: Value, text: Value): Value
  {
    Obj([("role", role), ("parts", Arr([Obj([("text", text)])]))])
  }

  /** The turn sent for a checked conversation entry. */
  function TurnOf(item: Value): Value
  {
    var fields := if item.Obj? then item.fields else [];
    Turn(GetOr(fields, "role", Null), GetOr(fields, "content", Null))
  }

  /** `[{"role": item["role"], "parts": [{"text": item["content"]}]} for item in content_role_list]`. */
  function Contents(items: seq<Value>): (r: seq<Value>)
    ensures |r| == |items|
    ensures forall i :: 0 <= i < |items| ==> r[i] == TurnOf(items[i])
  {
    if |items| == 0 then [] else [TurnOf(items[0])] + Contents(items[1..])
  }

  /** The declaration sent for a checked tool: its name, description and parameters. */
  function DeclarationOf(tool: Value): Value
  {
    var fields := if tool.Obj? then tool.fields else [];
    Obj([("name", GetOr(fields, "name", Null)), ("description", GetOr(fields, "description", Null)),
         ("parameters", GetOr(fields, "parameters", Null))])
  }

  function Declarations(tools: seq<Value>): (r: seq<Value>)
    ensures |r| == |tools|
    ensures forall i :: 0 <= i < |tools| ==> r[i] == DeclarationOf(tools[i])
  {
    if |tools| == 0 then [] else [DeclarationOf(tools[0])] + Declarations(tools[1..])
  }

  function SystemInstruction(text: Value): Value
  {
    Turn(Str("system"), text)
  }

  const PayloadError := "Error constructing payload: "
  const FuncCallPayloadError := "Error constructing function call payload: "

  /** The checks both payload builders share; the system instructions are checked only when truthy. */
  function RequestError(contentRoleList: Value, systemInstructions: Value): Option<string>
  {
    var contents := ArgsError(contentRoleList, "content_role_list");
    if contents.Some? then contents
    else if Truthy(systemInstructions) then ArgsError(systemInstructions, "system_instructions")
    else None
  }

  /** `payload["systemInstruction"] = ...` when the instructions are truthy; the key is new. */
  function WithSystem(payload: Doc, systemInstructions: Value): Doc
  {
    if Truthy(systemInstructions) then payload + [("systemInstruction", SystemInstruction(systemInstructions))] else payload
  }

  /** `_create_payload_for_generate`: every error it meets is raised again as a ValueError. */
  function GeneratePayload(cfg: ModelConfig, contentRoleList: Value, systemInstructions: Value): Result<Doc>
  {
    var e := RequestError(contentRoleList, systemInstructions);
    if e.Some? then Err(PayloadError + e.value)
    else
      Ok(WithSystem([("contents", Arr(Contents(contentRoleList.items))),
                     ("generationConfig", Obj([("temperature", cfg.temperature), ("maxOutputTokens", cfg.maxOutputTokens)]))],
                    systemInstructions))
  }

  /** `_create_payload_for_generate_funccall`: the conversation, then the tools, then the instructions are checked. */
  function FuncCallPayload(contentRoleList: Value, tools: Value, systemInstructions: Value): Result<Doc>
  {
    var contents := ArgsError(contentRoleList, "content_role_list");
    var toolsError := ArgsError(tools, "tools");
    var e := if contents.Some? then contents
             else if toolsError.Some? then toolsError
             else RequestError(contentRoleList, systemInstructions);
    if e.Some? then Err(FuncCallPayloadError + e.value)
    else
      Ok(WithSystem([("contents", Arr(Contents(contentRoleList.items))),
                     ("tools", Arr([Obj([("functionDeclarations", Arr(Declarations(tools.items)))])]))],
                    systemInstructions))
  }

  /** A checked conversation is sent turn by turn, in order, each with its role and its content as text. */
  lemma ContentsOfValidTurns(arg: Value)
    requires ValidTurns(arg)
    ensures forall i :: 0 <= i < |arg.items| ==>
              Contents(arg.items)[i] == Turn(Get(arg.items[i].fields, "role").value, Get(arg.items[i].fields, "content").value)
  {
  }

  /** Checked tools are declared one by one, in order, with their name, description and parameters. */
  lemma DeclarationsOfValidTools(arg: Value)
    requires ValidTools(arg)
    ensures forall i :: 0 <= i < |arg.items| ==>
              Declarations(arg.items)[i]
              == Obj([("name", Get(arg.items[i].fields, "name").value),
                      ("description", Get(arg.items[i].fields, "description").value),
                      ("parameters", Get(arg.items[i].fields, "parameters").value)])
  {
  }

  lemma StartsWithPrefix(p: string, s: string)
    ensures Text.StartsWith(p + s, p)
  {
    assert (p + s)[..|p|] == p;
  }

  /** What a payload with the optional system instruction reads as. */
  lemma WithSystemSpec(payload: Doc, systemInstructions: Value)
    requires !Has(payload, "systemInstruction")
    ensures var r := WithSystem(payload, systemInstructions);
            && Keys(r) == Keys(payload) + (if Truthy(systemInstructions) then ["systemInstruction"] else [])
            && (forall k :: k != "systemInstruction" ==> Get(r, k) == Get(payload, k))
            && (Truthy(systemInstructions) ==> Get(r, "systemInstruction") == Some(SystemInstruction(systemInstructions)))
  {
    if Truthy(systemInstructions) {
      var r := WithSystem(payload, systemInstructions);
      forall k | k != "systemInstruction"
        ensures Get(r, k) == Get(payload, k)
      {
        GetAppend(payload, ("systemInstruction", SystemInstruction(systemInstructions)), k);
      }
      GetHas(payload, "systemInstruction");
      GetAppend(payload, ("systemInstruction", SystemInstruction(systemInstructions)), "systemInstruction");
    }
  }

  /** Appending an entry leaves the earlier keys as they were, and adds a key that was missing. */
  lemma {:induction false} GetAppend(d: Doc, e: (string, Value), k: string)
    ensures Get(d + [e], k) == if Get(d, k).Some? then Get(d, k) else if e.0 == k then Some(e.1) else None
  {
    if |d| > 0 {
      assert (d + [e])[1..] == d[1..] + [e];
      GetAppend(d[1..], e, k);
    }
  }

  /**
   * The generate payload is built exactly when the conversation is a list of valid turns
   * and the system instructions, if truthy, are a string; otherwise a ValueError is raised.
   * It holds the contents and the generation settings and, exactly when the instructions
   * are truthy, the system instruction.
   */
  lemma GeneratePayloadSpec(cfg: ModelConfig, contentRoleList: Value, systemInstructions: Value)
    ensures var r := GeneratePayload(cfg, contentRoleList, systemInstructions);
            && (r.Ok? <==> ValidTurns(contentRoleList) && (Truthy(systemInstructions) ==> systemInstructions.Str?))
            && (r.Err? ==> Text.StartsWith(r.msg, PayloadError))
            && (r.Ok? ==>
                  && Keys(r.value) == ["contents", "generationConfig"] + (if Truthy(systemInstructions) then ["systemInstruction"] else [])
                  && Get(r.value, "contents") == Some(Arr(Contents(contentRoleList.items)))
                  && Get(r.value, "generationConfig")
                     == Some(Obj([("temperature", cfg.temperature), ("maxOutputTokens", cfg.maxOutputTokens)]))
                  && (Truthy(systemInstructions) ==> Get(r.value, "systemInstruction") == Some(SystemInstruction(systemInstructions))))
  {
    ContentRoleListAccepted(contentRoleList);
    OtherArgsChecked(systemInstructions, "system_instructions");
    var r := GeneratePayload(cfg, contentRoleList, systemInstructions);
    if r.Err? {
      StartsWithPrefix(PayloadError, RequestError(contentRoleList, systemInstructions).value);
    } else {
      GeneratePayloadShape(cfg, contentRoleList, systemInstructions);
    }
  }

  lemma GeneratePayloadShape(cfg: ModelConfig, contentRoleList: Value, systemInstructions: Value)
    requires GeneratePayload(cfg, contentRoleList, systemInstructions).Ok?
    ensures var r := GeneratePayload(cfg, contentRoleList, systemInstructions);
            && contentRoleList.Arr?
            && Keys(r.value) == ["contents", "generationConfig"] + (if Truthy(systemInstructions) then ["systemInstruction"] else [])
            && Get(r.value, "contents") == Some(Arr(Contents(contentRoleList.items)))
            && Get(r.value, "generationConfig")
               == Some(Obj([("temperature", cfg.temperature), ("maxOutputTokens", cfg.maxOutputTokens)]))
            && (Truthy(systemInstructions) ==> Get(r.value, "systemInstruction") == Some(SystemInstruction(systemInstructions)))
  {
    var config := Obj([("temperature", cfg.temperature), ("maxOutputTokens", cfg.maxOutputTokens)]);
    assert GeneratePayload(cfg, contentRoleList, systemInstructions).value
        == WithSystem([("contents", Arr(Contents(contentRoleList.items))), ("generationConfig", config)], systemInstructions);
    assert "contents"[0] != "generationConfig"[0] && "generationConfig"[0] != "systemInstruction"[0];
    TwoKeyPayload("contents", Arr(Contents(contentRoleList.items)), "generationConfig", config, systemInstructions);
  }

  /** A payload of two entries, with the system instruction appended when the instructions are truthy. */
  lemma TwoKeyPayload(k1: string, v1: Value, k2: string, v2: Value, systemInstructions: Value)
    requires k1 != k2 && k1 != "systemInstruction" && k2 != "systemInstruction"
    ensures var r := WithSystem([(k1, v1), (k2, v2)], systemInstructions);
            && Keys(r) == [k1, k2] + (if Truthy(systemInstructions) then ["systemInstruction"] else [])
            && Get(r, k1) == Some(v1) && Get(r, k2) == Some(v2)
            && (Truthy(systemInstructions) ==> Get(r, "systemInstruction") == Some(SystemInstruction(systemInstructions)))
  {
    var base := [(k1, v1), (k2, v2)];
    GetAt(base, 0, k1);
    GetAt(base, 1, k2);
    GetHas(base, "systemInstruction");
    assert Keys(base) == [k1, k2];
    WithSystemSpec(base, systemInstructions);
  }

  /**
   * The function-calling payload is built exactly when the conversation and the tools pass
   * their checks and the system instructions, if truthy, are a string. It holds the
   * contents and a single tools entry declaring every tool in order, and no generation
   * settings.
   */
  lemma FuncCallPayloadSpec(contentRoleList: Value, tools: Value, systemInstructions: Value)
    ensures var r := FuncCallPayload(contentRoleList, tools, systemInstructions);
            && (r.Ok? <==> ValidTurns(contentRoleList) && ValidTools(tools) && (Truthy(systemInstructions) ==> systemInstructions.Str?))
            && (r.Err? ==> Text.StartsWith(r.msg, FuncCallPayloadError))
            && (r.Ok? ==>
                  && Keys(r.value) == ["contents", "tools"] + (if Truthy(systemInstructions) then ["systemInstruction"] else [])
                  && Get(r.value, "contents") == Some(Arr(Contents(contentRoleList.items)))
                  && Get(r.value, "tools") == Some(Arr([Obj([("functionDeclarations", Arr(Declarations(tools.items)))])]))
                  && !Has(r.value, "generationConfig")
                  && (Truthy(systemInstructions) ==> Get(r.value, "systemInstruction") == Some(SystemInstruction(systemInstructions))))
  {
    ContentRoleListAccepted(contentRoleList);
    ToolsAccepted(tools);
    OtherArgsChecked(systemInstructions, "system_instructions");
    var r := FuncCallPayload(contentRoleList, tools, systemInstructions);
    if r.Err? {
      var contents := ArgsError(contentRoleList, "content_role_list");
      var toolsError := ArgsError(tools, "tools");
      var e := if contents.Some? then contents
               else if toolsError.Some? then toolsError
               else RequestError(contentRoleList, systemInstructions);
      StartsWithPrefix(FuncCallPayloadError, e.value);
    } else {
      FuncCallPayloadShape(contentRoleList, tools, systemInstructions);
    }
  }

  lemma FuncCallPayloadShape(contentRoleList: Value, tools: Value, systemInstructions: Value)
    requires FuncCallPayload(contentRoleList, tools, systemInstructions).Ok?
    ensures var r := FuncCallPayload(contentRoleList, tools, systemInstructions);
            && contentRoleList.Arr? && tools.Arr?
            && Keys(r.value) == ["contents", "tools"] + (if Truthy(systemInstructions) then ["systemInstruction"] else [])
            && Get(r.value, "contents") == Some(Arr(Contents(contentRoleList.items)))
            && Get(r.value, "tools") == Some(Arr([Obj([("functionDeclarations", Arr(Declarations(tools.items)))])]))
            && !Has(r.value, "generationConfig")
            && (Truthy(systemInstructions) ==> Get(r.value, "systemInstruction") == Some(SystemInstruction(systemInstructions)))
  {
    var declared := Arr([Obj([("functionDeclarations", Arr(Declarations(tools.items)))])]);
    var contents := Arr(Contents(contentRoleList.items));
    assert FuncCallPayload(contentRoleList, tools, systemInstructions).value
        == WithSystem([("contents", contents), ("tools", declared)], systemInstructions);
    ContentsToolsPayload(contents, declared, systemInstructions);
  }

  /** The payload of contents and tools, with the system instruction when truthy, and no generation settings. */
  lemma ContentsToolsPayload(contents: Value, declared: Value, systemInstructions: Value)
    ensures var r := WithSystem([("contents", contents), ("tools", declared)], systemInstructions);
            && Keys(r) == ["contents", "tools"] + (if Truthy(systemInstructions) then ["systemInstruction"] else [])
            && Get(r, "contents") == Some(contents) && Get(r, "tools") == Some(declared)
            && !Has(r, "generationConfig")
            && (Truthy(systemInstructions) ==> Get(r, "systemInstruction") == Some(SystemInstruction(systemInstructions)))
  {
    assert "contents"[0] != "tools"[0] && "tools"[0] != "systemInstruction"[0];
    TwoKeyPayload("contents", contents, "tools", declared, systemInstructions);
    assert "generationConfig"[0] != "contents"[0] && "generationConfig"[0] != "tools"[0];
    assert "generationConfig"[0] != "systemInstruction"[0];
  }

  // ---------------------------------------------------------------------------------
  // The region of a deployed instance

  /** `full_zone.split("/")[-1].rsplit("-", 1)[0]`: the zone's last segment without its final "-suffix". */
  function ProjectLocation(fullZone: string): string
  {
    Text.BeforeLast(Text.AfterLast(fullZone, '/'), '-')
  }

  /**
   * The region holds no "/". It is the zone's last segment with its final "-suffix"
   * dropped, or the whole segment when it has no "-".
   */
  lemma ProjectLocationSpec(fullZone: string)
    ensures '/' !in ProjectLocation(fullZone)
    ensures var zone := Text.AfterLast(fullZone, '/');
            && '/' !in zone
            && (fullZone == Text.BeforeLast(fullZone, '/') + "/" + zone || zone == fullZone)
            && ('-' in zone ==> ProjectLocation(fullZone) + "-" + Text.AfterLast(zone, '-') == zone
                                && '-' !in Text.AfterLast(zone, '-'))
            && ('-' !in zone ==> ProjectLocation(fullZone) == zone)
  {
    var zone := Text.AfterLast(fullZone, '/');
    assert "/" == ['/'] && "-" == ['-'];
    Text.SplitLastRoundTrip(fullZone, '/');
    Text.SplitLastRoundTrip(zone, '-');
    Text.BeforeLastWithout(zone, '-', '/');
  }

  /** The zone of a GKE or Compute Engine instance gives its region. */
  lemma ProjectLocationExample()
    ensures ProjectLocation("projects/12345/zones/us-central1-a") == "us-central1"
  {
    var z := "projects/12345/zones/us-central1-a";
    Text.LastIndexOfAt(z, '/', 20);
    var zone := z[21..];
    assert zone == "us-central1-a";
    Text.LastIndexOfAt(zone, '-', 11);
    assert zone[..11] == "us-central1";
  }

  /** The methods a `GeminiModel` has. */
  const ModelMethods: set<string> :=
    {"_get_access_token", "_get_project_id", "_get_project_location", "_get_access_token_gcp",
     "_get_metadata_gcp", "_get_project_id_gcp", "_get_project_location_gcp", "_validate_args",
     "_create_payload_for_generate", "_create_payload_for_generate_funccall", "generate_content",
     "generate_funccall_content"}

  function NoAttribute(name: string): string
  {
    "AttributeError: 'GeminiModel' object has no attribute '" + name + "'"
  }

  /** `self.<method>(path)` for a metadata lookup; `metadata` is what the metadata server answers. */
  function CallMetadata(name: string, path: string, metadata: string -> string): Result<string>
  {
    if name in ModelMethods then Ok(metadata(path)) else Err(NoAttribute(name))
  }

  /** `_get_project_location_gcp` as written: it calls `self.get_metadata`. */
  function ProjectLocationGcpAsWritten(metadata: string -> string): Result<string>
  {
    var zone := CallMetadata("get_metadata", "instance/zone", metadata);
    if zone.Err? then Err(zone.msg) else Ok(ProjectLocation(zone.value))
  }

  /** `_get_project_location_gcp` calling the metadata helper the class defines. */
  function ProjectLocationGcp(metadata: string -> string): Result<string>
  {
    var zone := CallMetadata("_get_metadata_gcp", "instance/zone", metadata);
    if zone.Err? then Err(zone.msg) else Ok(ProjectLocation(zone.value))
  }

  /** As written, the lookup always raises, whatever the metadata server would answer. */
  lemma ProjectLocationGcpAlwaysFails(metadata: string -> string)
    ensures ProjectLocationGcpAsWritten(metadata) == Err(NoAttribute("get_metadata"))
  {
    assert "get_metadata" !in ModelMethods by {
      assert "get_metadata"[0] != '_';
      assert "get_metadata" != "generate_content" && "get_metadata" != "generate_funccall_content" by {
        assert "get_metadata"[2] != "generate_content"[2];
        assert "get_metadata"[2] != "generate_funccall_content"[2];
      }
    }
  }

  /** Calling the defined helper, the region is the one parsed off the instance zone. */
  lemma ProjectLocationGcpSpec(metadata: string -> string)
    ensures ProjectLocationGcp(metadata) == Ok(ProjectLocation(metadata("instance/zone")))
    ensures '/' !in ProjectLocationGcp(metadata).value
  {
    ProjectLocationSpec(metadata("instance/zone"));
  }

  // ---------------------------------------------------------------------------------
  // The chat engines

  const InputError := "Input must be a string or list"

  function UserMessage(content: Value): Value
  {
    Obj([("role", Str("user")), ("content", content)])
  }

  /** The conversation an engine keeps from its construction: the system text as a user turn, when given. */
  function StoredRoles(systemInstructions: Value): seq<Value>
  {
    if Truthy(systemInstructions) then [UserMessage(systemInstructions)] else []
  }

  function UserMessages(items: seq<Value>): (r: seq<Value>)
    ensures |r| == |items|
    ensures forall i :: 0 <= i < |items| ==> r[i] == UserMessage(items[i])
  {
    if |items| == 0 then [] else [UserMessage(items[0])] + UserMessages(items[1..])
  }

  /** The user turns of a query: the string itself, or every item of the list. */
  function QueryTurns(query: Value): seq<Value>
  {
    match query
    case Str(_) => [UserMessage(query)]
    case Arr(items) => UserMessages(items)
    case _ => []
  }

  /** The conversation `run` sends: the stored turns, then the query's user turns. */
  function RunMessages(stored: seq<Value>, query: Value): Result<seq<Value>>
  {
    if query.Str? || query.Arr? then Ok(stored + QueryTurns(query)) else Err(InputError)
  }

  lemma SplitAppend(a: seq<Value>, b: seq<Value>)
    ensures (a + b)[..|a|] == a && (a + b)[|a|..] == b
    ensures forall i :: 0 <= i < |b| ==> (a + b)[|a| + i] == b[i]
  {
  }

  /** Every user turn of a query passes the conversation check. */
  lemma QueryTurnsValid(query: Value)
    ensures forall i :: 0 <= i < |QueryTurns(query)| ==> ValidTurn(QueryTurns(query)[i])
  {
    forall i | 0 <= i < |QueryTurns(query)|
      ensures ValidTurn(QueryTurns(query)[i])
    {
      if query.Str? {
        UserMessageValid(query);
      } else {
        UserMessageValid(query.items[i]);
      }
    }
  }

  lemma AppendValidTurns(a: seq<Value>, b: seq<Value>)
    requires forall i :: 0 <= i < |a| ==> ValidTurn(a[i])
    requires forall i :: 0 <= i < |b| ==> ValidTurn(b[i])
    ensures ValidTurns(Arr(a + b))
  {
    forall i | 0 <= i < |a + b|
      ensures ValidTurn((a + b)[i])
    {
      if i >= |a| {
        assert (a + b)[i] == b[i - |a|];
      }
    }
  }

  lemma UserMessageValid(content: Value)
    ensures ValidTurn(UserMessage(content))
    ensures Get(UserMessage(content).fields, "role") == Some(Str("user"))
    ensures Get(UserMessage(content).fields, "content") == Some(content)
  {
    GetAt(UserMessage(content).fields, 1, "content");
  }

  /**
   * `run` accepts a string or a list and nothing else. The conversation starts with the
   * stored system turn (only when the instructions are truthy), then holds the query, or
   * every item of the list in order, as user turns; it always passes the conversation check.
   */
  lemma RunMessagesSpec(systemInstructions: Value, query: Value)
    ensures var stored := StoredRoles(systemInstructions);
            var r := RunMessages(stored, query);
            && (r.Ok? <==> query.Str? || query.Arr?)
            && (r.Err? ==> r.msg == InputError)
            && (r.Ok? ==>
                  && |stored| == (if Truthy(systemInstructions) then 1 else 0)
                  && r.value[..|stored|] == stored
                  && (query.Str? ==> r.value[|stored|..] == [UserMessage(query)])
                  && (query.Arr? ==> |r.value| == |stored| + |query.items|
                                     && forall i :: 0 <= i < |query.items| ==> r.value[|stored| + i] == UserMessage(query.items[i]))
                  && ValidTurns(Arr(r.value)))
  {
    var stored := StoredRoles(systemInstructions);
    var r := RunMessages(stored, query);
    if r.Ok? {
      var tail := QueryTurns(query);
      SplitAppend(stored, tail);
      QueryTurnsValid(query);
      if Truthy(systemInstructions) {
        UserMessageValid(systemInstructions);
      }
      AppendValidTurns(stored, tail);
    }
  }

  /** `GeminiSimpleChatEngine` with its configuration and the turns stored by its constructor. */
  datatype SimpleChatEngine = SimpleChatEngine(cfg: ModelConfig, contentRoles: seq<Value>)

  function NewSimpleChatEngine(cfg: ModelConfig, systemInstructions: Value): SimpleChatEngine
  {
    SimpleChatEngine(cfg, StoredRoles(systemInstructions))
  }

  /** The payload the simple engine's `run` posts, without system instructions. */
  function SimpleChatPayload(engine: SimpleChatEngine, query: Value): Result<Doc>
  {
    var messages := RunMessages(engine.contentRoles, query);
    if messages.Err? then Err(messages.msg) else GeneratePayload(engine.cfg, Arr(messages.value), Null)
  }

  /** For a string or a list the simple engine always builds its payload: its own turns pass the checks. */
  lemma SimpleChatPayloadBuilt(cfg: ModelConfig, systemInstructions: Value, query: Value)
    ensures var r := SimpleChatPayload(NewSimpleChatEngine(cfg, systemInstructions), query);
            && (r.Ok? <==> query.Str? || query.Arr?)
            && (r.Ok? ==>
                  r.value == [("contents", Arr(Contents(StoredRoles(systemInstructions) + QueryTurns(query)))),
                              ("generationConfig", Obj([("temperature", cfg.temperature), ("maxOutputTokens", cfg.maxOutputTokens)]))])
  {
    RunMessagesSpec(systemInstructions, query);
    var messages := RunMessages(StoredRoles(systemInstructions), query);
    if messages.Ok? {
      GenerateWithoutSystem(cfg, Arr(messages.value));
    }
  }

  /** Without system instructions, a valid conversation is sent as its turns and the settings. */
  lemma GenerateWithoutSystem(cfg: ModelConfig, contentRoleList: Value)
    requires ValidTurns(contentRoleList)
    ensures GeneratePayload(cfg, contentRoleList, Null)
         == Ok([("contents", Arr(Contents(contentRoleList.items))),
                ("generationConfig", Obj([("temperature", cfg.temperature), ("maxOutputTokens", cfg.maxOutputTokens)]))])
  {
    ContentRoleListAccepted(contentRoleList);
    assert RequestError(contentRoleList, Null).None?;
  }

  /** What a `GeminiJsonEngine` is built from: a flat dict, or the JSON Schema of a pydantic model. */
  datatype BaseModel = DictModel(tool: Doc) | PydanticModel(schema: Doc)

  /** The tool the JSON engine declares. */
  function EngineSchema(basemodel: BaseModel, fuel: nat): Result<Doc>
  {
    match basemodel
    case DictModel(tool) => ToolFormatter.DictToToolFormat(tool)
    case PydanticModel(schema) => ToolFormatter.PydanticSchemaToToolFormat(schema, fuel)
  }

  /** The description the declaration carries: the given one, or "". */
  function EngineDescription(basemodel: BaseModel): Value
  {
    match basemodel
    case DictModel(tool) => GetOr(tool, "description", Str(""))
    case PydanticModel(schema) => GetOr(schema, "description", Str(""))
  }

  /** The JSON engine's own tool passes the tool check exactly when its description is a string. */
  lemma EngineSchemaChecked(basemodel: BaseModel, fuel: nat)
    requires EngineSchema(basemodel, fuel).Ok?
    ensures ValidTool(Obj(EngineSchema(basemodel, fuel).value)) <==> EngineDescription(basemodel).Str?
    ensures ValidTools(Arr([Obj(EngineSchema(basemodel, fuel).value)])) <==> EngineDescription(basemodel).Str?
  {
    var decl := EngineSchema(basemodel, fuel).value;
    match basemodel {
      case DictModel(tool) =>
        ToolFormatter.DictToToolFormatSpec(tool);
        var tn := Get(tool, "tool_name");
        var schema := GetOr(tool, "output_schema", Obj([]));
        DeclaredToolValid(decl, if tn.None? then "" else Text.Lower(tn.value.s), EngineDescription(basemodel),
                          ToolFormatter.StringProperties(schema.fields), Arr(ToolFormatter.KeyList(schema.fields)));
      case PydanticModel(schema) =>
        ToolFormatter.PydanticSchemaSpec(schema, fuel);
        var p := ToolFormatter.ProcessProperties(GetOr(schema, "$defs", Obj([])), Get(schema, "properties").value, fuel);
        DeclaredToolValid(decl, ToolFormatter.ToolNameOf(Get(schema, "title").value.s), EngineDescription(basemodel),
                          p.value, GetOr(schema, "required", Arr([])));
    }
    SingleTool(Obj(decl));
  }

  lemma DeclaredToolValid(decl: Doc, name: string, description: Value, properties: Doc, required: Value)
    requires ToolFormatter.Declares(decl, name, description, properties, required)
    ensures ValidTool(Obj(decl)) <==> description.Str?
  {
  }

  lemma SingleTool(tool: Value)
    ensures ValidTools(Arr([tool])) <==> ValidTool(tool)
  {
    assert [tool][0] == tool;
  }

  /** The payload the JSON engine's `run` posts: the conversation and its one tool. */
  function JsonEnginePayload(stored: seq<Value>, schema: Doc, query: Value): Result<Doc>
  {
    var messages := RunMessages(stored, query);
    if messages.Err? then Err(messages.msg) else FuncCallPayload(Arr(messages.value), Arr([Obj(schema)]), Null)
  }

  /**
   * For a string or a list the JSON engine builds its payload exactly when its tool's
   * description is a string, declaring that one tool.
   */
  lemma JsonEnginePayloadBuilt(basemodel: BaseModel, fuel: nat, systemInstructions: Value, query: Value)
    requires EngineSchema(basemodel, fuel).Ok? && (query.Str? || query.Arr?)
    ensures var schema := EngineSchema(basemodel, fuel).value;
            var r := JsonEnginePayload(StoredRoles(systemInstructions), schema, query);
            && (r.Ok? <==> EngineDescription(basemodel).Str?)
            && (r.Ok? ==> Get(r.value, "tools") == Some(Arr([Obj([("functionDeclarations", Arr([DeclarationOf(Obj(schema))]))])])))
  {
    var schema := EngineSchema(basemodel, fuel).value;
    RunMessagesSpec(systemInstructions, query);
    EngineSchemaChecked(basemodel, fuel);
    var messages := RunMessages(StoredRoles(systemInstructions), query);
    FuncCallPayloadSpec(Arr(messages.value), Arr([Obj(schema)]), Null);
    assert Declarations([Obj(schema)]) == [DeclarationOf(Obj(schema))];
  }
}
