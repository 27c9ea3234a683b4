// The agent task executor of app/agent/executor.py: the tool-use loop of
// `execute_task`, the conversation and tool-call parsing of
// `_generate_response`, and `_execute_tool` with the built-in mock tools.
// The language model, `json.loads`, `uuid4` and the clock are parameters.

module Executor {
  import opened Wrappers
  import opened Json
  import opened Text
  import opened AgentModels
  import Clock

  // ---------------------------------------------------------------------
  // AGENT_TOOLS and the tools prompt

  /** A tool as advertised to the model (the parameter descriptions are never read). */
  datatype ToolSpec = ToolSpec(name: string, description: string)

  const AgentTools: seq<ToolSpec> := [
    ToolSpec("search_products", "Поиск товаров в каталоге по описанию"),
    ToolSpec("get_product_details", "Получить детальную информацию о товаре"),
    ToolSpec("compare_products", "Сравнить несколько товаров"),
    ToolSpec("analyze_image", "Проанализировать изображение (стиль, бренды)"),
    ToolSpec("send_agent_message", "Отправить сообщение агенту продавца"),
    ToolSpec("make_purchase_offer", "Сделать предложение о покупке"),
    ToolSpec("request_delivery", "Запросить доставку"),
    ToolSpec("get_user_preferences", "Получить предпочтения пользователя")
  ]

  const ToolsHeader := "\n\nДоступные инструменты:\n"

  const ToolsFooter := "\nЕсли нужно использовать инструмент, ответь в формате:\nTOOL: <имя_инструмента>\nARGS: <json с аргументами>\n\nЕсли задача выполнена, просто дай финальный ответ пользователю.\n"

  function ToolLine(t: ToolSpec): string
  {
    "- " + t.name + ": " + t.description + "\n"
  }

  /** One "- name: description" line per tool, in order. */
  function ToolLines(tools: seq<ToolSpec>): string
  {
    if tools == [] then "" else ToolLines(tools[..|tools| - 1]) + ToolLine(tools[|tools| - 1])
  }

  /** The tools prompt for the advertised `tools` (`AgentTools` in the executor). */
  function ToolsPrompt(tools: seq<ToolSpec>): string
  {
    ToolsHeader + ToolLines(tools) + ToolsFooter
  }

  /** The prompt lists every tool: each tool's line is a piece of it. */
  lemma {:induction false} ToolLinesList(tools: seq<ToolSpec>, i: nat)
    requires i < |tools|
    ensures exists a, b :: ToolLines(tools) == a + ToolLine(tools[i]) + b
  {
    var init := tools[..|tools| - 1];
    if i == |tools| - 1 {
      assert ToolLines(tools) == ToolLines(init) + ToolLine(tools[i]) + "";
    } else {
      assert init[i] == tools[i];
      ToolLinesList(init, i);
      var a, b :| ToolLines(init) == a + ToolLine(tools[i]) + b;
      assert ToolLines(tools) == a + ToolLine(tools[i]) + (b + ToolLine(tools[|tools| - 1]));
    }
  }

  /** The tools-prompt loop of `_generate_response`. */
  method BuildToolsPrompt(tools: seq<ToolSpec>) returns (prompt: string)
    ensures prompt == ToolsPrompt(tools)
  {
    prompt := ToolsHeader;
    for i := 0 to |tools|
      invariant prompt == ToolsHeader + ToolLines(tools[..i])
    {
      assert tools[..i + 1][..i] == tools[..i];
      prompt := prompt + ToolLine(tools[i]);
    }
    assert tools[..|tools|] == tools;
    prompt := prompt + ToolsFooter;
  }

  // ---------------------------------------------------------------------
  // The conversation sent to the model

  /** `f"{msg.tool_name}"`: the name, or "None" when there is none. */
  function NameText(name: Option<string>): string
  {
    if name.Some? then name.value else "None"
  }

  /** The (role, content) pair a message becomes; tool results speak as the user. */
  function Turn(m: AgentMessage, toolsPrompt: string): (string, string)
  {
    match m.role
    case System => ("system", m.content + toolsPrompt)
    case User => ("user", m.content)
    case AssistantRole => ("assistant", m.content)
    case Tool => ("user", "Результат инструмента " + NameText(m.toolName) + ":\n" + m.content)
  }

  function Conversation(msgs: seq<AgentMessage>, toolsPrompt: string): seq<(string, string)>
  {
    if msgs == [] then [] else Conversation(msgs[..|msgs| - 1], toolsPrompt) + [Turn(msgs[|msgs| - 1], toolsPrompt)]
  }

  /**
   * Every message becomes exactly one turn, in order; only the system prompt
   * carries the tools prompt, only the model's own messages speak as
   * "assistant", and a tool result is quoted with its tool's name.
   */
  lemma {:induction false} ConversationTurns(msgs: seq<AgentMessage>, toolsPrompt: string)
    ensures |Conversation(msgs, toolsPrompt)| == |msgs|
    ensures forall i :: 0 <= i < |msgs| ==> Conversation(msgs, toolsPrompt)[i] == Turn(msgs[i], toolsPrompt)
  {
    if msgs != [] {
      var init := msgs[..|msgs| - 1];
      ConversationTurns(init, toolsPrompt);
      forall i | 0 <= i < |msgs| - 1
        ensures Conversation(msgs, toolsPrompt)[i] == Turn(msgs[i], toolsPrompt)
      {
        assert msgs[i] == init[i];
      }
    }
  }

  lemma TurnRoles(m: AgentMessage, toolsPrompt: string)
    ensures Turn(m, toolsPrompt).0 in {"system", "user", "assistant"}
    ensures Turn(m, toolsPrompt).0 == "assistant" <==> m.role == AssistantRole
    ensures Turn(m, toolsPrompt).0 == "system" <==> m.role == System
    ensures m.role == System ==> Turn(m, toolsPrompt).1 == m.content + toolsPrompt
    ensures m.role == Tool ==> Turn(m, toolsPrompt).1 == "Результат инструмента " + NameText(m.toolName) + ":\n" + m.content
  {
  }

  /** The conversation loop of `_generate_response`. */
  method BuildConversation(msgs: seq<AgentMessage>, toolsPrompt: string) returns (conversation: seq<(string, string)>)
    ensures conversation == Conversation(msgs, toolsPrompt)
  {
    conversation := [];
    for i := 0 to |msgs|
      invariant conversation == Conversation(msgs[..i], toolsPrompt)
    {
      assert msgs[..i + 1][..i] == msgs[..i];
      conversation := conversation + [Turn(msgs[i], toolsPrompt)];
    }
    assert msgs[..|msgs|] == msgs;
  }

  // ---------------------------------------------------------------------
  // Tool-call parsing

  predicate IsToolLine(line: string)
  {
    StartsWith(line, "TOOL:")
  }

  predicate IsArgsLine(line: string)
  {
    StartsWith(line, "ARGS:")
  }

  /** `line.replace("TOOL:", "").strip()`. */
  function ToolNameOf(line: string): string
  {
    Strip(ReplaceAll(line, "TOOL:", ""))
  }

  /** `line.replace("ARGS:", "").strip()`. */
  function ArgsTextOf(line: string): string
  {
    Strip(ReplaceAll(line, "ARGS:", ""))
  }

  /** The last line that starts with "TOOL:". */
  function LastToolLine(lines: seq<string>): Option<string>
  {
    if lines == [] then None
    else if IsToolLine(lines[|lines| - 1]) then Some(lines[|lines| - 1])
    else LastToolLine(lines[..|lines| - 1])
  }

  /** The name on the last "TOOL:" line. */
  function LastToolName(lines: seq<string>): Option<string>
  {
    match LastToolLine(lines)
    case None => None
    case Some(line) => Some(ToolNameOf(line))
  }

  /** What the last "ARGS:" line that `loads` accepts parses to, or {} when none does. */
  function LastArgs(lines: seq<string>, loads: string -> Option<Json>): Json
  {
    if lines == [] then JObj([])
    else
      var line := lines[|lines| - 1];
      if Accepted(line, loads) then loads(ArgsTextOf(line)).value
      else LastArgs(lines[..|lines| - 1], loads)
  }

  /** There is no "TOOL:" line exactly when no line starts with "TOOL:". */
  lemma {:induction false} LastToolLineNone(lines: seq<string>)
    ensures LastToolLine(lines).None? <==> forall i :: 0 <= i < |lines| ==> !IsToolLine(lines[i])
  {
    if lines != [] {
      var init := lines[..|lines| - 1];
      LastToolLineNone(init);
      assert forall i :: 0 <= i < |init| ==> init[i] == lines[i];
    }
  }

  /** The "TOOL:" line found is the last line that starts with "TOOL:". */
  lemma {:induction false} LastToolLineAt(lines: seq<string>, i: int)
    requires 0 <= i < |lines| && IsToolLine(lines[i])
    requires forall j :: i < j < |lines| ==> !IsToolLine(lines[j])
    ensures LastToolLine(lines) == Some(lines[i])
  {
    var n := |lines| - 1;
    if i < n {
      var init := lines[..n];
      assert !IsToolLine(lines[n]);
      assert init[i] == lines[i];
      assert forall j :: i < j < n ==> init[j] == lines[j];
      LastToolLineAt(init, i);
    }
  }

  /** An "ARGS:" line whose text `loads` parses. */
  predicate Accepted(line: string, loads: string -> Option<Json>)
  {
    IsArgsLine(line) && loads(ArgsTextOf(line)).Some?
  }

  /** When no "ARGS:" line parses, the arguments are {}. */
  lemma {:induction false} LastArgsNone(lines: seq<string>, loads: string -> Option<Json>)
    requires forall i :: 0 <= i < |lines| ==> !Accepted(lines[i], loads)
    ensures LastArgs(lines, loads) == JObj([])
  {
    if lines != [] {
      var init := lines[..|lines| - 1];
      assert !Accepted(lines[|lines| - 1], loads);
      assert forall i :: 0 <= i < |init| ==> init[i] == lines[i];
      LastArgsNone(init, loads);
    }
  }

  /** Otherwise they are what the last "ARGS:" line that parses parses to. */
  lemma {:induction false} LastArgsAt(lines: seq<string>, loads: string -> Option<Json>, i: int)
    requires 0 <= i < |lines| && Accepted(lines[i], loads)
    requires forall j :: i < j < |lines| ==> !Accepted(lines[j], loads)
    ensures LastArgs(lines, loads) == loads(ArgsTextOf(lines[i])).value
  {
    var n := |lines| - 1;
    if i < n {
      var init := lines[..n];
      assert !Accepted(lines[n], loads);
      assert init[i] == lines[i];
      assert forall j :: i < j < n ==> init[j] == lines[j];
      LastArgsAt(init, loads, i);
    }
  }

  /** A line cannot start with both "TOOL:" and "ARGS:". */
  lemma ToolOrArgs(line: string)
    ensures IsToolLine(line) ==> !IsArgsLine(line)
  {
    if IsToolLine(line) {
      assert line[..5] == "TOOL:" && line[0] == 'T';
    }
  }

  /** The line loop of `_generate_response`. */
  method ScanLines(lines: seq<string>, loads: string -> Option<Json>) returns (toolName: Option<string>, toolArgs: Json)
    ensures toolName == LastToolName(lines) && toolArgs == LastArgs(lines, loads)
  {
    toolName := None;
    toolArgs := JObj([]);
    for i := 0 to |lines|
      invariant toolName == LastToolName(lines[..i]) && toolArgs == LastArgs(lines[..i], loads)
    {
      var line := lines[i];
      assert lines[..i + 1][..i] == lines[..i];
      ToolOrArgs(line);
      if StartsWith(line, "TOOL:") {
        toolName := Some(Strip(ReplaceAll(line, "TOOL:", "")));
      } else if StartsWith(line, "ARGS:") {
        var parsed := loads(Strip(ReplaceAll(line, "ARGS:", "")));
        if parsed.Some? {
          toolArgs := parsed.value;
        }
      }
    }
    assert lines[..|lines|] == lines;
  }

  /** `tool_args` must be a dict or None for the pydantic message; anything else raises ValidationError. */
  function ArgsField(j: Json): (r: Result<Option<Dict>>)
    ensures r.Ok? <==> j.JObj? || j.JNull?
    ensures j.JObj? ==> r == Ok(Some(j.fields))
    ensures j.JNull? ==> r == Ok(None)
  {
    match j
    case JObj(fs) => Ok(Some(fs))
    case JNull => Ok(None)
    case _ => Err(ValidationError)
  }

  /** The message `_generate_response` returns for a model reply `text`. */
  function Parsed(text: string, tokens: nat, loads: string -> Option<Json>): Result<AgentMessage>
  {
    if Contains(text, "TOOL:") then
      var lines := Split(text, '\n');
      match ArgsField(LastArgs(lines, loads))
      case Ok(args) => Ok(AgentMessage(AssistantRole, text, LastToolName(lines), args, None, tokens))
      case Err(e) => Err(e)
    else Ok(AgentMessage(AssistantRole, text, None, None, None, tokens))
  }

  /** `if response.tool_name:` — a name that strips to nothing is no tool call. */
  predicate IsToolCall(m: AgentMessage)
  {
    m.toolName.Some? && m.toolName.value != []
  }

  /**
   * A reply is always the model's own message with its text and tokens; it
   * calls a tool exactly when it mentions "TOOL:", some line starts with
   * "TOOL:" and the last such line names something; it fails only when the
   * arguments parse to something other than a dict or null.
   */
  lemma ParsedSpec(text: string, tokens: nat, loads: string -> Option<Json>)
    ensures var r := Parsed(text, tokens, loads);
      (r.Ok? ==> r.value.role == AssistantRole && r.value.content == text && r.value.tokens == tokens
                 && r.value.toolResult.None?)
      && (r.Err? <==> Contains(text, "TOOL:") && !(LastArgs(Split(text, '\n'), loads).JObj? || LastArgs(Split(text, '\n'), loads).JNull?))
      && (r.Err? ==> r.error == ValidationError)
      && (r.Ok? ==> (IsToolCall(r.value) <==> Contains(text, "TOOL:") && LastToolName(Split(text, '\n')).Some?
                                              && LastToolName(Split(text, '\n')).value != []))
      && (!Contains(text, "TOOL:") ==> r == Ok(PlainMessage(AssistantRole, text).(tokens := tokens)))
  {
  }

  // ---------------------------------------------------------------------
  // Tools

  /** What calling a tool did: returned a value or raised an exception with this text. */
  datatype ToolOutcome = Returned(value: Json) | Raised(message: string)

  /**
   * A registered tool, called with the arguments, the agent and the
   * `uuid4()` it may draw (the built-in mocks and `register_tool`'s functions).
   */
  type ToolFn = (Dict, UserAgent, Uuid) -> ToolOutcome

  /** `_register_default_tools`. */
  function DefaultTools(): map<string, ToolFn>
  {
    var search: ToolFn := SearchProducts;
    var details: ToolFn := GetProductDetails;
    var compare: ToolFn := CompareProducts;
    var image: ToolFn := AnalyzeImage;
    var preferences: ToolFn := GetPreferences;
    var message: ToolFn := SendMessage;
    var offer: ToolFn := MakeOffer;
    var delivery: ToolFn := RequestDelivery;
    map["search_products" := search, "get_product_details" := details,
        "compare_products" := compare, "analyze_image" := image,
        "get_user_preferences" := preferences, "send_agent_message" := message,
        "make_purchase_offer" := offer, "request_delivery" := delivery]
  }

  /** The tools advertised to the model are exactly the default tools. */
  lemma AdvertisedToolsRegistered()
    ensures forall i :: 0 <= i < |AgentTools| ==> AgentTools[i].name in DefaultTools()
    ensures forall name :: name in DefaultTools() ==> exists i :: 0 <= i < |AgentTools| && AgentTools[i].name == name
  {
    forall name | name in DefaultTools()
      ensures exists i :: 0 <= i < |AgentTools| && AgentTools[i].name == name
    {
      if name == "search_products" { assert AgentTools[0].name == name; }
      else if name == "get_product_details" { assert AgentTools[1].name == name; }
      else if name == "compare_products" { assert AgentTools[2].name == name; }
      else if name == "analyze_image" { assert AgentTools[3].name == name; }
      else if name == "send_agent_message" { assert AgentTools[4].name == name; }
      else if name == "make_purchase_offer" { assert AgentTools[5].name == name; }
      else if name == "request_delivery" { assert AgentTools[6].name == name; }
      else { assert AgentTools[7].name == name; }
    }
  }

  function Strs(xs: seq<string>): (r: seq<Json>)
    ensures |r| == |xs| && forall i :: 0 <= i < |xs| ==> r[i] == JStr(xs[i])
  {
    seq(|xs|, i requires 0 <= i < |xs| => JStr(xs[i]))
  }

  /** `_tool_search_products`: three mock results named after the query. */
  function SearchProducts(args: Dict, agent: UserAgent, freshId: Uuid): ToolOutcome
  {
    var query := Get(args, "query", JStr(""));
    var q := PyStr(query);
    Returned(JObj([("results", JArr([
                     JObj([("id", JStr("prod-1")), ("name", JStr(q + " вариант 1")), ("price", JInt(1500))]),
                     JObj([("id", JStr("prod-2")), ("name", JStr(q + " вариант 2")), ("price", JInt(2000))]),
                     JObj([("id", JStr("prod-3")), ("name", JStr(q + " премиум")), ("price", JInt(3500))])])),
                   ("total", JInt(3)), ("query", query)]))
  }

  /** `_tool_get_product_details`. */
  function GetProductDetails(args: Dict, agent: UserAgent, freshId: Uuid): ToolOutcome
  {
    Returned(JObj([("id", Get(args, "product_id", JStr(""))), ("name", JStr("Пример товара")),
                   ("description", JStr("Детальное описание товара")), ("price", JInt(2500)),
                   ("in_stock", JBool(true)), ("seller", JStr("Магазин А"))]))
  }

  /** The entries of the comparison: the i-th id scores 0.8 - 0.1 i. */
  function Comparison(ids: seq<Json>): (r: seq<Json>)
  {
    seq(|ids|, i requires 0 <= i < |ids| => JObj([("id", ids[i]), ("score", JFloat(0.8 - i as real * 0.1))]))
  }

  /** Python's type name of a value that is not iterable. */
  function TypeName(j: Json): string
  {
    match j
    case JNull => "NoneType"
    case JBool(_) => "bool"
    case JInt(_) => "int"
    case JFloat(_) => "float"
    case JStr(_) => "str"
    case JArr(_) => "list"
    case JObj(_) => "dict"
  }

  /**
   * `_tool_compare_products`: `enumerate` raises on a value that is not
   * iterable, and `product_ids[0]` raises KeyError 0 on a non-empty dict.
   */
  function CompareProducts(args: Dict, agent: UserAgent, freshId: Uuid): ToolOutcome
  {
    var ids := Get(args, "product_ids", JArr([]));
    match Iterate(ids)
    case Err(_) => Raised("'" + TypeName(ids) + "' object is not iterable")
    case Ok(items) =>
      if !Truthy(ids) then Returned(JObj([("comparison", JArr(Comparison(items))), ("recommendation", JNull)]))
      else match ids
        case JArr(xs) => Returned(JObj([("comparison", JArr(Comparison(items))), ("recommendation", xs[0])]))
        case JStr(s) => Returned(JObj([("comparison", JArr(Comparison(items))), ("recommendation", JStr([s[0]]))]))
        case _ => Raised("0")
  }

  /**
   * For a list of ids, one entry per id in order with strictly falling
   * scores from 0.8, and the first id recommended (None for no ids).
   */
  lemma CompareList(args: Dict, agent: UserAgent, freshId: Uuid, ids: seq<Json>)
    requires Get(args, "product_ids", JArr([])) == JArr(ids)
    ensures CompareProducts(args, agent, freshId).Returned?
    ensures var r := CompareProducts(args, agent, freshId).value;
      r.JObj? && |r.fields| == 2 && r.fields[0].0 == "comparison" && r.fields[1].0 == "recommendation"
      && r.fields[0].1 == JArr(Comparison(ids))
      && r.fields[1].1 == (if ids == [] then JNull else ids[0])
    ensures |Comparison(ids)| == |ids|
    ensures forall i :: 0 <= i < |ids| ==>
              Comparison(ids)[i] == JObj([("id", ids[i]), ("score", JFloat(0.8 - i as real * 0.1))])
    ensures forall i, j :: 0 <= i < j < |ids| ==>
              Comparison(ids)[j].fields[1].1.v < Comparison(ids)[i].fields[1].1.v
  {
  }

  /** Comparing fails exactly on ids that are not iterable and on a non-empty dict of ids. */
  lemma CompareFails(args: Dict, agent: UserAgent, freshId: Uuid)
    ensures var ids := Get(args, "product_ids", JArr([]));
      CompareProducts(args, agent, freshId).Raised? <==> !(ids.JArr? || ids.JStr? || ids.JObj?) || (ids.JObj? && ids.fields != [])
  {
  }

  /** `_tool_analyze_image`: a fixed mock analysis. */
  function AnalyzeImage(args: Dict, agent: UserAgent, freshId: Uuid): ToolOutcome
  {
    Returned(JObj([("image_id", Get(args, "image_id", JStr(""))), ("detected_style", JStr("современный минимализм")),
                   ("detected_brands", JArr([JStr("Ikea"), JStr("Muji")])),
                   ("similar_products", JArr([JStr("prod-4"), JStr("prod-5")]))]))
  }

  /** `_tool_get_preferences`: the agent's brands, styles and personality. */
  function GetPreferences(args: Dict, agent: UserAgent, freshId: Uuid): ToolOutcome
  {
    Returned(JObj([("brands", JArr(Strs(agent.preferredBrands))), ("styles", JArr(Strs(agent.preferredStyles))),
                   ("personality", JObj(TraitsDump(agent.personality)))]))
  }

  /** `_tool_send_message`: reported as delivered. */
  function SendMessage(args: Dict, agent: UserAgent, freshId: Uuid): ToolOutcome
  {
    Returned(JObj([("sent", JBool(true)), ("to", Get(args, "seller_id", JStr(""))),
                   ("message", Get(args, "message", JStr(""))), ("status", JStr("delivered"))]))
  }

  /** `_tool_make_offer`: a pending offer under the fresh id. */
  function MakeOffer(args: Dict, agent: UserAgent, freshId: Uuid): ToolOutcome
  {
    Returned(JObj([("offer_id", JStr(freshId)), ("product_id", Get(args, "product_id", JStr(""))),
                   ("price", Get(args, "price", JInt(0))), ("quantity", Get(args, "quantity", JInt(1))),
                   ("status", JStr("pending"))]))
  }

  /** `_tool_request_delivery`: a scheduled delivery under the fresh id. */
  function RequestDelivery(args: Dict, agent: UserAgent, freshId: Uuid): ToolOutcome
  {
    Returned(JObj([("delivery_id", JStr(freshId)), ("order_id", Get(args, "order_id", JStr(""))),
                   ("address", Get(args, "address", JStr(""))), ("estimated_time", JStr("2-3 рабочих дня")),
                   ("status", JStr("scheduled"))]))
  }

  /** `_execute_tool`: never raises; an unknown tool or a raised exception becomes an error text. */
  function ExecuteTool(tools: map<string, ToolFn>, name: string, args: Dict, agent: UserAgent, freshId: Uuid): (r: Json)
    ensures name !in tools ==> r == JStr("Ошибка: инструмент '" + name + "' не найден")
    ensures name in tools && tools[name](args, agent, freshId).Returned? ==> r == tools[name](args, agent, freshId).value
    ensures name in tools && tools[name](args, agent, freshId).Raised? ==>
              r == JStr("Ошибка при выполнении " + name + ": " + tools[name](args, agent, freshId).message)
  {
    if name !in tools then JStr("Ошибка: инструмент '" + name + "' не найден")
    else match tools[name](args, agent, freshId)
      case Returned(v) => v
      case Raised(message) => JStr("Ошибка при выполнении " + name + ": " + message)
  }

  /** Of the default tools only `compare_products` can raise. */
  lemma DefaultToolsReturn(name: string, args: Dict, agent: UserAgent, freshId: Uuid)
    requires name in DefaultTools() && name != "compare_products"
    ensures DefaultTools()[name](args, agent, freshId).Returned?
  {
  }

  // ---------------------------------------------------------------------
  // The task loop

  /** What the model returned: its text and the tokens it reports (0 for Gemini). */
  datatype Completion = Completion(text: string, tokens: nat)

  /**
   * The outside world of a task: the model (which may raise), `json.loads`
   * (None for a JSONDecodeError) and the `uuid4()` drawn in each round.
   */
  datatype Env = Env(ask: seq<(string, string)> -> Result<Completion>, loads: string -> Option<Json>, ids: int -> Uuid)

  /**
   * `str(e)` of an exception that stops the loop: the message, the key
   * quoted for a KeyError, and the first line of pydantic's message.
   */
  function ErrorText(e: PyError): string
  {
    match e
    case ValueError(m) => m
    case RuntimeError(m) => m
    case OracleFailure(m) => m
    case KeyError(k) => "'" + k + "'"
    case ValidationError => "1 validation error for AgentMessage"
    case _ => ""
  }

  /** `_generate_response`: ask the model about the conversation, then parse its reply. */
  function Respond(env: Env, toolsPrompt: string, msgs: seq<AgentMessage>): Result<AgentMessage>
  {
    match env.ask(Conversation(msgs, toolsPrompt))
    case Err(e) => Err(e)
    case Ok(c) => Parsed(c.text, c.tokens, env.loads)
  }

  /** `_generate_response` as a function of the conversation. */
  function Responder(env: Env, toolsPrompt: string): seq<AgentMessage> -> Result<AgentMessage>
  {
    msgs => Respond(env, toolsPrompt, msgs)
  }

  /** `respond` answers every conversation as `_generate_response` does. */
  ghost predicate RespondsAs(respond: seq<AgentMessage> -> Result<AgentMessage>, env: Env, toolsPrompt: string)
  {
    forall msgs {:trigger Respond(env, toolsPrompt, msgs)} :: respond(msgs) == Respond(env, toolsPrompt, msgs)
  }

  /** A responder answers as the model: with its own message and a token count that is not negative. */
  ghost predicate Sound(respond: seq<AgentMessage> -> Result<AgentMessage>)
  {
    forall msgs :: respond(msgs).Ok? ==> respond(msgs).value.role == AssistantRole && respond(msgs).value.tokens >= 0
  }

  /** `_generate_response` is such a responder. */
  lemma ResponderSound(env: Env, toolsPrompt: string)
    ensures Sound(Responder(env, toolsPrompt))
  {
    forall msgs | Responder(env, toolsPrompt)(msgs).Ok?
      ensures Responder(env, toolsPrompt)(msgs).value.role == AssistantRole
      ensures Responder(env, toolsPrompt)(msgs).value.tokens >= 0
    {
      var reply := env.ask(Conversation(msgs, toolsPrompt));
      ParsedSpec(reply.value.text, reply.value.tokens, env.loads);
    }
  }

  /**
   * What a task runs with: the registered tools, the agent, how the model
   * answers a conversation, and the `uuid4()` drawn in each round.
   */
  datatype Setup = Setup(tools: map<string, ToolFn>, agent: UserAgent,
                         respond: seq<AgentMessage> -> Result<AgentMessage>, ids: int -> Uuid)

  /** The TOOL message recording the call `response` asked for, in round `round`. */
  function ToolMessage(s: Setup, response: AgentMessage, round: int): (m: AgentMessage)
    requires IsToolCall(response)
    ensures m.role == Tool && m.toolName == response.toolName && m.toolArgs == response.toolArgs && m.tokens == 0
    ensures m.toolResult.Some? && m.content == PyStr(m.toolResult.value)
    ensures m.toolResult.value == ExecuteTool(s.tools, response.toolName.value, response.toolArgs.GetOr([]), s.agent, s.ids(round))
  {
    var result := ExecuteTool(s.tools, response.toolName.value, response.toolArgs.GetOr([]), s.agent, s.ids(round));
    AgentMessage(Tool, PyStr(result), response.toolName, response.toolArgs, Some(result), 0)
  }

  datatype Stop = Exhausted | Answered(content: string) | Crashed(message: string)

  /** Where the loop ends: its counter, the conversation, the tokens and why it stopped. */
  datatype Run = Run(iterations: int, messages: seq<AgentMessage>, tokens: int, stop: Stop)

  /** After a round the loop goes on with this conversation and tokens, or it has ended. */
  datatype Next = Continue(messages: seq<AgentMessage>, tokens: int) | Done(run: Run)

  /**
   * Round `round` of the loop on the conversation `msgs`: the model's
   * exception ends the loop, a tool call appends the tool's result and the
   * reply's tokens, a final answer is appended and ends the loop.
   */
  function Step(s: Setup, round: int, msgs: seq<AgentMessage>, tokens: int): Next
  {
    match s.respond(msgs)
    case Err(e) => Done(Run(round, msgs, tokens, Crashed(ErrorText(e))))
    case Ok(response) =>
      if IsToolCall(response) then Continue(msgs + [ToolMessage(s, response, round)], tokens + response.tokens)
      else Done(Run(round, msgs + [response], tokens, Answered(response.content)))
  }

  /**
   * A round adds one message, except one that fails: the tool's result with
   * the reply's tokens added, or the reply itself, which ends the loop with
   * its text as the answer and adds no tokens.
   */
  lemma StepShape(s: Setup, round: int, msgs: seq<AgentMessage>, tokens: int)
    ensures match Step(s, round, msgs, tokens)
      case Continue(m, t) =>
        s.respond(msgs).Ok? && IsToolCall(s.respond(msgs).value)
        && |m| == |msgs| + 1 && m[..|msgs|] == msgs && m[|msgs|].role == Tool
        && t == tokens + s.respond(msgs).value.tokens
      case Done(run) =>
        run.iterations == round && run.tokens == tokens && !run.stop.Exhausted?
        && (run.stop.Crashed? <==> s.respond(msgs).Err?)
        && (run.stop.Crashed? ==> run.messages == msgs)
        && (run.stop.Answered? ==> s.respond(msgs).Ok? && !IsToolCall(s.respond(msgs).value)
                                   && run.messages == msgs + [s.respond(msgs).value]
                                   && run.stop.content == s.respond(msgs).value.content)
  {
  }

  /** The agent loop of `execute_task` from round counter `it`. */
  function LoopFrom(s: Setup, max: int, it: int, msgs: seq<AgentMessage>, tokens: int): Run
    decreases max - it
  {
    if it >= max then Run(it, msgs, tokens, Exhausted)
    else
      match Step(s, it + 1, msgs, tokens)
      case Done(run) => run
      case Continue(m, t) => LoopFrom(s, max, it + 1, m, t)
  }

  /** A loop with rounds left runs one round and goes on from there unless it ended. */
  lemma LoopUnfold(s: Setup, max: int, it: int, msgs: seq<AgentMessage>, tokens: int)
    requires it < max
    ensures LoopFrom(s, max, it, msgs, tokens)
            == match Step(s, it + 1, msgs, tokens)
               case Done(run) => run
               case Continue(m, t) => LoopFrom(s, max, it + 1, m, t)
  {
  }

  /**
   * The loop never runs past `max` rounds and counts each round it runs;
   * running out of rounds means reaching `max`.
   */
  lemma {:induction false} LoopBounds(s: Setup, max: int, it: int, msgs: seq<AgentMessage>, tokens: int)
    ensures var run := LoopFrom(s, max, it, msgs, tokens);
      (it >= max ==> run == Run(it, msgs, tokens, Exhausted))
      && (it < max ==> it < run.iterations <= max)
      && (run.stop.Exhausted? ==> run.iterations >= max)
    decreases max - it
  {
    if it < max {
      StepShape(s, it + 1, msgs, tokens);
      match Step(s, it + 1, msgs, tokens)
      case Done(run) =>
      case Continue(m, t) => LoopBounds(s, max, it + 1, m, t);
    }
  }

  /**
   * The loop keeps the conversation so far and adds one message per round
   * except a failed one; tokens never decrease.
   */
  lemma {:induction false} LoopKeeps(s: Setup, max: int, it: int, msgs: seq<AgentMessage>, tokens: int)
    requires Sound(s.respond)
    ensures var run := LoopFrom(s, max, it, msgs, tokens);
      run.tokens >= tokens && msgs <= run.messages
      && |run.messages| == |msgs| + (run.iterations - it) - (if run.stop.Crashed? then 1 else 0)
    decreases max - it
  {
    if it < max {
      StepShape(s, it + 1, msgs, tokens);
      match Step(s, it + 1, msgs, tokens)
      case Done(run) =>
        assert msgs <= run.messages;
      case Continue(m, t) =>
        LoopKeeps(s, max, it + 1, m, t);
        assert msgs <= m;
    }
  }

  /** A final answer in the first round adds the answer and no tokens. */
  lemma AnswerAddsNoTokens(s: Setup, max: int, it: int, msgs: seq<AgentMessage>, tokens: int)
    requires it < max && s.respond(msgs).Ok? && !IsToolCall(s.respond(msgs).value)
    ensures var answer := s.respond(msgs).value;
      LoopFrom(s, max, it, msgs, tokens) == Run(it + 1, msgs + [answer], tokens, Answered(answer.content))
  {
  }

  /** The status `execute_task` leaves after the loop (`run` of a task whose limit is `max`). */
  function FinalStatus(run: Run, max: int): TaskStatus
  {
    if run.stop.Crashed? then Failed else if run.iterations >= max then Failed else Completed
  }

  function FinalError(run: Run, max: int, error: Option<string>): Option<string>
  {
    if run.stop.Crashed? then Some(run.stop.message)
    else if run.iterations >= max then Some("Max iterations reached")
    else error
  }

  /**
   * A task completes exactly when the answer comes before the last round;
   * an answer in the last round still ends FAILED "Max iterations reached".
   */
  lemma CompletedIffAnsweredInTime(s: Setup, max: int, it: int, msgs: seq<AgentMessage>, tokens: int, error: Option<string>)
    ensures var run := LoopFrom(s, max, it, msgs, tokens);
      (FinalStatus(run, max) == Completed <==> run.stop.Answered? && run.iterations < max)
      && (run.stop.Answered? && run.iterations >= max ==>
            it < max && run.iterations == max && FinalStatus(run, max) == Failed
            && FinalError(run, max, error) == Some("Max iterations reached"))
      && (FinalStatus(run, max) == Completed ==> FinalError(run, max, error) == error)
  {
    LoopBounds(s, max, it, msgs, tokens);
  }

  /** The user message: the instruction and, when the context is not empty, "Контекст: ..." after a blank line. */
  function UserText(instruction: string, context: Option<string>): (t: string)
    ensures context.None? || context.value == [] ==> t == instruction
    ensures context.Some? && context.value != [] ==> t == instruction + "\n\nКонтекст: " + context.value
  {
    instruction + (if context.Some? && context.value != [] then "\n\nКонтекст: " + context.value else "")
  }

  /** The two messages `execute_task` opens the conversation with. */
  function Opening(agent: UserAgent, instruction: string, context: Option<string>): seq<AgentMessage>
  {
    [PlainMessage(System, agent.systemPrompt), PlainMessage(User, UserText(instruction, context))]
  }

  /**
   * `AgentExecutor`: whether a model client is configured, the tools it
   * advertises to the model (`AGENT_TOOLS`) and the registered tools.
   */
  class AgentExecutor {
    const hasClient: bool
    const advertised: seq<ToolSpec>
    var tools: map<string, ToolFn>

    /** `__init__`: the default tools are registered. */
    constructor (hasClient: bool)
      ensures this.hasClient == hasClient && advertised == AgentTools && tools == DefaultTools()
    {
      this.hasClient := hasClient;
      advertised := AgentTools;
      tools := DefaultTools();
    }

    /** `register_tool`: adds the tool, replacing one of the same name. */
    method RegisterTool(name: string, impl: ToolFn)
      modifies this
      ensures tools == old(tools)[name := impl]
    {
      tools := tools[name := impl];
    }

    /**
     * `_generate_response` on the conversation `msgs`, given the tools prompt
     * (the same text on every call, built by `BuildToolsPrompt`).
     */
    method GenerateResponse(env: Env, toolsPrompt: string, msgs: seq<AgentMessage>) returns (r: Result<AgentMessage>)
      ensures r == Respond(env, toolsPrompt, msgs)
    {
      var conversation := BuildConversation(msgs, toolsPrompt);
      var reply := env.ask(conversation);
      if reply.Err? {
        return Err(reply.error);
      }
      var text := reply.value.text;
      if Contains(text, "TOOL:") {
        var toolName, toolArgs := ScanLines(Split(text, '\n'), env.loads);
        var args := ArgsField(toolArgs);
        if args.Err? {
          return Err(args.error);
        }
        return Ok(AgentMessage(AssistantRole, text, toolName, args.value, None, reply.value.tokens));
      }
      return Ok(AgentMessage(AssistantRole, text, None, None, None, reply.value.tokens));
    }

    /** `_generate_response`, seen as the answer of the responder `s.respond`. */
    method Ask(env: Env, toolsPrompt: string, msgs: seq<AgentMessage>, ghost s: Setup) returns (r: Result<AgentMessage>)
      requires RespondsAs(s.respond, env, toolsPrompt)
      ensures r == s.respond(msgs)
    {
      r := GenerateResponse(env, toolsPrompt, msgs);
    }

    /**
     * `execute_task`: RUNNING, the opening messages, then either FAILED for a
     * missing client or the agent loop followed by its verdict; `started` and
     * `finished` are the clock readings.
     */
    method ExecuteTask(task: AgentTask, agent: UserAgent, env: Env, started: Clock.Instant, finished: Clock.Instant)
      modifies task`status, task`startedAt, task`messages, task`iterations, task`totalTokens
      modifies task`result, task`error, task`completedAt
      ensures task.startedAt == Some(started) && task.maxIterations == old(task.maxIterations)
      ensures !hasClient ==>
                task.status == Failed && task.error == Some("No AI client configured")
                && task.messages == old(task.messages) + Opening(agent, task.instruction, task.context)
                && task.iterations == old(task.iterations) && task.totalTokens == old(task.totalTokens)
                && task.result == old(task.result) && task.completedAt == old(task.completedAt)
      ensures hasClient ==>
                var run := LoopFrom(Setup(tools, agent, Responder(env, ToolsPrompt(advertised)), env.ids), old(task.maxIterations), old(task.iterations),
                                    old(task.messages) + Opening(agent, task.instruction, task.context), old(task.totalTokens));
                task.iterations == run.iterations && task.messages == run.messages && task.totalTokens == run.tokens
                && task.result == (if run.stop.Answered? then Some(run.stop.content) else old(task.result))
                && task.status == FinalStatus(run, old(task.maxIterations))
                && task.error == FinalError(run, old(task.maxIterations), old(task.error))
                && task.completedAt == Some(finished)
    {
      task.status := Running;
      task.startedAt := Some(started);
      task.messages := task.messages + [PlainMessage(System, agent.systemPrompt)];
      task.messages := task.messages + [PlainMessage(User, UserText(task.instruction, task.context))];
      assert task.messages == old(task.messages) + Opening(agent, task.instruction, task.context);
      if !hasClient {
        task.status := Failed;
        task.error := Some("No AI client configured");
        return;
      }
      var toolsPrompt := BuildToolsPrompt(advertised);
      ghost var s := Setup(tools, agent, Responder(env, toolsPrompt), env.ids);
      RunLoop(task, agent, env, toolsPrompt, s);
      task.completedAt := Some(finished);
    }

    /** The `try` block of `execute_task`: the loop, its verdict, and the handler of an exception. */
    method RunLoop(task: AgentTask, agent: UserAgent, env: Env, toolsPrompt: string, ghost s: Setup)
      requires s.tools == tools && s.agent == agent && s.ids == env.ids && RespondsAs(s.respond, env, toolsPrompt)
      requires task.status == Running
      modifies task`iterations, task`messages, task`totalTokens, task`status, task`result, task`error
      ensures var run := LoopFrom(s, task.maxIterations, old(task.iterations), old(task.messages), old(task.totalTokens));
        task.iterations == run.iterations && task.messages == run.messages && task.totalTokens == run.tokens
        && task.result == (if run.stop.Answered? then Some(run.stop.content) else old(task.result))
        && task.status == FinalStatus(run, task.maxIterations)
        && task.error == FinalError(run, task.maxIterations, old(task.error))
    {
      LoopBounds(s, task.maxIterations, task.iterations, task.messages, task.totalTokens);
      var crashed := AgentLoop(task, agent, env, toolsPrompt, s);
      if crashed {
        return;
      }
      if task.iterations >= task.maxIterations {
        task.status := Failed;
        task.error := Some("Max iterations reached");
      }
    }

    /**
     * The `while` loop of `execute_task`, as `LoopFrom` describes it; it
     * reports whether the model raised, which skips the verdict.
     */
    method AgentLoop(task: AgentTask, agent: UserAgent, env: Env, toolsPrompt: string, ghost s: Setup) returns (crashed: bool)
      requires s.tools == tools && s.agent == agent && s.ids == env.ids && RespondsAs(s.respond, env, toolsPrompt)
      requires task.status == Running
      modifies task`iterations, task`messages, task`totalTokens, task`status, task`result, task`error
      ensures var run := LoopFrom(s, task.maxIterations, old(task.iterations), old(task.messages), old(task.totalTokens));
        task.iterations == run.iterations && task.messages == run.messages && task.totalTokens == run.tokens
        && crashed == run.stop.Crashed?
        && (run.stop.Crashed? ==> task.status == Failed && task.error == Some(run.stop.message) && task.result == old(task.result))
        && (run.stop.Answered? ==> task.status == Completed && task.result == Some(run.stop.content) && task.error == old(task.error))
        && (run.stop.Exhausted? ==> task.status == Running && task.result == old(task.result) && task.error == old(task.error))
    {
      ghost var run := LoopFrom(s, task.maxIterations, task.iterations, task.messages, task.totalTokens);
      while task.iterations < task.maxIterations
        invariant task.status == Running && task.result == old(task.result) && task.error == old(task.error)
        invariant LoopFrom(s, task.maxIterations, task.iterations, task.messages, task.totalTokens) == run
        decreases task.maxIterations - task.iterations
      {
        ghost var next := Step(s, task.iterations + 1, task.messages, task.totalTokens);
        LoopUnfold(s, task.maxIterations, task.iterations, task.messages, task.totalTokens);
        var ended;
        ended, crashed := Round(task, agent, env, toolsPrompt, s);
        if ended {
          assert next.Done? && next.run == run;
          return;
        }
        assert next.Continue?;
      }
      return false;
    }

    /**
     * One pass of the loop body, as `Step` describes it: the agent task becomes
     * FAILED with the exception's text, or records the tool call and goes
     * on, or records the answer as COMPLETED and ends the loop.
     */
    method Round(task: AgentTask, agent: UserAgent, env: Env, toolsPrompt: string, ghost s: Setup) returns (ended: bool, crashed: bool)
      requires s.tools == tools && s.agent == agent && s.ids == env.ids && RespondsAs(s.respond, env, toolsPrompt)
      requires task.status == Running
      modifies task`iterations, task`messages, task`totalTokens, task`status, task`result, task`error
      ensures task.iterations == old(task.iterations) + 1
      ensures match Step(s, task.iterations, old(task.messages), old(task.totalTokens))
        case Continue(m, t) =>
          !ended && !crashed && task.messages == m && task.totalTokens == t
          && task.status == Running && task.result == old(task.result) && task.error == old(task.error)
        case Done(run) =>
          ended && crashed == run.stop.Crashed? && task.messages == run.messages && task.totalTokens == run.tokens
          && (run.stop.Crashed? ==> task.status == Failed && task.error == Some(run.stop.message)
                                    && task.result == old(task.result))
          && (run.stop.Answered? ==> task.status == Completed && task.result == Some(run.stop.content)
                                     && task.error == old(task.error))
    {
      ghost var msgs, tokens := task.messages, task.totalTokens;
      task.iterations := task.iterations + 1;
      var response := Ask(env, toolsPrompt, task.messages, s);
      if response.Err? {
        task.status := Failed;
        task.error := Some(ErrorText(response.error));
        assert Step(s, task.iterations, msgs, tokens) == Done(Run(task.iterations, msgs, tokens, Crashed(ErrorText(response.error))));
        return true, true;
      }
      if IsToolCall(response.value) {
        var name := response.value.toolName.value;
        var toolResult := ExecuteTool(tools, name, response.value.toolArgs.GetOr([]), agent, env.ids(task.iterations));
        task.messages := task.messages + [AgentMessage(Tool, PyStr(toolResult), response.value.toolName,
                                                       response.value.toolArgs, Some(toolResult), 0)];
        task.totalTokens := task.totalTokens + response.value.tokens;
        assert Step(s, task.iterations, msgs, tokens) == Continue(task.messages, task.totalTokens);
        return false, false;
      }
      task.messages := task.messages + [response.value];
      task.result := Some(response.value.content);
      task.status := Completed;
      assert Step(s, task.iterations, msgs, tokens) == Done(Run(task.iterations, task.messages, tokens, Answered(response.value.content)));
      return true, false;
    }
  }
}
