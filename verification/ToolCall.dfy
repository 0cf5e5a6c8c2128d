/**
  The function-call contract: what a client may declare, and what a provider may answer to it. Decoding JSON and
  JSON Schema stay abstract; the rules built on them do not.
*/
module ToolCall {
  import opened Names
  import opened Text
  import opened Wrappers

  const MAX_FUNCTIONS := 32
  const MAX_TOOLS_BYTES := 256 * 1024

  datatype FunctionWire = FunctionWire(kind: string, name: string, parameters: string)

  datatype Schema = NotASchema | Schema(kind: string, resolves: bool)

  /** A tool choice in JSON: a string, an object with a type and a name, or anything else. */
  datatype ChoiceJson = Word(text: string) | Object(kind: string, name: string) | Neither

  /** What the text of a call's arguments holds: nothing readable, one JSON value, or one with something behind it. */
  datatype Arguments = Unreadable | Several | Single(value: string)

  /** The JSON library. */
  datatype Json = Json(
    tools: string -> Option<seq<FunctionWire>>,
    schema: string -> Schema,
    choice: string -> ChoiceJson,
    arguments: string -> Arguments,
    conforms: (string, string) -> bool,
    lower: char -> char,
    quote: string -> string,
    encodeNamed: string -> string)

  datatype Choice = NoCall | Auto | Required | Named(name: string)

  /** A function is kept with the schema its arguments must conform to. */
  datatype Request = Request(tools: string, toolChoice: string, functions: map<Name, string>, choice: Choice)

  // ------------------------------------------------ what may be declared

  predicate NameChar(c: char) {
    'A' <= c <= 'Z' || 'a' <= c <= 'z' || '0' <= c <= '9' || c == '_' || c == '-'
  }

  predicate GoodName(name: string) {
    1 <= |name| <= 64 && forall i :: 0 <= i < |name| ==> NameChar(name[i])
  }

  predicate Blank(raw: string) {
    var t := Trim(raw);
    t == "" || t == "null"
  }

  function ToolsText(raw: string): string {
    if Blank(raw) then "[]" else Trim(raw)
  }

  predicate GoodWire(json: Json, w: FunctionWire) {
    && w.kind == "function" && GoodName(w.name) && !Blank(w.parameters)
    && var s := json.schema(w.parameters);
       s.Schema? && s.kind == "object" && s.resolves
  }

  ghost predicate DistinctNames(wires: seq<FunctionWire>) {
    forall i, j :: 0 <= i < j < |wires| ==> wires[i].name != wires[j].name
  }

  ghost predicate Declares(wires: seq<FunctionWire>, name: string) {
    exists i :: 0 <= i < |wires| && wires[i].name == name
  }

  function Lower(json: Json, s: string): string {
    seq(|s|, i requires 0 <= i < |s| => json.lower(s[i]))
  }

  function ModeText(c: Choice): string
    requires !c.Named?
  {
    match c
    case NoCall => "none"
    case Auto => "auto"
    case Required => "required"
  }

  /** The choice a tool choice text asks for. */
  function ParseChoice(json: Json, raw: string, hasTools: bool): (c: Option<Choice>)
    ensures !hasTools && c.Some? && !c.value.Named? ==> c.value.NoCall?
    ensures c.Some? && c.value.Named? ==> GoodName(c.value.name)
  {
    if Blank(raw) then Some(if hasTools then Auto else NoCall)
    else match json.choice(Trim(raw))
      case Word(text) =>
        var mode := Lower(json, Trim(text));
        if mode != "none" && mode != "auto" && mode != "required" then None
        else if !hasTools && mode != "none" then None
        else Some(if mode == "none" then NoCall else if mode == "auto" then Auto else Required)
      case Object(kind, name) => if kind == "function" && GoodName(name) then Some(Named(name)) else None
      case Neither => None
  }

  /** The rule for a choice text, said choice by choice. */
  ghost predicate Asks(json: Json, raw: string, hasTools: bool, c: Choice) {
    if Blank(raw) then c == if hasTools then Auto else NoCall
    else match json.choice(Trim(raw))
      case Word(text) => !c.Named? && Lower(json, Trim(text)) == ModeText(c) && (hasTools || c.NoCall?)
      case Object(kind, name) => kind == "function" && GoodName(name) && c == Named(name)
      case Neither => false
  }

  /** A choice is parsed exactly when the text asks for it; at most one choice is asked for. */
  lemma ParseChoiceExactly(json: Json, raw: string, hasTools: bool, c: Choice)
    ensures ParseChoice(json, raw, hasTools) == Some(c) <==> Asks(json, raw, hasTools, c)
  {
    hide Lower, Trim, GoodName;
  }

  function NormalizedChoice(json: Json, c: Choice): string {
    if c.Named? then json.encodeNamed(c.name) else json.quote(ModeText(c))
  }

  /** The functions of a list with distinct names. */
  ghost predicate Holds(functions: map<Name, string>, wires: seq<FunctionWire>) {
    && (forall i :: 0 <= i < |wires| ==>
          Name(wires[i].name) in functions && functions[Name(wires[i].name)] == wires[i].parameters)
    && (forall n :: n in functions ==> Declares(wires, n.text))
  }

  ghost predicate GoodWires(json: Json, wires: seq<FunctionWire>) {
    && (forall i :: 0 <= i < |wires| ==> GoodWire(json, wires[i]))
    && DistinctNames(wires)
  }

  /** The declarations are in order. */
  ghost predicate Acceptable(json: Json, toolsRaw: string, choiceRaw: string, parallel: Option<bool>) {
    && parallel != Some(true)
    && |ToolsText(toolsRaw)| <= MAX_TOOLS_BYTES
    && json.tools(ToolsText(toolsRaw)).Some?
    && var wires := json.tools(ToolsText(toolsRaw)).value;
       var choice := ParseChoice(json, choiceRaw, wires != []);
       && |wires| <= MAX_FUNCTIONS && GoodWires(json, wires)
       && choice.Some? && (choice.value.Named? ==> Declares(wires, choice.value.name))
  }

  /** The request that declarations in order stand for. */
  ghost predicate Denotes(json: Json, toolsRaw: string, choiceRaw: string, r: Request) {
    && r.tools == ToolsText(toolsRaw)
    && json.tools(r.tools).Some?
    && var wires := json.tools(r.tools).value;
       && Holds(r.functions, wires)
       && Some(r.choice) == ParseChoice(json, choiceRaw, wires != [])
       && r.toolChoice == NormalizedChoice(json, r.choice)
  }

  /** A name is 1 to 64 letters, digits, underscores and hyphens. */
  lemma NameExactly(name: string)
    ensures GoodName(name)
       <==> && 0 < |name| <= 64
            && forall i :: 0 <= i < |name| ==>
                 || 'a' <= name[i] <= 'z' || 'A' <= name[i] <= 'Z' || '0' <= name[i] <= '9' || name[i] in "-_"
  {
    assert "-_" == ['-', '_'];
    assert forall c :: NameChar(c) <==> 'a' <= c <= 'z' || 'A' <= c <= 'Z' || '0' <= c <= '9' || c in "-_";
  }

  /** When a declaration is in order. */
  lemma WireExactly(json: Json, w: FunctionWire)
    ensures GoodWire(json, w)
       <==> && w.kind == "function" && GoodName(w.name) && Trim(w.parameters) !in {"", "null"}
            && json.schema(w.parameters) == Schema("object", true)
  {
    hide GoodName, Trim;
  }

  /** When a request for functions is accepted: at most 32 of them, in at most 256 KiB, never in parallel. */
  lemma AcceptableExactly(json: Json, toolsRaw: string, choiceRaw: string, parallel: Option<bool>)
    ensures var tools := if Trim(toolsRaw) in {"", "null"} then "[]" else Trim(toolsRaw);
            Acceptable(json, toolsRaw, choiceRaw, parallel)
            <==>
            && !(parallel.Some? && parallel.value) && |tools| <= 262_144 && json.tools(tools).Some?
            && var wires := json.tools(tools).value;
               var choice := ParseChoice(json, choiceRaw, |wires| > 0);
               && |wires| <= 32 && (forall i :: 0 <= i < |wires| ==> GoodWire(json, wires[i]))
               && (forall i, j :: 0 <= i < j < |wires| ==> wires[i].name != wires[j].name)
               && choice.Some?
               && (choice.value.Named? ==> exists i :: 0 <= i < |wires| && wires[i].name == choice.value.name)
  {
    hide GoodWire, ParseChoice, Trim;
  }

  lemma HoldsMore(functions: map<Name, string>, wires: seq<FunctionWire>, i: nat)
    requires i < |wires| && Holds(functions, wires[..i]) && Name(wires[i].name) !in functions
    ensures Holds(functions[Name(wires[i].name) := wires[i].parameters], wires[..i + 1])
  {
    var more := functions[Name(wires[i].name) := wires[i].parameters];
    assert wires[..i + 1] == wires[..i] + [wires[i]];
    forall n | n in more
      ensures Declares(wires[..i + 1], n.text)
    {
      if n == Name(wires[i].name) {
        assert wires[..i + 1][i].name == n.text;
      } else {
        var k :| 0 <= k < i && wires[..i][k].name == n.text;
        assert wires[..i + 1][k].name == n.text;
      }
    }
  }

  lemma GoodMore(json: Json, wires: seq<FunctionWire>, i: nat, functions: map<Name, string>)
    requires i < |wires| && GoodWires(json, wires[..i]) && Holds(functions, wires[..i])
    ensures Name(wires[i].name) in functions <==> !DistinctNames(wires[..i + 1])
    ensures GoodWire(json, wires[i]) && DistinctNames(wires[..i + 1]) ==> GoodWires(json, wires[..i + 1])
    ensures !GoodWire(json, wires[i]) || !DistinctNames(wires[..i + 1]) ==> !GoodWires(json, wires)
  {
    var more := wires[..i + 1];
    assert more == wires[..i] + [wires[i]];
    assert forall k :: 0 <= k <= i ==> more[k] == wires[k];
    assert forall k :: 0 <= k < i ==> wires[..i][k] == wires[k];
    if Name(wires[i].name) in functions {
      assert Declares(wires[..i], wires[i].name);
      var k :| 0 <= k < i && wires[..i][k].name == wires[i].name;
      assert more[k].name == more[i].name;
    } else {
      assert forall k :: 0 <= k < i ==> wires[..i][k].name != wires[i].name;
    }
  }

  /** The loop over the declared functions. */
  method Declare(json: Json, wires: seq<FunctionWire>) returns (functions: Option<map<Name, string>>)
    ensures functions.Some? <==> GoodWires(json, wires)
    ensures functions.Some? ==> Holds(functions.value, wires)
  {
    var known: map<Name, string> := map[];
    for i := 0 to |wires|
      invariant GoodWires(json, wires[..i]) && Holds(known, wires[..i])
    {
      hide GoodWires, Holds, DistinctNames;
      var w := wires[i];
      GoodMore(json, wires, i, known);
      if w.kind != "function" || !GoodName(w.name) {
        return None;
      }
      if Name(w.name) in known {
        return None;
      }
      if Blank(w.parameters) {
        return None;
      }
      var schema := json.schema(w.parameters);
      if schema.NotASchema? || schema.kind != "object" || !schema.resolves {
        return None;
      }
      HoldsMore(known, wires, i);
      known := known[Name(w.name) := w.parameters];
    }
    assert wires[..|wires|] == wires;
    functions := Some(known);
  }

  /** A request is parsed exactly when the declarations are in order, and it is what they stand for. */
  method Parse(json: Json, toolsRaw: string, choiceRaw: string, parallel: Option<bool>) returns (r: Option<Request>)
    ensures r.Some? <==> Acceptable(json, toolsRaw, choiceRaw, parallel)
    ensures r.Some? ==> Denotes(json, toolsRaw, choiceRaw, r.value)
  {
    hide GoodWires, ParseChoice;
    if parallel == Some(true) {
      return None;
    }
    var tools := ToolsText(toolsRaw);
    if |tools| > MAX_TOOLS_BYTES {
      return None;
    }
    var wires := json.tools(tools);
    if wires.None? || |wires.value| > MAX_FUNCTIONS {
      return None;
    }
    var functions := Declare(json, wires.value);
    if functions.None? {
      return None;
    }
    var choice := ParseChoice(json, choiceRaw, |wires.value| > 0);
    if choice.None? {
      return None;
    }
    if choice.value.Named? && Name(choice.value.name) !in functions.value {
      return None;
    }
    r := Some(Request(tools, NormalizedChoice(json, choice.value), functions.value, choice.value));
  }

  // ------------------------------------------------ what every parsed request satisfies

  /** The contract a provider may be held to. */
  ghost predicate Sound(json: Json, r: Request) {
    && |r.tools| <= MAX_TOOLS_BYTES && |r.functions| <= MAX_FUNCTIONS
    && (forall n :: n in r.functions ==> GoodName(n.text) && json.schema(r.functions[n]) == Schema("object", true))
    && (r.choice.Named? ==> Name(r.choice.name) in r.functions)
    && (r.functions == map[] ==> r.choice == NoCall)
  }

  lemma {:induction false} NamesCounted(functions: map<Name, string>, wires: seq<FunctionWire>)
    requires forall n :: n in functions ==> Declares(wires, n.text)
    ensures |functions| <= |wires|
  {
    if wires == [] {
      assert functions == map[];
    } else {
      var last := |wires| - 1;
      var name := Name(wires[last].name);
      forall n | n in functions - {name}
        ensures Declares(wires[..last], n.text)
      {
        var k :| 0 <= k < |wires| && wires[k].name == n.text;
        assert wires[..last][k].name == n.text;
      }
      NamesCounted(functions - {name}, wires[..last]);
      assert functions.Keys <= (functions - {name}).Keys + {name};
      assert |functions.Keys| <= |(functions - {name}).Keys + {name}|;
      assert |functions| == |functions.Keys| && |functions - {name}| == |(functions - {name}).Keys|;
    }
  }

  /** Names are distinct and well formed, a named choice is declared, and without functions nothing may be called. */
  lemma ParsedIsSound(json: Json, toolsRaw: string, choiceRaw: string, parallel: Option<bool>, r: Request)
    requires Acceptable(json, toolsRaw, choiceRaw, parallel) && Denotes(json, toolsRaw, choiceRaw, r)
    ensures Sound(json, r)
  {
    var wires := json.tools(r.tools).value;
    NamesCounted(r.functions, wires);
    forall n | n in r.functions
      ensures GoodName(n.text) && json.schema(r.functions[n]) == Schema("object", true)
    {
      assert Declares(wires, n.text);
      var i :| 0 <= i < |wires| && wires[i].name == n.text;
      assert GoodWire(json, wires[i]);
    }
    if wires != [] {
      assert Name(wires[0].name) in r.functions;
    }
  }

  predicate Enabled(r: Option<Request>) {
    r.Some? && |r.value.functions| > 0
  }

  /** The library reads back what it wrote. */
  ghost predicate Faithful(json: Json) {
    && (forall c: Choice :: !c.Named? ==>
          && !Blank(json.quote(ModeText(c)))
          && json.choice(Trim(json.quote(ModeText(c)))) == Word(ModeText(c)))
    && (forall n :: !Blank(json.encodeNamed(n)) && json.choice(Trim(json.encodeNamed(n))) == Object("function", n))
    && (forall ch :: 'a' <= ch <= 'z' ==> json.lower(ch) == ch)
  }

  lemma {:induction false} TrimTwice(s: string)
    ensures Trim(Trim(s)) == Trim(s)
  {
    if s != "" && IsSpace(s[0]) {
      TrimTwice(s[1..]);
    } else if s != "" && IsSpace(s[|s| - 1]) {
      TrimTwice(s[..|s| - 1]);
    } else {
      TrimIdentity(s);
    }
  }

  /** The tools text is its own normal form. */
  lemma ToolsReadBack(raw: string)
    ensures ToolsText(ToolsText(raw)) == ToolsText(raw)
  {
    if Blank(raw) {
      TrimIdentity("[]");
    } else {
      TrimTwice(raw);
      hide Trim;
    }
  }

  /** A mode that the library wrote is read back. */
  lemma ModeReadBack(json: Json, c: Choice, hasTools: bool)
    requires Faithful(json) && !c.Named? && (hasTools || c.NoCall?)
    ensures Asks(json, json.quote(ModeText(c)), hasTools, c)
  {
    var mode := ModeText(c);
    TrimIdentity(mode);
    hide Trim, GoodName, Blank;
    assert json.choice(Trim(json.quote(mode))) == Word(mode);
    assert Lower(json, mode) == mode;
  }

  /** A choice that was parsed reads back from its normal form. */
  lemma ChoiceReadBack(json: Json, raw: string, c: Choice, hasTools: bool)
    requires Faithful(json) && ParseChoice(json, raw, hasTools) == Some(c)
    ensures ParseChoice(json, NormalizedChoice(json, c), hasTools) == Some(c)
  {
    hide Lower, Trim, GoodName, Blank;
    if !c.Named? {
      ParseChoiceExactly(json, raw, hasTools, c);
      ModeReadBack(json, c, hasTools);
      ParseChoiceExactly(json, json.quote(ModeText(c)), hasTools, c);
    }
  }

  /** Acceptance depends on nothing but the normal form of the tools and the choice that is read. */
  lemma AcceptedAgain(json: Json, toolsRaw: string, choiceRaw: string, toolsText: string, choiceText: string,
                      parallel: Option<bool>)
    requires Acceptable(json, toolsRaw, choiceRaw, parallel) && ToolsText(toolsText) == ToolsText(toolsRaw)
    requires var hasTools := json.tools(ToolsText(toolsRaw)).value != [];
             ParseChoice(json, choiceText, hasTools) == ParseChoice(json, choiceRaw, hasTools)
    ensures Acceptable(json, toolsText, choiceText, parallel)
  {
    hide ToolsText, ParseChoice, GoodWires, Declares;
  }

  lemma DenotesAgain(json: Json, toolsRaw: string, choiceRaw: string, toolsText: string, choiceText: string, r: Request)
    requires Denotes(json, toolsRaw, choiceRaw, r) && ToolsText(toolsText) == ToolsText(toolsRaw)
    requires var hasTools := json.tools(r.tools).value != [];
             ParseChoice(json, choiceText, hasTools) == ParseChoice(json, choiceRaw, hasTools)
    ensures Denotes(json, toolsText, choiceText, r)
  {
    hide ToolsText, ParseChoice, Holds, NormalizedChoice;
  }

  /** What is forwarded to a provider means the same request: parsing it again changes nothing. */
  lemma NormalFormIsStable(json: Json, toolsRaw: string, choiceRaw: string, parallel: Option<bool>, r: Request)
    requires Faithful(json)
    requires Acceptable(json, toolsRaw, choiceRaw, parallel) && Denotes(json, toolsRaw, choiceRaw, r)
    ensures Acceptable(json, r.tools, r.toolChoice, parallel) && Denotes(json, r.tools, r.toolChoice, r)
  {
    hide ToolsText, ParseChoice, GoodWires, Declares, Holds, NormalizedChoice, Faithful;
    var hasTools := json.tools(r.tools).value != [];
    ToolsReadBack(toolsRaw);
    ChoiceReadBack(json, choiceRaw, r.choice, hasTools);
    hide Acceptable, Denotes;
    AcceptedAgain(json, toolsRaw, choiceRaw, r.tools, r.toolChoice, parallel);
    DenotesAgain(json, toolsRaw, choiceRaw, r.tools, r.toolChoice, r);
  }

  // ------------------------------------------------ what a provider may answer

  /** One item of the output; fields that are not strings read as empty. */
  datatype Item = Other | FunctionCall(name: string, callId: string, arguments: string)

  /** The call names a declared function and carries one JSON value that conforms to its schema. */
  predicate GoodCall(json: Json, r: Request, item: Item)
    requires item.FunctionCall?
  {
    && GoodName(item.name) && Trim(item.callId) != "" && Trim(item.arguments) != ""
    && Name(item.name) in r.functions
    && var a := json.arguments(item.arguments);
       a.Single? && json.conforms(r.functions[Name(item.name)], a.value)
  }

  ghost predicate CallAt(output: seq<Item>, i: int) {
    0 <= i < |output| && output[i].FunctionCall?
  }

  /** At most one call, each in order, and as many as the choice wants, of the function it names. */
  ghost predicate Permitted(json: Json, r: Request, output: seq<Item>) {
    && (forall i :: CallAt(output, i) ==> GoodCall(json, r, output[i]))
    && (forall i, j :: CallAt(output, i) && CallAt(output, j) ==> i == j)
    && match r.choice
       case NoCall => forall i :: !CallAt(output, i)
       case Auto => true
       case Required => exists i :: CallAt(output, i)
       case Named(name) => exists i :: CallAt(output, i) && output[i].name == name
  }

  ghost predicate PermittedResponse(json: Json, r: Option<Request>, output: Option<seq<Item>>) {
    match r
    case None => true
    case Some(request) =>
      match output
      case None => !request.choice.Required? && !request.choice.Named?
      case Some(items) => Permitted(json, request, items)
  }

  /** The calls among the first items: how many, the name of the last, and where it is. */
  /** When a call may be exposed. */
  lemma CallExactly(json: Json, r: Request, item: Item)
    requires item.FunctionCall?
    ensures GoodCall(json, r, item)
       <==> && GoodName(item.name) && |Trim(item.callId)| > 0 && |Trim(item.arguments)| > 0
            && Name(item.name) in r.functions && json.arguments(item.arguments).Single?
            && json.conforms(r.functions[Name(item.name)], json.arguments(item.arguments).value)
  {
    hide GoodName, Trim;
  }

  /** When a response passes: by the calls it has, their number and the choice. */
  lemma ResponseExactly(json: Json, r: Option<Request>, output: Option<seq<Item>>)
    ensures r.None? ==> PermittedResponse(json, r, output)
    ensures r.Some? && output.None? ==>
              (PermittedResponse(json, r, output) <==> r.value.choice == NoCall || r.value.choice == Auto)
    ensures r.Some? && output.Some? ==>
              var items := output.value;
              var calls := set i | 0 <= i < |items| && items[i].FunctionCall?;
              PermittedResponse(json, r, output)
              <==>
              && (forall i :: i in calls ==> GoodCall(json, r.value, items[i]))
              && (forall i, j :: i in calls && j in calls ==> i == j)
              && match r.value.choice
                 case NoCall => calls == {}
                 case Auto => true
                 case Required => calls != {}
                 case Named(name) => exists i :: i in calls && items[i].name == name
  {
    hide GoodCall;
    if r.Some? && output.Some? {
      var items := output.value;
      var calls := set i | 0 <= i < |items| && items[i].FunctionCall?;
      assert forall i :: i in calls <==> CallAt(items, i);
      hide CallAt;
    }
  }

  ghost predicate Seen(output: seq<Item>, n: nat, calls: nat, calledName: string, last: nat) {
    && (calls == 0 <==> forall i :: i < n ==> !CallAt(output, i))
    && (calls == 1 ==> forall i :: i < n && CallAt(output, i) ==> i == last)
    && (calls >= 1 ==> last < n && CallAt(output, last) && output[last].name == calledName)
    && (calls > 1 ==> exists i :: i < last && CallAt(output, i))
  }

  lemma SeenCall(output: seq<Item>, n: nat, calls: nat, calledName: string, last: nat)
    requires n < |output| && Seen(output, n, calls, calledName, last) && output[n].FunctionCall?
    ensures Seen(output, n + 1, calls + 1, output[n].name, n)
  {
    assert CallAt(output, n);
    if calls == 1 {
      assert last < n && CallAt(output, last);
    }
  }

  lemma SeenOther(output: seq<Item>, n: nat, calls: nat, calledName: string, last: nat)
    requires n < |output| && Seen(output, n, calls, calledName, last) && output[n].Other?
    ensures Seen(output, n + 1, calls, calledName, last)
  {
  }

  /** A response passes exactly when it is permitted. `output` is None when it is missing or not a list. */
  method ValidateResponse(json: Json, r: Option<Request>, output: Option<seq<Item>>) returns (ok: bool)
    ensures ok <==> PermittedResponse(json, r, output)
  {
    if r.None? {
      return true;
    }
    var request := r.value;
    if output.None? {
      return !request.choice.Required? && !request.choice.Named?;
    }
    var items := output.value;
    var calls: nat, calledName := 0, "";
    ghost var last: nat := 0;
    for index := 0 to |items|
      invariant forall i :: i < index && CallAt(items, i) ==> GoodCall(json, request, items[i])
      invariant Seen(items, index, calls, calledName, last)
    {
      hide Seen;
      var item := items[index];
      if item.Other? {
        SeenOther(items, index, calls, calledName, last);
        continue;
      }
      assert CallAt(items, index);
      SeenCall(items, index, calls, calledName, last);
      calls, calledName, last := calls + 1, item.name, index;
      if !GoodName(calledName) || Trim(item.callId) == "" || Trim(item.arguments) == "" {
        return false;
      }
      if Name(calledName) !in request.functions {
        return false;
      }
      var arguments := json.arguments(item.arguments);
      if !arguments.Single? {
        return false;
      }
      if !json.conforms(request.functions[Name(calledName)], arguments.value) {
        return false;
      }
    }
    ok := CallsFit(calls, calledName, request.choice);
    Verdict(json, request, items, calls, calledName, last);
  }

  /** The checks behind the loop. */
  predicate CallsFit(calls: nat, calledName: string, choice: Choice) {
    && calls <= 1
    && match choice
       case NoCall => calls == 0
       case Auto => true
       case Required => calls == 1
       case Named(name) => calls == 1 && calledName == name
  }

  lemma Verdict(json: Json, r: Request, output: seq<Item>, calls: nat, calledName: string, last: nat)
    requires forall i :: CallAt(output, i) ==> GoodCall(json, r, output[i])
    requires Seen(output, |output|, calls, calledName, last)
    ensures CallsFit(calls, calledName, r.choice) <==> Permitted(json, r, output)
  {
    if calls > 1 {
      var i :| i < last && CallAt(output, i);
      assert CallAt(output, last);
    } else if calls == 1 {
      assert forall i :: CallAt(output, i) ==> i == last;
    }
  }

  /** A call that reaches a client was declared by it, in a request whose tool choice allows calls. */
  lemma ExposedCallWasDeclared(json: Json, toolsRaw: string, choiceRaw: string, parallel: Option<bool>, r: Request,
                               output: seq<Item>, i: nat)
    requires Acceptable(json, toolsRaw, choiceRaw, parallel) && Denotes(json, toolsRaw, choiceRaw, r)
    requires PermittedResponse(json, Some(r), Some(output)) && CallAt(output, i)
    ensures Enabled(Some(r)) && !r.choice.NoCall?
    ensures (r.choice.Named? ==> output[i].name == r.choice.name)
    ensures exists k :: && 0 <= k < |json.tools(r.tools).value|
                        && json.tools(r.tools).value[k].name == output[i].name
                        && json.conforms(json.tools(r.tools).value[k].parameters,
                                         json.arguments(output[i].arguments).value)
  {
    var wires := json.tools(r.tools).value;
    var name := Name(output[i].name);
    assert GoodCall(json, r, output[i]);
    hide GoodCall, GoodWires, ParseChoice;
    assert Declares(wires, name.text);
    var k :| 0 <= k < |wires| && wires[k].name == name.text;
    assert r.functions[name] == wires[k].parameters;
  }
}
