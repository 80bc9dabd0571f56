/**
 Translating a conversation for Anthropic (app/providers/anthropic.py:43-107 and 137-168).
 Python lists are heap objects: message contents of the request and of the payload are
 references to them, and a tool result is appended to the last payload list in place.
 */
module AnthropicRequest {
  import opened Wrappers
  import opened AnthropicResponse

  class PyList {
    var items: seq<Item>

    constructor (items: seq<Item>)
      ensures this.items == items
    {
      this.items := items;
    }

    method Append(item: Item)
      modifies this
      ensures items == old(items) + [item]
    {
      items := items + [item];
    }
  }

  /** A message content: absent, a string, or a reference to a list. */
  datatype Content = Missing | Str(s: string) | List(ref: PyList)

  /** The dictionaries found in content lists, in the request's form and in the payload's. */
  datatype Item =
    | TextItem(text: Content)
    | ImageUrl(url: string)
    | OtherItem
    | ImageItem(mediaType: string, data: string)
    | ToolUseItem(id: Option<string>, name: Option<string>, input: Json)
    | ToolResult(toolUseId: Option<string>, result: Content)

  datatype Role = System | User | Assistant | Tool

  datatype CallSpec = CallSpec(id: Option<string>, name: Option<string>, arguments: string)

  datatype ChatMessage = ChatMessage(role: Role, content: Content, toolCallId: Option<string>, toolCalls: seq<CallSpec>)

  /** A payload message; `fromUser` tells its role. */
  datatype Sent = Sent(fromUser: bool, content: Content)

  /** Foreign code: data-URL images, JSON parsing and Python's `str`. */
  datatype Tools = Tools(image: string -> Option<(string, string)>, loads: string -> Option<Json>,
                         str: Content -> string)

  // ----- values: what lists hold at a moment -----

  datatype Body = Whole(content: Content) | Items(items: seq<Item>)

  /** A payload message with its list looked up. */
  datatype View = View(fromUser: bool, body: Body)

  /** A message's own translation. */
  datatype Own = OwnSystem(text: string) | OwnUser(body: Body) | OwnAssistant(items: seq<Item>) | OwnTool(item: Item)

  function BodyOf(content: Content): Body
    reads if content.List? then {content.ref} else {}
  {
    if content.List? then Items(content.ref.items) else Whole(content)
  }

  function ViewOf(sent: Sent): View
    reads if sent.content.List? then {sent.content.ref} else {}
  {
    View(sent.fromUser, BodyOf(sent.content))
  }

  /** Text items are rebuilt, data-URL images converted, everything else dropped. */
  function ConvertedItem(item: Item, tools: Tools): seq<Item> {
    match item
    case TextItem(text) => [TextItem(text)]
    case ImageUrl(url) =>
      if tools.image(url).Some? then [ImageItem(tools.image(url).value.0, tools.image(url).value.1)] else []
    case _ => []
  }

  function Converted(items: seq<Item>, tools: Tools): seq<Item> {
    if items == [] then [] else ConvertedItem(items[0], tools) + Converted(items[1..], tools)
  }

  predicate Truthy(content: Content)
    reads if content.List? then {content.ref} else {}
  {
    match content
    case Missing => false
    case Str(s) => s != ""
    case List(ref) => ref.items != []
  }

  /** A string or a list that is not empty. */
  predicate SaysSomething(content: Content)
    reads if content.List? then {content.ref} else {}
  {
    (content.Str? && |content.s| > 0) || (content.List? && |content.ref.items| > 0)
  }

  /** The item is the call's tool use; arguments that do not parse become an empty object. */
  predicate IsCallItem(item: Item, call: CallSpec, tools: Tools) {
    && item.ToolUseItem? && item.id == call.id && item.name == call.name
    && item.input == if tools.loads(call.arguments).Some? then tools.loads(call.arguments).value else Object([])
  }

  function CallItems(calls: seq<CallSpec>, tools: Tools): seq<Item> {
    if calls == [] then []
    else
      [ToolUseItem(calls[0].id, calls[0].name, tools.loads(calls[0].arguments).GetOr(EMPTY_OBJECT))]
      + CallItems(calls[1..], tools)
  }

  function OwnOf(m: ChatMessage, tools: Tools): Own
    reads if m.content.List? then {m.content.ref} else {}
  {
    match m.role
    case System => OwnSystem(tools.str(m.content))
    case User => OwnUser(if m.content.List? then Items(Converted(m.content.ref.items, tools)) else Whole(m.content))
    case Assistant =>
      OwnAssistant((if Truthy(m.content) then [TextItem(m.content)] else []) + CallItems(m.toolCalls, tools))
    case Tool => OwnTool(ToolResult(m.toolCallId, if Truthy(m.content) then m.content else Str("")))
  }

  function ListsOf(messages: seq<ChatMessage>): set<PyList> {
    set i | 0 <= i < |messages| && messages[i].content.List? :: messages[i].content.ref
  }

  function Owns(messages: seq<ChatMessage>, tools: Tools): seq<Own>
    reads ListsOf(messages)
  {
    seq(|messages|, i requires 0 <= i < |messages| reads ListsOf(messages) => OwnOf(messages[i], tools))
  }

  /** Whether the last payload message takes a tool result: a user message with a list. */
  predicate Absorbing(out: seq<View>) {
    out != [] && out[|out| - 1].fromUser && out[|out| - 1].body.Items?
  }

  function Add(out: seq<View>, own: Own): seq<View> {
    match own
    case OwnSystem(_) => out
    case OwnUser(body) => out + [View(true, body)]
    case OwnAssistant(items) => out + [View(false, Items(items))]
    case OwnTool(item) =>
      if Absorbing(out)
      then out[..|out| - 1] + [View(true, Items(out[|out| - 1].body.items + [item]))]
      else out + [View(true, Items([item]))]
  }

  function Translate(owns: seq<Own>): seq<View> {
    if owns == [] then [] else Add(Translate(owns[..|owns| - 1]), owns[|owns| - 1])
  }

  function AddPrompt(prompt: string, own: Own): string {
    if !own.OwnSystem? then prompt
    else if prompt != "" then prompt + "\n" + own.text
    else own.text
  }

  function Prompt(owns: seq<Own>): string {
    if owns == [] then "" else AddPrompt(Prompt(owns[..|owns| - 1]), owns[|owns| - 1])
  }

  // ----- lists inside items -----

  function RefOf(content: Content): set<PyList> {
    if content.List? then {content.ref} else {}
  }

  /** An item holds a list as the text of a text item or as the content of a tool result. */
  function HeldBy(item: Item): set<PyList> {
    match item
    case TextItem(text) => RefOf(text)
    case ToolResult(_, result) => RefOf(result)
    case _ => {}
  }

  function HeldIn(items: seq<Item>): set<PyList> {
    if items == [] then {} else HeldIn(items[..|items| - 1]) + HeldBy(items[|items| - 1])
  }

  /** The lists inside the items of a payload. */
  function Nested(out: seq<View>): set<PyList> {
    if out == [] then {}
    else
      var last := out[|out| - 1];
      Nested(out[..|out| - 1]) + if last.body.Items? then HeldIn(last.body.items) else {}
  }

  /**
   The lists of a message that its translation passes on: the whole content of an assistant or
   tool message, and the texts of a user's text items.
   */
  function Kept(m: ChatMessage): set<PyList>
    reads RefOf(m.content)
  {
    match m.role
    case System => {}
    case User => if m.content.List? then HeldTexts(m.content.ref.items) else {}
    case _ => if Truthy(m.content) then RefOf(m.content) else {}
  }

  function HeldTexts(items: seq<Item>): set<PyList> {
    if items == [] then {}
    else (if items[0].TextItem? then RefOf(items[0].text) else {}) + HeldTexts(items[1..])
  }

  function KeptFrom(messages: seq<ChatMessage>): set<PyList>
    reads ListsOf(messages)
  {
    set i, list | 0 <= i < |messages| && list in Kept(messages[i]) :: list
  }

  function OwnHeld(own: Own): set<PyList> {
    match own
    case OwnSystem(_) => {}
    case OwnUser(body) => if body.Items? then HeldIn(body.items) else {}
    case OwnAssistant(items) => HeldIn(items)
    case OwnTool(item) => HeldBy(item)
  }

  lemma {:induction false} HeldAppend(a: seq<Item>, b: seq<Item>)
    ensures HeldIn(a + b) == HeldIn(a) + HeldIn(b)
    decreases |b|
  {
    if b == [] {
      assert a + b == a;
    } else {
      assert (a + b)[..|a + b| - 1] == a + b[..|b| - 1];
      HeldAppend(a, b[..|b| - 1]);
    }
  }

  lemma HeldOne(item: Item)
    ensures HeldIn([item]) == HeldBy(item)
  {
    assert [item][..0] == [];
  }

  lemma AddNested(out: seq<View>, own: Own)
    ensures Nested(Add(out, own)) == Nested(out) + OwnHeld(own)
  {
    match own
    case OwnSystem(_) =>
    case OwnUser(body) => assert (out + [View(true, body)])[..|out|] == out;
    case OwnAssistant(items) => assert (out + [View(false, Items(items))])[..|out|] == out;
    case OwnTool(item) =>
      HeldOne(item);
      if Absorbing(out) {
        var rest, items := out[..|out| - 1], out[|out| - 1].body.items;
        HeldAppend(items, [item]);
        assert (rest + [View(true, Items(items + [item]))])[..|rest|] == rest;
      } else {
        assert (out + [View(true, Items([item]))])[..|out|] == out;
      }
  }

  lemma {:induction false} ConvertedHeld(items: seq<Item>, tools: Tools)
    ensures HeldIn(Converted(items, tools)) == HeldTexts(items)
  {
    if items == [] {
    } else {
      ConvertedHeld(items[1..], tools);
      HeldAppend(ConvertedItem(items[0], tools), Converted(items[1..], tools));
      if ConvertedItem(items[0], tools) != [] {
        HeldOne(ConvertedItem(items[0], tools)[0]);
        assert ConvertedItem(items[0], tools) == [ConvertedItem(items[0], tools)[0]];
      }
    }
  }

  lemma {:induction false} CallsHoldNothing(calls: seq<CallSpec>, tools: Tools)
    ensures HeldIn(CallItems(calls, tools)) == {}
  {
    if calls == [] {
    } else {
      CallsHoldNothing(calls[1..], tools);
      var first := ToolUseItem(calls[0].id, calls[0].name, tools.loads(calls[0].arguments).GetOr(EMPTY_OBJECT));
      HeldAppend([first], CallItems(calls[1..], tools));
      HeldOne(first);
    }
  }

  lemma OwnKeeps(m: ChatMessage, tools: Tools)
    ensures OwnHeld(OwnOf(m, tools)) == Kept(m)
  {
    match m.role
    case User =>
      if m.content.List? {
        ConvertedHeld(m.content.ref.items, tools);
      }
    case Assistant =>
      var text := if Truthy(m.content) then [TextItem(m.content)] else [];
      HeldAppend(text, CallItems(m.toolCalls, tools));
      CallsHoldNothing(m.toolCalls, tools);
      HeldOne(TextItem(m.content));
    case _ =>
  }

  /** The payload holds exactly those lists of the request that the translations of its messages pass on. */
  lemma {:induction false} NestedIsKept(messages: seq<ChatMessage>, tools: Tools, k: nat)
    requires k <= |messages|
    ensures Nested(Translate(Owns(messages, tools)[..k])) == KeptFrom(messages[..k])
  {
    if k == 0 {
    } else {
      var owns := Owns(messages, tools);
      NestedIsKept(messages, tools, k - 1);
      assert owns[..k][..k - 1] == owns[..k - 1];
      AddNested(Translate(owns[..k - 1]), owns[k - 1]);
      OwnKeeps(messages[k - 1], tools);
      KeptSnoc(messages, k);
    }
  }

  lemma KeptSnoc(messages: seq<ChatMessage>, k: nat)
    requires 0 < k <= |messages|
    ensures KeptFrom(messages[..k]) == KeptFrom(messages[..k - 1]) + Kept(messages[k - 1])
  {
    var now, before := messages[..k], messages[..k - 1];
    forall list | list in KeptFrom(now) ensures list in KeptFrom(before) + Kept(messages[k - 1]) {
      var i :| 0 <= i < k && list in Kept(now[i]);
      assert i < k - 1 ==> before[i] == now[i];
    }
    forall list | list in KeptFrom(before) ensures list in KeptFrom(now) {
      var i :| 0 <= i < k - 1 && list in Kept(before[i]);
      assert now[i] == before[i];
    }
    assert now[k - 1] == messages[k - 1];
  }

  // ----- the translator -----

  lemma ConvertedAt(items: seq<Item>, i: nat, tools: Tools, before: seq<Item>)
    requires i < |items|
    ensures before + Converted(items[i..], tools)
            == (before + ConvertedItem(items[i], tools)) + Converted(items[i + 1..], tools)
  {
    assert items[i..][1..] == items[i + 1..];
  }

  method ConvertItems(items: seq<Item>, tools: Tools) returns (translated: seq<Item>)
    ensures translated == Converted(items, tools)
  {
    translated := [];
    assert items[0..] == items;
    for i := 0 to |items|
      invariant Converted(items, tools) == translated + Converted(items[i..], tools)
    {
      ConvertedAt(items, i, tools, translated);
      match items[i] {
        case TextItem(text) => translated := translated + [TextItem(text)];
        case ImageUrl(url) =>
          var image := tools.image(url);
          if image.Some? {
            translated := translated + [ImageItem(image.value.0, image.value.1)];
          } else {
            assert translated + [] == translated;
          }
        case _ => assert translated + [] == translated;
      }
    }
  }

  /** A list is rebuilt in a new object, never passed on. */
  method ConvertContent(content: Content, tools: Tools) returns (r: Content)
    ensures content.List? ==> r.List? && fresh(r.ref) && r.ref.items == Converted(content.ref.items, tools)
    ensures !content.List? ==> r == content
  {
    if !content.List? {
      return content;
    }
    var translated := ConvertItems(content.ref.items, tools);
    var list := new PyList(translated);
    r := List(list);
  }

  /** Call `k` is tool use `k`, under its own id and name, with the parsed arguments or an empty object. */
  lemma {:induction false} CallItemAt(calls: seq<CallSpec>, k: nat, tools: Tools)
    requires k < |calls|
    ensures |CallItems(calls, tools)| == |calls|
    ensures CallItems(calls, tools)[k]
         == ToolUseItem(calls[k].id, calls[k].name,
                        match tools.loads(calls[k].arguments)
                        case Some(input) => input
                        case None => Object([]))
  {
    if |calls| > 1 {
      CallItemAt(calls[1..], if k > 0 then k - 1 else 0, tools);
    }
  }

  /** The text first, if there is any, then a tool use for every call in order. */
  method AssistantItems(m: ChatMessage, tools: Tools) returns (items: seq<Item>)
    ensures items == (if Truthy(m.content) then [TextItem(m.content)] else []) + CallItems(m.toolCalls, tools)
    ensures |items| == |m.toolCalls| + if SaysSomething(m.content) then 1 else 0
    ensures SaysSomething(m.content) ==> items[0] == TextItem(m.content)
    ensures forall k :: 0 <= k < |m.toolCalls| ==> IsCallItem(items[|items| - |m.toolCalls| + k], m.toolCalls[k], tools)
  {
    items := if Truthy(m.content) then [TextItem(m.content)] else [];
    ghost var text := items;
    assert m.toolCalls[0..] == m.toolCalls;
    for i := 0 to |m.toolCalls|
      invariant text + CallItems(m.toolCalls, tools) == items + CallItems(m.toolCalls[i..], tools)
    {
      assert m.toolCalls[i..][1..] == m.toolCalls[i + 1..];
      var call := m.toolCalls[i];
      items := items + [ToolUseItem(call.id, call.name, tools.loads(call.arguments).GetOr(EMPTY_OBJECT))];
    }
    assert items == text + CallItems(m.toolCalls, tools);
    forall k | 0 <= k < |m.toolCalls| ensures |items| == |text| + |m.toolCalls|
                                              && IsCallItem(items[|text| + k], m.toolCalls[k], tools) {
      CallItemAt(m.toolCalls, k, tools);
    }
  }

  function PayloadLists(out: seq<Sent>): set<PyList> {
    set i | 0 <= i < |out| && out[i].content.List? :: out[i].content.ref
  }

  /** No two payload messages share a list. */
  predicate Separate(out: seq<Sent>) {
    forall i, j :: 0 <= i < j < |out| && out[i].content.List? && out[j].content.List?
      ==> out[i].content.ref != out[j].content.ref
  }

  function Views(out: seq<Sent>): seq<View>
    reads PayloadLists(out)
  {
    seq(|out|, i requires 0 <= i < |out| reads PayloadLists(out) => ViewOf(out[i]))
  }

  method Emit(out: seq<Sent>, fromUser: bool, content: Content) returns (r: seq<Sent>)
    requires Separate(out) && (content.List? ==> content.ref !in PayloadLists(out))
    ensures r == out + [Sent(fromUser, content)] && Separate(r)
    ensures PayloadLists(r) == PayloadLists(out) + if content.List? then {content.ref} else {}
    ensures Views(r) == Views(out) + [View(fromUser, BodyOf(content))]
  {
    r := out + [Sent(fromUser, content)];
    assert forall i :: 0 <= i < |out| ==> r[i] == out[i];
    if content.List? {
      assert r[|out|].content.ref == content.ref;
    }
  }

  /** The in-place append to the last payload list. */
  method AppendToLast(out: seq<Sent>, item: Item)
    requires Separate(out) && Absorbing(Views(out))
    modifies PayloadLists(out)
    ensures Views(out) == old(Views(out))[..|out| - 1]
            + [View(true, Items(old(Views(out))[|out| - 1].body.items + [item]))]
  {
    var last := out[|out| - 1];
    assert Views(out)[|out| - 1] == ViewOf(last);
    last.content.ref.Append(item);
  }

  method AddMessage(out: seq<Sent>, m: ChatMessage, tools: Tools) returns (r: seq<Sent>)
    requires Separate(out) && (m.content.List? ==> m.content.ref !in PayloadLists(out))
    modifies PayloadLists(out)
    ensures Separate(r) && fresh(PayloadLists(r) - PayloadLists(out))
    ensures Views(r) == Add(old(Views(out)), old(OwnOf(m, tools)))
  {
    match m.role {
      case System => r := out;
      case User =>
        var content := ConvertContent(m.content, tools);
        r := Emit(out, true, content);
      case Assistant =>
        var items := AssistantItems(m, tools);
        var list := new PyList(items);
        r := Emit(out, false, List(list));
      case Tool =>
        r := AddToolResult(out, ToolResult(m.toolCallId, if Truthy(m.content) then m.content else Str("")));
    }
  }

  method AddToolResult(out: seq<Sent>, item: Item) returns (r: seq<Sent>)
    requires Separate(out)
    modifies PayloadLists(out)
    ensures Separate(r) && fresh(PayloadLists(r) - PayloadLists(out))
    ensures Views(r) == Add(old(Views(out)), OwnTool(item))
  {
    assert out != [] ==> Views(out)[|out| - 1] == ViewOf(out[|out| - 1]);
    if out != [] && out[|out| - 1].fromUser && out[|out| - 1].content.List? {
      AppendToLast(out, item);
      r := out;
    } else {
      var list := new PyList([item]);
      r := Emit(out, true, List(list));
    }
  }

  /**
   The loop of the source. It has no `modifies` clause: every list of the request is left as it
   was, although results are appended in place.
   */
  method TranslateMessages(messages: seq<ChatMessage>, tools: Tools) returns (out: seq<Sent>, prompt: string)
    ensures fresh(PayloadLists(out)) && Separate(out)
    ensures Views(out) == Translate(old(Owns(messages, tools)))
    ensures prompt == Prompt(old(Owns(messages, tools)))
    ensures Owns(messages, tools) == old(Owns(messages, tools))
  {
    ghost var owns := Owns(messages, tools);
    out, prompt := [], "";
    for i := 0 to |messages|
      invariant fresh(PayloadLists(out)) && Separate(out)
      invariant Views(out) == Translate(owns[..i]) && prompt == Prompt(owns[..i])
    {
      var m := messages[i];
      assert owns[..i + 1][..i] == owns[..i] && owns[i] == OwnOf(m, tools);
      if m.role == System {
        prompt := if prompt != "" then prompt + "\n" + tools.str(m.content) else tools.str(m.content);
      }
      out := AddMessage(out, m, tools);
    }
    assert owns[..|messages|] == owns;
  }

  lemma {:induction false} TextsAreOld(items: seq<Item>)
    ensures forall list :: list in HeldTexts(items) ==> allocated(list)
  {
    if items == [] {
    } else {
      TextsAreOld(items[1..]);
    }
  }

  /** What a request's messages hold was there before their translation. */
  lemma KeptIsOld(messages: seq<ChatMessage>)
    ensures forall list :: list in KeptFrom(messages) ==> allocated(list)
  {
    forall i | 0 <= i < |messages| ensures forall list :: list in Kept(messages[i]) ==> allocated(list) {
      if messages[i].content.List? {
        TextsAreOld(messages[i].content.ref.items);
      }
    }
  }

  lemma PayloadNested(messages: seq<ChatMessage>, tools: Tools)
    ensures Nested(Translate(Owns(messages, tools))) == KeptFrom(messages)
  {
    NestedIsKept(messages, tools, |messages|);
    assert messages[..|messages|] == messages && Owns(messages, tools)[..|messages|] == Owns(messages, tools);
  }

  /**
   The messages and the prompt of a payload. The lists of its messages are new; the lists inside
   its items are lists of the request, exactly those that `Kept` names, and since the loop
   appends to new lists only, none of them is ever appended to.
   */
  method TranslateRequest(messages: seq<ChatMessage>, tools: Tools) returns (out: seq<Sent>, prompt: string)
    ensures fresh(PayloadLists(out)) && Separate(out)
    ensures Views(out) == Translate(old(Owns(messages, tools))) && prompt == Prompt(old(Owns(messages, tools)))
    ensures Nested(Views(out)) == old(KeptFrom(messages)) && PayloadLists(out) !! Nested(Views(out))
    ensures Owns(messages, tools) == old(Owns(messages, tools)) && KeptFrom(messages) == old(KeptFrom(messages))
  {
    PayloadNested(messages, tools);
    ghost var kept := KeptFrom(messages);
    KeptIsOld(messages);
    out, prompt := TranslateMessages(messages, tools);
    PayloadNested(messages, tools);
  }

  /**
   Every attempt of a retry loop translates the same request anew: an equal payload in lists of
   its own, around the same lists of the request.
   */
  method PayloadsOfAttempts(messages: seq<ChatMessage>, tools: Tools, attempts: nat) returns (payloads: seq<seq<Sent>>)
    ensures |payloads| == attempts
    ensures forall k :: 0 <= k < attempts ==>
              fresh(PayloadLists(payloads[k])) && Views(payloads[k]) == Translate(old(Owns(messages, tools)))
    ensures forall j, k :: 0 <= j < k < attempts ==> PayloadLists(payloads[j]) !! PayloadLists(payloads[k])
    ensures forall k :: 0 <= k < attempts ==> Nested(Views(payloads[k])) == old(KeptFrom(messages))
    ensures Owns(messages, tools) == old(Owns(messages, tools))
  {
    ghost var views, kept := Translate(Owns(messages, tools)), KeptFrom(messages);
    PayloadNested(messages, tools);
    payloads := [];
    for i := 0 to attempts
      invariant |payloads| == i && Translate(Owns(messages, tools)) == views
      invariant Owns(messages, tools) == old(Owns(messages, tools))
      invariant forall k :: 0 <= k < i ==> fresh(PayloadLists(payloads[k])) && Views(payloads[k]) == views
      invariant forall j, k :: 0 <= j < k < i ==> PayloadLists(payloads[j]) !! PayloadLists(payloads[k])
    {
      var payload, _ := TranslateRequest(messages, tools);
      assert forall k :: 0 <= k < i ==> PayloadLists(payloads[k]) !! PayloadLists(payload);
      payloads := payloads + [payload];
    }
  }
}
