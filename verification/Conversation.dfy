/**
 What the payload says of each message of a request, from the request's messages to the items of
 the payload (app/providers/anthropic.py:48-107 and 137-168).
 */
module Conversation {
  import opened Wrappers
  import opened AnthropicResponse
  import opened AnthropicRequest
  import opened Coalescing

  /** The payload messages of a request, with their lists looked up. */
  function Payload(messages: seq<ChatMessage>, tools: Tools): seq<View>
    reads ListsOf(messages)
  {
    Translate(Owns(messages, tools))
  }

  /** Where in the payload message `i` went. */
  function Place(messages: seq<ChatMessage>, tools: Tools, i: nat): int
    requires i < |messages|
    reads ListsOf(messages)
  {
    Home(Owns(messages, tools), i)
  }

  /**
   An assistant message is an assistant message of the payload: its text, if it says something,
   then one tool use for each of its calls, in order, and nothing else.
   */
  lemma AssistantIsSent(messages: seq<ChatMessage>, tools: Tools, i: nat)
    requires i < |messages| && messages[i].role == Assistant
    ensures 0 <= Place(messages, tools, i) < |Payload(messages, tools)|
    ensures var m, view := messages[i], Payload(messages, tools)[Place(messages, tools, i)];
            && !view.fromUser && view.body.Items?
            && |view.body.items| == |m.toolCalls| + (if SaysSomething(m.content) then 1 else 0)
            && (SaysSomething(m.content) ==> view.body.items[0] == TextItem(m.content))
            && forall k :: 0 <= k < |m.toolCalls| ==>
                 IsCallItem(view.body.items[|view.body.items| - |m.toolCalls| + k], m.toolCalls[k], tools)
  {
    var owns, m := Owns(messages, tools), messages[i];
    assert owns[..|owns|] == owns;
    SpokenLands(owns, i, |owns|);
    forall k | 0 <= k < |m.toolCalls|
      ensures |CallItems(m.toolCalls, tools)| == |m.toolCalls|
              && IsCallItem(CallItems(m.toolCalls, tools)[k], m.toolCalls[k], tools)
    {
      CallItemAt(m.toolCalls, k, tools);
    }
  }

  /** A tool message is a tool result of the payload, under the id of its call, with its content or an empty string. */
  lemma ResultIsSent(messages: seq<ChatMessage>, tools: Tools, i: nat)
    requires i < |messages| && messages[i].role == Tool
    ensures 0 <= Place(messages, tools, i) < |Payload(messages, tools)|
    ensures var m, view := messages[i], Payload(messages, tools)[Place(messages, tools, i)];
            && view.fromUser && view.body.Items?
            && ToolResult(m.toolCallId, if SaysSomething(m.content) then m.content else Str("")) in view.body.items
  {
    var owns := Owns(messages, tools);
    assert owns[..|owns|] == owns;
    ResultLands(owns, i, |owns|);
  }

  /** A result whose id is that of an earlier call names the same id as that call's tool use, in a later message. */
  lemma ResultNamesItsCall(messages: seq<ChatMessage>, tools: Tools, a: nat, k: nat, i: nat)
    requires a < i < |messages| && messages[a].role == Assistant && messages[i].role == Tool
    requires k < |messages[a].toolCalls| && messages[i].toolCallId == messages[a].toolCalls[k].id
    ensures 0 <= Place(messages, tools, a) < Place(messages, tools, i) < |Payload(messages, tools)|
    ensures var call := Payload(messages, tools)[Place(messages, tools, a)];
            var answer := Payload(messages, tools)[Place(messages, tools, i)];
            && call.body.Items? && answer.body.Items?
            && exists p, q ::
                 && 0 <= p < |call.body.items| && IsCallItem(call.body.items[p], messages[a].toolCalls[k], tools)
                 && 0 <= q < |answer.body.items| && answer.body.items[q].ToolResult?
                 && answer.body.items[q].toolUseId == call.body.items[p].id
  {
    AssistantIsSent(messages, tools, a);
    ResultIsSent(messages, tools, i);
    ResultAfterCall(Owns(messages, tools), a, i);
    var call := Payload(messages, tools)[Place(messages, tools, a)].body.items;
    var answer := Payload(messages, tools)[Place(messages, tools, i)].body.items;
    var m := messages[i];
    var q :| 0 <= q < |answer|
             && answer[q] == ToolResult(m.toolCallId, if SaysSomething(m.content) then m.content else Str(""));
    assert IsCallItem(call[|call| - |messages[a].toolCalls| + k], messages[a].toolCalls[k], tools);
  }

  // ----- user messages -----

  /** What a user's list keeps: texts and data-URL images. */
  predicate Convertible(item: Item, tools: Tools) {
    item.TextItem? || (item.ImageUrl? && tools.image(item.url).Some?)
  }

  function ConvertibleCount(items: seq<Item>, tools: Tools): nat {
    if items == [] then 0
    else ConvertibleCount(items[1..], tools) + if Convertible(items[0], tools) then 1 else 0
  }

  /** The payload's item for one of the user's. */
  ghost predicate Converts(sent: Item, item: Item, tools: Tools) {
    && (item.TextItem? ==> sent == TextItem(item.text))
    && (item.ImageUrl? ==> tools.image(item.url).Some? && sent.ImageItem?
                           && (sent.mediaType, sent.data) == tools.image(item.url).value)
  }

  /** The kept items stand in order: each has as many before it as the user's list has. */
  lemma {:induction false} ConvertedInOrder(items: seq<Item>, tools: Tools, j: nat)
    requires j < |items| && Convertible(items[j], tools)
    ensures |Converted(items, tools)| == ConvertibleCount(items, tools)
    ensures ConvertibleCount(items[..j], tools) < ConvertibleCount(items, tools)
    ensures Converts(Converted(items, tools)[ConvertibleCount(items[..j], tools)], items[j], tools)
    decreases |items|
  {
    ConvertedLength(items, tools);
    ConvertedLength(items[1..], tools);
    if j > 0 {
      ConvertedInOrder(items[1..], tools, j - 1);
      assert items[..j][1..] == items[1..][..j - 1];
    }
  }

  lemma {:induction false} ConvertedLength(items: seq<Item>, tools: Tools)
    ensures |Converted(items, tools)| == ConvertibleCount(items, tools)
  {
    if items == [] {
    } else {
      ConvertedLength(items[1..], tools);
    }
  }

  /**
   A user message is a user message of the payload: other content unchanged, a list as the list of
   its texts and images, in order, before any results that joined it.
   */
  lemma UserIsSent(messages: seq<ChatMessage>, tools: Tools, i: nat)
    requires i < |messages| && messages[i].role == User
    ensures 0 <= Place(messages, tools, i) < |Payload(messages, tools)|
    ensures var content, view := messages[i].content, Payload(messages, tools)[Place(messages, tools, i)];
            && view.fromUser
            && (!content.List? ==> view.body == Whole(content))
            && (content.List? ==>
                  && view.body.Items? && ConvertibleCount(content.ref.items, tools) <= |view.body.items|
                  && forall j :: 0 <= j < |content.ref.items| && Convertible(content.ref.items[j], tools) ==>
                       var at := ConvertibleCount(content.ref.items[..j], tools);
                       && at < ConvertibleCount(content.ref.items, tools)
                       && Converts(view.body.items[at], content.ref.items[j], tools))
  {
    var owns, content := Owns(messages, tools), messages[i].content;
    assert owns[..|owns|] == owns;
    SpokenLands(owns, i, |owns|);
    if content.List? {
      ConvertedLength(content.ref.items, tools);
      forall j | 0 <= j < |content.ref.items| && Convertible(content.ref.items[j], tools)
        ensures var at := ConvertibleCount(content.ref.items[..j], tools);
                && at < ConvertibleCount(content.ref.items, tools)
                && Converts(Converted(content.ref.items, tools)[at], content.ref.items[j], tools)
      {
        ConvertedInOrder(content.ref.items, tools, j);
      }
    }
  }

  // ----- the system prompt -----

  function SystemCount(messages: seq<ChatMessage>): nat {
    if messages == [] then 0
    else SystemCount(messages[..|messages| - 1]) + if messages[|messages| - 1].role == System then 1 else 0
  }

  /** The prompt joins the contents of the system messages, as text and in order. */
  lemma {:induction false} SystemIsPrompted(messages: seq<ChatMessage>, tools: Tools, n: nat, i: nat)
    requires i < n <= |messages|
    ensures |SystemTexts(Owns(messages, tools)[..n])| == SystemCount(messages[..n])
    ensures messages[i].role == System ==>
              && SystemCount(messages[..i]) < SystemCount(messages[..n])
              && SystemTexts(Owns(messages, tools)[..n])[SystemCount(messages[..i])] == tools.str(messages[i].content)
  {
    var owns := Owns(messages, tools);
    assert messages[..n][..n - 1] == messages[..n - 1] && owns[..n][..n - 1] == owns[..n - 1];
    if n == 1 {
      assert messages[..0] == [] && owns[..0] == [];
    } else {
      SystemIsPrompted(messages, tools, n - 1, if i < n - 1 then i else 0);
    }
  }
}
