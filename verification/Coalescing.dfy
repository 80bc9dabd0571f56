/** What coalescing tool results keeps and where it puts them (app/providers/anthropic.py:48-107). */
module Coalescing {
  import opened AnthropicRequest

  // ----- nothing is lost, reordered or moved to another role -----

  /** One piece of content with the role it is sent under. */
  datatype Entry = Entry(fromUser: bool, piece: Piece)

  datatype Piece = WholePiece(content: Content) | ItemPiece(item: Item)

  function ItemEntries(fromUser: bool, items: seq<Item>): seq<Entry> {
    if items == [] then []
    else ItemEntries(fromUser, items[..|items| - 1]) + [Entry(fromUser, ItemPiece(items[|items| - 1]))]
  }

  function Entries(view: View): seq<Entry> {
    match view.body
    case Whole(content) => [Entry(view.fromUser, WholePiece(content))]
    case Items(items) => ItemEntries(view.fromUser, items)
  }

  function Flatten(out: seq<View>): seq<Entry> {
    if out == [] then [] else Flatten(out[..|out| - 1]) + Entries(out[|out| - 1])
  }

  /** A message's own translation, alone. */
  function OwnEntries(own: Own): seq<Entry> {
    match own
    case OwnSystem(_) => []
    case OwnUser(body) => Entries(View(true, body))
    case OwnAssistant(items) => ItemEntries(false, items)
    case OwnTool(item) => [Entry(true, ItemPiece(item))]
  }

  function FlattenOwn(owns: seq<Own>): seq<Entry> {
    if owns == [] then [] else FlattenOwn(owns[..|owns| - 1]) + OwnEntries(owns[|owns| - 1])
  }

  lemma FlattenSnoc(out: seq<View>, view: View)
    ensures Flatten(out + [view]) == Flatten(out) + Entries(view)
  {
    assert (out + [view])[..|out|] == out;
  }

  lemma ItemEntriesSnoc(fromUser: bool, items: seq<Item>, item: Item)
    ensures ItemEntries(fromUser, items + [item]) == ItemEntries(fromUser, items) + [Entry(fromUser, ItemPiece(item))]
  {
    assert (items + [item])[..|items|] == items;
  }

  /** Growing the last list adds one entry at the end. */
  lemma GrowFlattens(rest: seq<View>, items: seq<Item>, item: Item)
    ensures Flatten(rest + [View(true, Items(items + [item]))])
            == Flatten(rest + [View(true, Items(items))]) + [Entry(true, ItemPiece(item))]
  {
    FlattenSnoc(rest, View(true, Items(items + [item])));
    FlattenSnoc(rest, View(true, Items(items)));
    ItemEntriesSnoc(true, items, item);
  }

  lemma AddFlattens(out: seq<View>, own: Own)
    ensures Flatten(Add(out, own)) == Flatten(out) + OwnEntries(own)
  {
    match own
    case OwnSystem(_) =>
    case OwnUser(body) => FlattenSnoc(out, View(true, body));
    case OwnAssistant(items) => FlattenSnoc(out, View(false, Items(items)));
    case OwnTool(item) =>
      if Absorbing(out) {
        var rest, items := out[..|out| - 1], out[|out| - 1].body.items;
        assert out == rest + [View(true, Items(items))];
        GrowFlattens(rest, items, item);
      } else {
        FlattenSnoc(out, View(true, Items([item])));
        assert ItemEntries(true, [item]) == [] + [Entry(true, ItemPiece(item))] by { assert [item][..0] == []; }
      }
  }

  /** Flattening the payload gives, in order and under the right role, every message's own translation. */
  lemma {:induction false} MeaningPreserved(owns: seq<Own>)
    ensures Flatten(Translate(owns)) == FlattenOwn(owns)
  {
    if owns == [] {
    } else {
      MeaningPreserved(owns[..|owns| - 1]);
      AddFlattens(Translate(owns[..|owns| - 1]), owns[|owns| - 1]);
    }
  }

  // ----- how many messages are sent -----

  /**
   Whether the last message that is not a system prompt takes a tool result: a tool message, or a
   user message with a list.
   */
  predicate TakesResult(owns: seq<Own>) {
    owns != [] &&
    match owns[|owns| - 1]
    case OwnSystem(_) => TakesResult(owns[..|owns| - 1])
    case OwnUser(body) => body.Items?
    case OwnAssistant(_) => false
    case OwnTool(_) => true
  }

  lemma {:induction false} AbsorbingIffTakesResult(owns: seq<Own>)
    ensures Absorbing(Translate(owns)) <==> TakesResult(owns)
  {
    if owns == [] {
    } else {
      AbsorbingIffTakesResult(owns[..|owns| - 1]);
    }
  }

  /** User and assistant messages. */
  function Spoken(owns: seq<Own>): nat {
    if owns == [] then 0
    else
      var last := owns[|owns| - 1];
      Spoken(owns[..|owns| - 1]) + if last.OwnUser? || last.OwnAssistant? then 1 else 0
  }

  /** Runs of tool messages that no preceding message takes in, counted at their first message. */
  function LooseRuns(owns: seq<Own>): nat {
    if owns == [] then 0
    else
      var rest, last := owns[..|owns| - 1], owns[|owns| - 1];
      LooseRuns(rest) + if last.OwnTool? && !TakesResult(rest) then 1 else 0
  }

  lemma {:induction false} PayloadLength(owns: seq<Own>)
    ensures |Translate(owns)| == Spoken(owns) + LooseRuns(owns)
  {
    if owns == [] {
    } else {
      PayloadLength(owns[..|owns| - 1]);
      AbsorbingIffTakesResult(owns[..|owns| - 1]);
    }
  }

  // ----- where a tool result lands -----

  /** The payload message that received message `i`. */
  function Home(owns: seq<Own>, i: nat): int
    requires i < |owns|
  {
    |Translate(owns[..i + 1])| - 1
  }

  lemma TranslateNext(owns: seq<Own>, i: nat)
    requires i < |owns|
    ensures Translate(owns[..i + 1]) == Add(Translate(owns[..i]), owns[i])
  {
    assert owns[..i + 1][..i] == owns[..i];
  }

  /** A user message stays a user message with a list that only grows. */
  ghost predicate Holds(out: seq<View>, at: int, item: Item) {
    0 <= at < |out| && out[at].fromUser && out[at].body.Items? && item in out[at].body.items
  }

  lemma AddHolds(out: seq<View>, own: Own, at: int, item: Item)
    requires Holds(out, at, item)
    ensures Holds(Add(out, own), at, item)
  {
  }

  /** A tool result is found, to the end, in the user message where it landed. */
  lemma {:induction false} ResultLands(owns: seq<Own>, i: nat, k: nat)
    requires i < k <= |owns| && owns[i].OwnTool?
    ensures Holds(Translate(owns[..k]), Home(owns, i), owns[i].item)
  {
    TranslateNext(owns, k - 1);
    if i < k - 1 {
      ResultLands(owns, i, k - 1);
      AddHolds(Translate(owns[..k - 1]), owns[k - 1], Home(owns, i), owns[i].item);
    } else {
      var out := Translate(owns[..i]);
      var grown := Add(out, owns[i]);
      var items := grown[|grown| - 1].body.items;
      assert items[|items| - 1] == owns[i].item;
    }
  }

  /** A user or assistant message is found, to the end, where it was put: results may join a user's list behind it. */
  lemma {:induction false} SpokenLands(owns: seq<Own>, i: nat, k: nat)
    requires i < k <= |owns| && (owns[i].OwnUser? || owns[i].OwnAssistant?)
    ensures 0 <= Home(owns, i) < |Translate(owns[..k])|
    ensures StandsFor(Translate(owns[..k])[Home(owns, i)], owns[i])
  {
    TranslateNext(owns, k - 1);
    if i < k - 1 {
      SpokenLands(owns, i, k - 1);
      AddStands(Translate(owns[..k - 1]), owns[k - 1], Home(owns, i), owns[i]);
    }
  }

  lemma AddStands(out: seq<View>, later: Own, at: int, own: Own)
    requires 0 <= at < |out| && StandsFor(out[at], own)
    ensures at < |Add(out, later)| && StandsFor(Add(out, later)[at], own)
  {
  }

  ghost predicate StandsFor(view: View, own: Own) {
    match own
    case OwnAssistant(items) => view == View(false, Items(items))
    case OwnUser(Whole(content)) => view == View(true, Whole(content))
    case OwnUser(Items(items)) => view.fromUser && view.body.Items? && items <= view.body.items
    case _ => false
  }

  /** A tool result stands in a later payload message than every assistant message before it. */
  lemma ResultAfterCall(owns: seq<Own>, a: nat, i: nat)
    requires a < i < |owns| && owns[a].OwnAssistant? && owns[i].OwnTool?
    ensures Home(owns, a) < Home(owns, i)
  {
    SpokenLands(owns, a, i + 1);
    ResultLands(owns, i, i + 1);
  }

  /** Only tool and system messages from `i` to `j`. */
  predicate ToolRun(owns: seq<Own>, i: nat, j: nat) {
    i <= j < |owns| && owns[i].OwnTool? && owns[j].OwnTool?
    && forall k :: i <= k <= j ==> owns[k].OwnTool? || owns[k].OwnSystem?
  }

  lemma {:induction false} RunKeepsLength(owns: seq<Own>, i: nat, k: nat)
    requires i <= k < |owns| && owns[i].OwnTool?
    requires forall l :: i <= l <= k ==> owns[l].OwnTool? || owns[l].OwnSystem?
    ensures |Translate(owns[..k + 1])| == |Translate(owns[..i + 1])| && Absorbing(Translate(owns[..k + 1]))
  {
    TranslateNext(owns, k);
    if i < k {
      RunKeepsLength(owns, i, k - 1);
    }
  }

  /** Every run of tool messages, system prompts in between ignored, lands in one user message of the payload. */
  lemma RunLandsTogether(owns: seq<Own>, i: nat, j: nat)
    requires ToolRun(owns, i, j)
    ensures Home(owns, i) == Home(owns, j)
    ensures Holds(Translate(owns), Home(owns, i), owns[i].item) && Holds(Translate(owns), Home(owns, i), owns[j].item)
  {
    RunKeepsLength(owns, i, j);
    assert owns[..|owns|] == owns;
    ResultLands(owns, i, |owns|);
    ResultLands(owns, j, |owns|);
  }

  // ----- the system prompt -----

  function SystemTexts(owns: seq<Own>): seq<string> {
    if owns == [] then []
    else
      var rest, last := SystemTexts(owns[..|owns| - 1]), owns[|owns| - 1];
      if last.OwnSystem? then rest + [last.text] else rest
  }

  function Join(texts: seq<string>): string {
    if texts == [] then ""
    else if |texts| == 1 then texts[0]
    else Join(texts[..|texts| - 1]) + "\n" + texts[|texts| - 1]
  }

  /** Empty texts in front leave no trace; later ones leave an empty line. */
  function DropLeadingEmpty(texts: seq<string>): seq<string> {
    if texts != [] && texts[0] == "" then DropLeadingEmpty(texts[1..]) else texts
  }

  lemma {:induction false} DropSnoc(texts: seq<string>, last: string)
    ensures DropLeadingEmpty(texts + [last])
         == if DropLeadingEmpty(texts) == [] then (if last == "" then [] else [last])
           else DropLeadingEmpty(texts) + [last]
  {
    if texts == [] {
      assert [] + [last] == [last] && [last][1..] == [];
    } else {
      assert (texts + [last])[1..] == texts[1..] + [last];
      DropSnoc(texts[1..], last);
    }
  }

  lemma {:induction false} JoinEmpty(texts: seq<string>)
    requires texts != [] && texts[0] != ""
    ensures Join(texts) != ""
  {
    if |texts| > 1 {
      JoinEmpty(texts[..|texts| - 1]);
    }
  }

  lemma {:induction false} DroppedHead(texts: seq<string>)
    ensures DropLeadingEmpty(texts) != [] ==> DropLeadingEmpty(texts)[0] != ""
  {
    if texts != [] && texts[0] == "" {
      DroppedHead(texts[1..]);
    }
  }

  /** The prompt is the system messages joined by newlines, leading empty ones dropped. */
  lemma {:induction false} PromptIsJoin(owns: seq<Own>)
    ensures Prompt(owns) == Join(DropLeadingEmpty(SystemTexts(owns)))
  {
    if owns == [] {
    } else {
      var rest, last := owns[..|owns| - 1], owns[|owns| - 1];
      PromptIsJoin(rest);
      if last.OwnSystem? {
        var kept := DropLeadingEmpty(SystemTexts(rest));
        DropSnoc(SystemTexts(rest), last.text);
        DroppedHead(SystemTexts(rest));
        if kept != [] {
          JoinEmpty(kept);
          assert (kept + [last.text])[..|kept|] == kept;
        }
      }
    }
  }
}
