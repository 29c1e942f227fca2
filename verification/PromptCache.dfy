// Cache markers in an Anthropic request body (src/deepintshield/_prompt_cache.py, `_inject_anthropic`).

module PromptCache {
  import opened Common
  import ChatEvents

  // ---------------------------------------------------------------------------------------------
  // Bodies and markers
  // ---------------------------------------------------------------------------------------------

  datatype Json = Scalar(id: int) | Text(text: string) | List(items: seq<Json>) | Object(fields: map<string, Json>)

  type Body = map<string, Json>

  const CONTROL := "cache_control"
  const LARGE := 12000

  /** The places that markers were asked for. */
  datatype Places = Places(system: bool, tools: bool, largeBlocks: bool)

  function Marker(ttl: string): Json {
    var m := map["type" := Text("ephemeral")];
    Object(if ttl != "" && ttl != "5m" then m["ttl" := Text(ttl)] else m)
  }

  predicate Marked(j: Json) {
    j.Object? && CONTROL in j.fields
  }

  /** The list at a key, or nothing. */
  function ListAt(fields: map<string, Json>, key: string): seq<Json> {
    if key in fields && fields[key].List? then fields[key].items else []
  }

  function Content(message: Json): seq<Json> {
    if message.Object? then ListAt(message.fields, "content") else []
  }

  predicate AnyMarked(blocks: seq<Json>) {
    exists i | 0 <= i < |blocks| :: Marked(blocks[i])
  }

  /** The caller configured caching: on the body, on a block, or on a block within a message. */
  predicate CallerMarked(body: Body) {
    || CONTROL in body
    || AnyMarked(ListAt(body, "system")) || AnyMarked(ListAt(body, "tools")) || AnyMarked(ListAt(body, "messages"))
    || exists i | 0 <= i < |ListAt(body, "messages")| :: AnyMarked(Content(ListAt(body, "messages")[i]))
  }

  /** `_mark_anthropic_block_cacheable`. */
  function WithMark(block: Json, marker: Json): Json {
    if !block.Object? || CONTROL in block.fields then block else Object(block.fields[CONTROL := marker])
  }

  function MarkLast(blocks: seq<Json>, marker: Json): (r: seq<Json>)
    ensures |r| == |blocks|
  {
    if blocks == [] then [] else blocks[|blocks| - 1 := WithMark(blocks[|blocks| - 1], marker)]
  }

  /** A list, marked at its end. */
  function MarkAt(body: Body, key: string, marker: Json): Body {
    if key in body && body[key].List? then body[key := List(MarkLast(body[key].items, marker))] else body
  }

  function TextBlock(text: string): map<string, Json> {
    map["type" := Text("text"), "text" := Text(text)]
  }

  /** A system prompt that is a string and becomes a block. */
  predicate Promoted(body: Body) {
    "system" in body && body["system"].Text? && ChatEvents.Strip(body["system"].text) != ""
  }

  function MarkSystem(body: Body, marker: Json): Body {
    if Promoted(body) then body["system" := List([Object(TextBlock(body["system"].text)[CONTROL := marker])])]
    else MarkAt(body, "system", marker)
  }

  predicate FromUser(message: Json) {
    message.Object? && "role" in message.fields && message.fields["role"] == Text("user")
  }

  /** The last message of the user. */
  function LastUser(messages: seq<Json>): (i: Option<nat>)
    ensures i.Some? ==> i.value < |messages| && FromUser(messages[i.value])
  {
    if messages == [] then None
    else if FromUser(messages[|messages| - 1]) then Some(|messages| - 1)
    else LastUser(messages[..|messages| - 1])
  }

  predicate LargeText(block: Json) {
    && block.Object? && "type" in block.fields && block.fields["type"] == Text("text")
    && "text" in block.fields && block.fields["text"].Text? && |block.fields["text"].text| >= LARGE
  }

  function MarkMessage(message: Json, marker: Json): Json {
    var content := Content(message);
    if content == [] || !LargeText(content[|content| - 1]) then message
    else Object(message.fields["content" := List(MarkLast(content, marker))])
  }

  function MarkLarge(body: Body, marker: Json): Body {
    var messages := ListAt(body, "messages");
    var i := LastUser(messages);
    if i.None? then body else body["messages" := List(messages[i.value := MarkMessage(messages[i.value], marker)])]
  }

  function Inject(body: Body, marker: Json, places: Places): Body {
    if CallerMarked(body) then body
    else
      var first := if places.system then MarkSystem(body, marker) else body;
      var second := if places.tools then MarkAt(first, "tools", marker) else first;
      if places.largeBlocks then MarkLarge(second, marker) else second
  }

  // ---------------------------------------------------------------------------------------------
  // The request body
  // ---------------------------------------------------------------------------------------------

  class Request {
    var body: Body

    constructor (body: Body)
      ensures this.body == body
    {
      this.body := body;
    }

    method FindMark(blocks: seq<Json>) returns (found: bool)
      ensures found <==> AnyMarked(blocks)
    {
      for i := 0 to |blocks|
        invariant forall j | 0 <= j < i :: !Marked(blocks[j])
      {
        if Marked(blocks[i]) {
          return true;
        }
      }
      found := false;
    }

    /** The search for a marker of the caller's. */
    method Configured() returns (marked: bool)
      ensures marked <==> CallerMarked(body)
    {
      if CONTROL in body {
        return true;
      }
      marked := FindMark(ListAt(body, "system"));
      if marked {
        return;
      }
      marked := FindMark(ListAt(body, "tools"));
      if marked {
        return;
      }
      var messages := ListAt(body, "messages");
      for i := 0 to |messages|
        invariant forall j | 0 <= j < i :: !Marked(messages[j]) && !AnyMarked(Content(messages[j]))
      {
        if Marked(messages[i]) {
          return true;
        }
        marked := FindMark(Content(messages[i]));
        if marked {
          return;
        }
      }
      marked := false;
    }

    /** `_inject_anthropic`. */
    method InjectAnthropic(ttl: string, places: Places)
      modifies this
      ensures body == Inject(old(body), Marker(ttl), places)
    {
      hide CallerMarked, MarkLast, MarkLarge, WithMark, Marker;
      var configured := Configured();
      if configured {
        return;
      }
      var marker := Marker(ttl);
      if places.system {
        if Promoted(body) {
          body := body["system" := List([Object(TextBlock(body["system"].text)[CONTROL := marker])])];
        } else if "system" in body && body["system"].List? {
          body := body["system" := List(MarkLast(body["system"].items, marker))];
        }
      }
      if places.tools && "tools" in body && body["tools"].List? {
        body := body["tools" := List(MarkLast(body["tools"].items, marker))];
      }
      if places.largeBlocks {
        MarkLargeBlock(marker);
      }
    }

    /** The last content block of the user's last message, if it is a large text. */
    method MarkLargeBlock(marker: Json)
      modifies this
      ensures body == MarkLarge(old(body), marker)
    {
      hide MarkMessage, FromUser;
      var messages := ListAt(body, "messages");
      var i := |messages|;
      assert messages[..i] == messages;
      while i > 0
        invariant 0 <= i <= |messages| && LastUser(messages) == LastUser(messages[..i]) && body == old(body)
      {
        i := i - 1;
        assert messages[..i + 1][..i] == messages[..i];
        if FromUser(messages[i]) {
          body := body["messages" := List(messages[i := MarkMessage(messages[i], marker)])];
          return;
        }
      }
    }
  }

  // ---------------------------------------------------------------------------------------------
  // Marking twice
  // ---------------------------------------------------------------------------------------------

  /** Marking a list changes nothing, or leaves a mark in it. */
  lemma MarkLastShows(blocks: seq<Json>, marker: Json)
    ensures MarkLast(blocks, marker) == blocks || AnyMarked(MarkLast(blocks, marker))
    ensures AnyMarked(blocks) ==> AnyMarked(MarkLast(blocks, marker))
  {
  }

  lemma MarkAtShows(body: Body, key: string, marker: Json)
    requires key == "system" || key == "tools"
    ensures MarkAt(body, key, marker) == body || CallerMarked(MarkAt(body, key, marker))
    ensures CallerMarked(body) ==> CallerMarked(MarkAt(body, key, marker))
  {
    hide MarkLast, AnyMarked, Content;
    MarkLastShows(ListAt(body, key), marker);
  }

  lemma MarkSystemShows(body: Body, marker: Json)
    ensures MarkSystem(body, marker) == body || CallerMarked(MarkSystem(body, marker))
  {
    if Promoted(body) {
      assert Marked(ListAt(MarkSystem(body, marker), "system")[0]);
    } else {
      MarkAtShows(body, "system", marker);
    }
  }

  lemma MarkMessageShows(message: Json, marker: Json)
    ensures MarkMessage(message, marker) == message || AnyMarked(Content(MarkMessage(message, marker)))
    ensures Marked(message) ==> Marked(MarkMessage(message, marker))
    ensures AnyMarked(Content(message)) ==> AnyMarked(Content(MarkMessage(message, marker)))
  {
    hide MarkLast, AnyMarked;
    var content := Content(message);
    if content != [] {
      MarkLastShows(content, marker);
      assert message.fields["content" := List(content)] == message.fields;
    }
  }

  lemma MarkLargeShows(body: Body, marker: Json)
    ensures MarkLarge(body, marker) == body || CallerMarked(MarkLarge(body, marker))
    ensures CallerMarked(body) ==> CallerMarked(MarkLarge(body, marker))
  {
    hide MarkMessage, Content;
    var messages := ListAt(body, "messages");
    var i := LastUser(messages);
    if i.Some? {
      var after := messages[i.value := MarkMessage(messages[i.value], marker)];
      MarkMessageShows(messages[i.value], marker);
      assert ListAt(MarkLarge(body, marker), "messages") == after;
      MarksStay(messages, i.value, after[i.value]);
      if after[i.value] == messages[i.value] {
        assert after == messages;
        assert MarkLarge(body, marker) == body;
      } else {
        assert AnyMarked(Content(after[i.value]));
      }
    }
  }

  /** A message that keeps its marks. */
  lemma MarksStay(messages: seq<Json>, i: nat, message: Json)
    requires i < |messages|
    requires Marked(messages[i]) ==> Marked(message)
    requires AnyMarked(Content(messages[i])) ==> AnyMarked(Content(message))
    ensures var after := messages[i := message];
      && (AnyMarked(messages) ==> AnyMarked(after))
      && ((exists j | 0 <= j < |messages| :: AnyMarked(Content(messages[j]))) ==>
            exists j | 0 <= j < |after| :: AnyMarked(Content(after[j])))
  {
    hide Content, Marked;
    var after := messages[i := message];
    if AnyMarked(messages) {
      var j: nat :| j < |messages| && Marked(messages[j]);
      assert Marked(after[j]);
    }
    if j: nat :| j < |messages| && AnyMarked(Content(messages[j])) {
      assert AnyMarked(Content(after[j]));
    }
  }

  /** Injecting is idempotent. */
  lemma InjectTwice(body: Body, marker: Json, places: Places)
    ensures Inject(Inject(body, marker, places), marker, places) == Inject(body, marker, places)
  {
    hide CallerMarked, MarkSystem, MarkAt, MarkLarge;
    var first := if places.system then MarkSystem(body, marker) else body;
    var second := if places.tools then MarkAt(first, "tools", marker) else first;
    MarkSystemShows(body, marker);
    MarkAtShows(first, "tools", marker);
    MarkLargeShows(second, marker);
  }

  // ---------------------------------------------------------------------------------------------
  // Undoing the markers
  // ---------------------------------------------------------------------------------------------

  function Unmark(block: Json): Json {
    if block.Object? then Json.Object(block.fields - {CONTROL}) else block
  }

  function UnmarkAll(blocks: seq<Json>): (r: seq<Json>)
    ensures |r| == |blocks| && forall i | 0 <= i < |r| :: r[i] == Unmark(blocks[i])
  {
    seq(|blocks|, i requires 0 <= i < |blocks| => Unmark(blocks[i]))
  }

  function EraseAt(fields: map<string, Json>, key: string): map<string, Json> {
    if key in fields && fields[key].List? then fields[key := List(UnmarkAll(fields[key].items))] else fields
  }

  function EraseIn(message: Json): Json {
    if message.Object? then Json.Object(EraseAt(message.fields, "content")) else message
  }

  function EraseMessages(messages: seq<Json>): (r: seq<Json>)
    ensures |r| == |messages| && forall i | 0 <= i < |r| :: r[i] == EraseIn(messages[i])
  {
    seq(|messages|, i requires 0 <= i < |messages| => EraseIn(messages[i]))
  }

  /** Every marker on a block of the system prompt, of the tools and of a message's content is removed. */
  function Erase(body: Body): Body {
    var body := EraseAt(EraseAt(body, "system"), "tools");
    if "messages" in body && body["messages"].List?
      then body["messages" := List(EraseMessages(body["messages"].items))] else body
  }

  /** The system prompt is a string again. */
  function Demote(body: Body, text: string): Body {
    body["system" := Text(text)]
  }

  predicate Agree(a: Body, b: Body, key: string) {
    (key in a <==> key in b) && (key in a ==> a[key] == b[key])
  }

  lemma UnmarkUnmarked(blocks: seq<Json>)
    requires !AnyMarked(blocks)
    ensures UnmarkAll(blocks) == blocks
  {
    forall i | 0 <= i < |blocks|
      ensures Unmark(blocks[i]) == blocks[i]
    {
      assert !Marked(blocks[i]);
    }
  }

  lemma UnmarkMarkLast(blocks: seq<Json>, marker: Json)
    requires !AnyMarked(blocks)
    ensures UnmarkAll(MarkLast(blocks, marker)) == blocks
  {
    UnmarkUnmarked(blocks);
    if blocks != [] {
      var last := blocks[|blocks| - 1];
      assert !Marked(last) && Unmark(last) == last;
      assert last.Object? ==> last.fields[CONTROL := marker] - {CONTROL} == last.fields;
    }
  }

  lemma EraseUnmarked(body: Body, key: string)
    requires !AnyMarked(ListAt(body, key))
    ensures EraseAt(body, key) == body
  {
    UnmarkUnmarked(ListAt(body, key));
  }

  lemma EraseMarkAt(body: Body, key: string, marker: Json)
    requires !AnyMarked(ListAt(body, key))
    ensures EraseAt(MarkAt(body, key, marker), key) == body
  {
    UnmarkMarkLast(ListAt(body, key), marker);
  }

  lemma EraseMarkMessage(message: Json, marker: Json)
    requires !AnyMarked(Content(message))
    ensures EraseIn(MarkMessage(message, marker)) == message
  {
    hide LargeText;
    if message.Object? {
      EraseUnmarked(message.fields, "content");
      UnmarkMarkLast(Content(message), marker);
    }
  }

  /** What the body is without its markers: the caller's, with a string prompt as a block. */
  function Plain(body: Body, places: Places): Body {
    if places.system && Promoted(body) then body["system" := List([Json.Object(TextBlock(body["system"].text))])]
    else body
  }

  lemma EraseSystem(body: Body, marker: Json, places: Places)
    requires !CallerMarked(body)
    ensures EraseAt(if places.system then MarkSystem(body, marker) else body, "system") == Plain(body, places)
  {
    if !places.system {
      EraseUnmarked(body, "system");
    } else if Promoted(body) {
      var block := TextBlock(body["system"].text);
      assert block[CONTROL := marker] - {CONTROL} == block;
      assert UnmarkAll([Json.Object(block[CONTROL := marker])]) == [Json.Object(block)];
    } else {
      EraseMarkAt(body, "system", marker);
    }
  }

  lemma EraseMarkLarge(messages: seq<Json>, i: nat, marker: Json)
    requires i < |messages| && forall j | 0 <= j < |messages| :: !AnyMarked(Content(messages[j]))
    ensures EraseMessages(messages[i := MarkMessage(messages[i], marker)]) == messages
    ensures EraseMessages(messages) == messages
  {
    forall j | 0 <= j < |messages|
      ensures EraseIn(messages[j]) == messages[j]
    {
      if messages[j].Object? {
        assert !AnyMarked(ListAt(messages[j].fields, "content"));
        EraseUnmarked(messages[j].fields, "content");
      }
    }
    EraseMarkMessage(messages[i], marker);
  }

  /** The messages of a body, with their markers erased. */
  lemma EraseLarge(body: Body, marker: Json, large: bool)
    requires forall j | 0 <= j < |ListAt(body, "messages")| :: !AnyMarked(Content(ListAt(body, "messages")[j]))
    ensures var after := if large then MarkLarge(body, marker) else body;
      && (forall key | key != "messages" :: Agree(after, body, key))
      && ("messages" in after <==> "messages" in body)
      && ("messages" in body ==> if body["messages"].List?
            then after["messages"].List? && EraseMessages(after["messages"].items) == body["messages"].items
            else after["messages"] == body["messages"])
  {
    hide MarkMessage, EraseIn, Content;
    var messages := ListAt(body, "messages");
    var i := LastUser(messages);
    if i.Some? {
      EraseMarkLarge(messages, i.value, marker);
    }
    if messages != [] {
      EraseMarkLarge(messages, 0, marker);
    }
  }

  /** Keys that markers are put under change there only. */
  lemma EraseByKey(after: Body, plain: Body)
    requires forall key | key != "system" && key != "tools" && key != "messages" :: Agree(after, plain, key)
    requires SameErased(after, plain, "system") && SameErased(after, plain, "tools")
    requires "messages" in after <==> "messages" in plain
    requires "messages" in plain ==> if plain["messages"].List?
      then after["messages"].List? && EraseMessages(after["messages"].items) == plain["messages"].items
      else after["messages"] == plain["messages"]
    ensures Erase(after) == plain
  {
    hide UnmarkAll, EraseMessages;
    var erased := Erase(after);
    forall key
      ensures Agree(erased, plain, key)
    {
      if key != "system" && key != "tools" && key != "messages" {
        assert Agree(after, plain, key);
      }
    }
    AgreeEverywhere(erased, plain);
  }

  lemma AgreeEverywhere(a: Body, b: Body)
    requires forall key :: Agree(a, b, key)
    ensures a == b
  {
    assert forall key :: key in a ==> Agree(a, b, key);
    assert forall key :: key in b ==> Agree(a, b, key);
  }

  lemma MarkAtAgrees(body: Body, at: string, marker: Json)
    ensures forall key | key != at :: Agree(MarkAt(body, at, marker), body, key)
  {
    hide MarkLast;
  }

  /** Marking the system prompt, or having it plain, leaves the rest. */
  lemma SystemAgrees(body: Body, marker: Json, places: Places, first: Body, plain: Body)
    requires first == if places.system then MarkSystem(body, marker) else body
    requires plain == Plain(body, places)
    ensures forall key | key != "system" :: Agree(first, body, key) && Agree(plain, body, key)
  {
    hide MarkLast, TextBlock;
    MarkAtAgrees(body, "system", marker);
    forall key | key != "system"
      ensures Agree(first, body, key) && Agree(plain, body, key)
    {
      assert Agree(MarkAt(body, "system", marker), body, key);
    }
  }

  lemma ToolsAgree(first: Body, marker: Json, places: Places, second: Body)
    requires second == if places.tools then MarkAt(first, "tools", marker) else first
    ensures forall key | key != "tools" :: Agree(second, first, key)
  {
  }

  predicate SameErased(after: Body, plain: Body, key: string) {
    && (key in after <==> key in plain)
    && (key in plain ==> EraseAt(after, key)[key] == plain[key])
  }

  /** The value at a key is the one of `before`, whose erasure is `plain` there. */
  lemma ErasedLike(after: Body, before: Body, erased: Body, plain: Body, key: string)
    requires EraseAt(before, key) == erased && Agree(after, before, key) && Agree(erased, plain, key)
    ensures SameErased(after, plain, key)
  {
  }

  /** Erasing the markers that were added gives back the body, with a promoted prompt as a block. */
  lemma EraseInject(body: Body, marker: Json, places: Places)
    requires !CallerMarked(body)
    ensures Erase(Inject(body, marker, places)) == Plain(body, places)
    ensures if places.system && Promoted(body) then Demote(Plain(body, places), body["system"].text) == body
      else Plain(body, places) == body
  {
    hide UnmarkAll, EraseMessages, AnyMarked, Content, TextBlock, EraseAt, SameErased, MarkLarge, Erase, MarkAt,
      MarkSystem;
    var first := if places.system then MarkSystem(body, marker) else body;
    var second := if places.tools then MarkAt(first, "tools", marker) else first;
    var after := if places.largeBlocks then MarkLarge(second, marker) else second;
    var plain := Plain(body, places);
    SystemAgrees(body, marker, places, first, plain);
    ToolsAgree(first, marker, places, second);
    assert Agree(second, first, "messages") && Agree(first, body, "messages") && Agree(first, body, "tools");
    assert Agree(plain, body, "messages") && Agree(plain, body, "tools");
    EraseLarge(second, marker, places.largeBlocks);
    EraseSystem(body, marker, places);
    assert Agree(after, first, "system") by {
      assert Agree(after, second, "system") && Agree(second, first, "system");
    }
    ErasedLike(after, first, plain, plain, "system");
    EraseMarkAt(first, "tools", marker);
    EraseUnmarked(first, "tools");
    assert Agree(first, plain, "tools") && Agree(after, second, "tools");
    ErasedLike(after, second, first, plain, "tools");
    forall key | key != "system" && key != "tools" && key != "messages"
      ensures Agree(after, plain, key)
    {
      assert Agree(after, second, key) && Agree(second, first, key);
      assert Agree(first, body, key) && Agree(plain, body, key);
    }
    EraseByKey(after, plain);
  }

  // ---------------------------------------------------------------------------------------------
  // How many markers
  // ---------------------------------------------------------------------------------------------

  function Count(blocks: seq<Json>): nat {
    if blocks == [] then 0 else (if Marked(blocks[0]) then 1 else 0) + Count(blocks[1..])
  }

  function CountMessages(messages: seq<Json>): nat {
    if messages == [] then 0 else Count(Content(messages[0])) + CountMessages(messages[1..])
  }

  /** The markers on the blocks of a body. */
  function Markers(body: Body): nat {
    Count(ListAt(body, "system")) + Count(ListAt(body, "tools")) + CountMessages(ListAt(body, "messages"))
  }

  lemma {:induction false} CountUnmarked(blocks: seq<Json>)
    requires !AnyMarked(blocks)
    ensures Count(blocks) == 0
  {
    if blocks != [] {
      assert !Marked(blocks[0]);
      assert forall i | 0 <= i < |blocks| - 1 :: blocks[1..][i] == blocks[i + 1];
      CountUnmarked(blocks[1..]);
    }
  }

  lemma {:induction false} CountOne(blocks: seq<Json>, marker: Json)
    requires !AnyMarked(blocks)
    ensures Count(MarkLast(blocks, marker)) <= 1
  {
    if |blocks| > 1 {
      assert !Marked(blocks[0]);
      assert forall i | 0 <= i < |blocks| - 1 :: blocks[1..][i] == blocks[i + 1];
      assert MarkLast(blocks, marker)[1..] == MarkLast(blocks[1..], marker);
      CountOne(blocks[1..], marker);
    }
  }

  lemma {:induction false} CountNone(messages: seq<Json>)
    requires forall j | 0 <= j < |messages| :: !AnyMarked(Content(messages[j]))
    ensures CountMessages(messages) == 0
  {
    hide Content, AnyMarked;
    if messages != [] {
      CountUnmarked(Content(messages[0]));
      CountNone(messages[1..]);
    }
  }

  lemma {:induction false} CountMessage(messages: seq<Json>, i: nat, message: Json)
    requires i < |messages| && Count(Content(message)) <= 1
    requires forall j | 0 <= j < |messages| :: !AnyMarked(Content(messages[j]))
    ensures CountMessages(messages[i := message]) <= 1
    decreases i
  {
    hide Content, AnyMarked;
    var rest := messages[1..];
    if i == 0 {
      assert messages[i := message][1..] == rest;
      CountNone(rest);
    } else {
      assert messages[i := message][1..] == rest[i - 1 := message];
      CountUnmarked(Content(messages[0]));
      CountMessage(rest, i - 1, message);
    }
  }

  lemma CountLarge(messages: seq<Json>, i: nat, marker: Json)
    requires i < |messages| && forall j | 0 <= j < |messages| :: !AnyMarked(Content(messages[j]))
    ensures CountMessages(messages[i := MarkMessage(messages[i], marker)]) <= 1
  {
    CountOne(Content(messages[i]), marker);
    CountUnmarked(Content(messages[i]));
    CountMessage(messages, i, MarkMessage(messages[i], marker));
  }

  /** At most one marker for each place that was asked for. */
  lemma AtMostThree(body: Body, marker: Json, places: Places)
    requires !CallerMarked(body)
    ensures Markers(body) == 0
    ensures Markers(Inject(body, marker, places)) <=
      (if places.system then 1 else 0) + (if places.tools then 1 else 0) + (if places.largeBlocks then 1 else 0)
  {
    CountUnmarked(ListAt(body, "system"));
    CountUnmarked(ListAt(body, "tools"));
    CountNone(ListAt(body, "messages"));
    CountSystem(body, marker, places.system);
    hide Content, AnyMarked, MarkSystem, MarkAt, MarkLarge, Count, CountMessages, ListAt;
    var first := if places.system then MarkSystem(body, marker) else body;
    var second := if places.tools then MarkAt(first, "tools", marker) else first;
    SystemOnly(body, marker);
    CountTools(first, marker);
    CountMarkedLarge(second, marker);
  }

  /** Marking the system prompt leaves the tools and the messages. */
  lemma SystemOnly(body: Body, marker: Json)
    ensures var b := MarkSystem(body, marker);
      ListAt(b, "tools") == ListAt(body, "tools") && ListAt(b, "messages") == ListAt(body, "messages")
  {
    hide MarkLast;
  }

  lemma CountTools(body: Body, marker: Json)
    requires !AnyMarked(ListAt(body, "tools"))
    ensures var b := MarkAt(body, "tools", marker);
      && Count(ListAt(b, "tools")) <= 1
      && ListAt(b, "system") == ListAt(body, "system") && ListAt(b, "messages") == ListAt(body, "messages")
  {
    hide MarkLast, Count, AnyMarked;
    CountUnmarked(ListAt(body, "tools"));
    CountOne(ListAt(body, "tools"), marker);
  }

  lemma CountMarkedLarge(body: Body, marker: Json)
    requires forall m <- ListAt(body, "messages") :: !AnyMarked(Content(m))
    ensures var b := MarkLarge(body, marker);
      && CountMessages(ListAt(b, "messages")) <= 1
      && ListAt(b, "system") == ListAt(body, "system") && ListAt(b, "tools") == ListAt(body, "tools")
  {
    hide Content, AnyMarked, MarkMessage, CountMessages, LastUser;
    var messages := ListAt(body, "messages");
    CountNone(messages);
    if LastUser(messages).Some? {
      CountLarge(messages, LastUser(messages).value, marker);
    }
  }

  lemma CountSystem(body: Body, marker: Json, system: bool)
    requires !CallerMarked(body)
    ensures Count(ListAt(if system then MarkSystem(body, marker) else body, "system")) <= if system then 1 else 0
  {
    CountUnmarked(ListAt(body, "system"));
    CountOne(ListAt(body, "system"), marker);
    if system && Promoted(body) {
      var block := Json.Object(TextBlock(body["system"].text)[CONTROL := marker]);
      assert ListAt(MarkSystem(body, marker), "system") == [block] && [block][1..] == [];
    }
  }
}
