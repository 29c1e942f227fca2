// Where the markers of a request body are (src/deepintshield/_prompt_cache.py, `_inject_anthropic`).

module PromptCachePlaces {
  import opened Common
  import opened PromptCache
  import opened ChatText

  /** The value of a marker: short-lived, or with the lifetime that was asked for. */
  lemma MarkerSays(ttl: string)
    ensures Marker(ttl).Object? && Marker(ttl).fields.Keys <= {"type", "ttl"}
    ensures "type" in Marker(ttl).fields && Marker(ttl).fields["type"] == Text("ephemeral")
    ensures "ttl" in Marker(ttl).fields <==> ttl != "" && ttl != "5m"
    ensures "ttl" in Marker(ttl).fields ==> Marker(ttl).fields["ttl"] == Text(ttl)
  {
  }

  /** A list whose last element is an object. */
  predicate EndsInBlock(j: Json) {
    j.List? && j.items != [] && j.items[|j.items| - 1].Object?
  }

  /** The list with the marker on its last block, and nothing else changed. */
  predicate MarkedAtEnd(before: Json, after: Json, marker: Json)
    requires EndsInBlock(before)
  {
    var n := |before.items| - 1;
    after == List(before.items[..n] + [Object(before.items[n].fields["cache_control" := marker])])
  }

  predicate Unmarked(j: Json) {
    j.List? ==> forall b <- j.items :: b.Object? ==> "cache_control" !in b.fields
  }

  lemma MarkAtEnds(body: Body, key: string, marker: Json)
    requires key in body ==> Unmarked(body[key])
    ensures var r := MarkAt(body, key, marker);
      && r.Keys == body.Keys && (forall k <- body | k != key :: r[k] == body[k])
      && (key in body ==>
        if EndsInBlock(body[key]) then MarkedAtEnd(body[key], r[key], marker) else r[key] == body[key])
  {
    if key in body && body[key].List? && body[key].items != [] {
      var items := body[key].items;
      var n := |items| - 1;
      assert items[n] in items;
      assert MarkLast(items, marker) == items[..n] + [WithMark(items[n], marker)];
      assert items == items[..n] + [items[n]];
    }
  }

  lemma NotConfigured(body: Body, key: string)
    requires !CallerMarked(body) && (key == "system" || key == "tools")
    ensures key in body ==> Unmarked(body[key])
  {
    if key in body && body[key].List? {
      assert ListAt(body, key) == body[key].items;
      forall b <- body[key].items
        ensures b.Object? ==> "cache_control" !in b.fields
      {
        assert !Marked(b);
      }
    }
  }

  /** What the system prompt becomes: its last block marked, or its text one marked block, or itself. */
  predicate SystemMarked(before: Json, after: Json, marker: Json) {
    if EndsInBlock(before) then MarkedAtEnd(before, after, marker)
    else if before.Text? && !Blank(before.text) then
      after == List([Object(map["type" := Text("text"), "text" := before, "cache_control" := marker])])
    else after == before
  }

  lemma SystemEnds(body: Body, marker: Json)
    requires "system" in body ==> Unmarked(body["system"])
    ensures var r := MarkSystem(body, marker);
      && r.Keys == body.Keys && (forall k <- body | k != "system" :: r[k] == body[k])
      && ("system" in body ==> SystemMarked(body["system"], r["system"], marker))
  {
    MarkAtEnds(body, "system", marker);
    if "system" in body && body["system"].Text? {
      StripBlank(body["system"].text);
      if Promoted(body) {
        var text := body["system"].text;
        assert TextBlock(text)[CONTROL := marker]
            == map["type" := Text("text"), "text" := Text(text), "cache_control" := marker];
      }
    }
  }

  /** The message of the user that no other follows. */
  predicate IsLastOfUser(messages: seq<Json>, i: nat) {
    && i < |messages| && FromUser(messages[i])
    && forall j | i < j < |messages| :: !FromUser(messages[j])
  }

  lemma {:induction false} LastUserIs(messages: seq<Json>)
    ensures forall i: nat :: IsLastOfUser(messages, i) <==> LastUser(messages) == Some(i)
  {
    if messages != [] {
      var most := messages[..|messages| - 1];
      LastUserIs(most);
      forall i: nat
        ensures IsLastOfUser(messages, i) <==> LastUser(messages) == Some(i)
      {
        assert i < |most| ==> messages[i] == most[i];
        assert IsLastOfUser(messages, i) && i < |most| ==> IsLastOfUser(most, i);
      }
    }
  }

  /** A message whose last content block is a text of at least 12000 characters. */
  predicate EndsInLargeText(message: Json) {
    && message.Object? && "content" in message.fields && EndsInBlock(message.fields["content"])
    && var last := message.fields["content"].items[|message.fields["content"].items| - 1].fields;
       && "type" in last && last["type"] == Text("text")
       && "text" in last && last["text"].Text? && |last["text"].text| >= 12000
  }

  /** The message with the marker on its last content block, or as it was. */
  predicate MessageMarked(before: Json, after: Json, marker: Json) {
    if EndsInLargeText(before) then
      && after.Object? && after.fields.Keys == before.fields.Keys
      && (forall k <- before.fields | k != "content" :: after.fields[k] == before.fields[k])
      && MarkedAtEnd(before.fields["content"], after.fields["content"], marker)
    else after == before
  }

  lemma MessageEnds(message: Json, marker: Json)
    requires message.Object? && "content" in message.fields ==> Unmarked(message.fields["content"])
    ensures MessageMarked(message, MarkMessage(message, marker), marker)
  {
    if message.Object? && "content" in message.fields && message.fields["content"].List? {
      var items := message.fields["content"].items;
      if items != [] {
        var n := |items| - 1;
        assert items[n] in items;
        assert MarkLast(items, marker) == items[..n] + [WithMark(items[n], marker)];
      }
    }
  }

  /** What the messages become: the last one of the user marked, the others as they were. */
  predicate MessagesMarked(before: seq<Json>, after: seq<Json>, marker: Json) {
    && |after| == |before|
    && forall i: nat | i < |before| ::
         if IsLastOfUser(before, i) then MessageMarked(before[i], after[i], marker) else after[i] == before[i]
  }

  lemma LargeEnds(body: Body, marker: Json)
    requires forall m <- ListAt(body, "messages") ::
      m.Object? && "content" in m.fields ==> Unmarked(m.fields["content"])
    ensures var r := MarkLarge(body, marker);
      && r.Keys == body.Keys && (forall k <- body | k != "messages" :: r[k] == body[k])
      && ("messages" in body && body["messages"].List? ==>
        r["messages"].List? && MessagesMarked(body["messages"].items, r["messages"].items, marker))
      && ("messages" in body && !body["messages"].List? ==> r["messages"] == body["messages"])
  {
    hide MessageMarked, MarkMessage, FromUser;
    var messages := ListAt(body, "messages");
    LastUserIs(messages);
    if i: nat :| IsLastOfUser(messages, i) {
      assert messages[i] in messages;
      MessageEnds(messages[i], marker);
    }
  }

  lemma ContentNotConfigured(body: Body)
    requires !CallerMarked(body)
    ensures forall m <- ListAt(body, "messages") ::
      m.Object? && "content" in m.fields ==> Unmarked(m.fields["content"])
  {
    forall m <- ListAt(body, "messages") | m.Object? && "content" in m.fields
      ensures Unmarked(m.fields["content"])
    {
      var i :| 0 <= i < |ListAt(body, "messages")| && ListAt(body, "messages")[i] == m;
      assert !AnyMarked(Content(m));
      forall b | m.fields["content"].List? && b in m.fields["content"].items
        ensures b.Object? ==> "cache_control" !in b.fields
      {
        assert !Marked(b);
      }
    }
  }

  /**
   * Where no caching is configured, each place that was asked for has the marker at its end, and
   * everything else is as it was.
   */
  lemma MarkersArePlaced(body: Body, marker: Json, places: Places)
    requires !CallerMarked(body)
    ensures var r := Inject(body, marker, places);
      && r.Keys == body.Keys
      && (forall k <- body | k !in {"system", "tools", "messages"} :: r[k] == body[k])
      && ("system" in body ==>
        if places.system then SystemMarked(body["system"], r["system"], marker) else r["system"] == body["system"])
      && ("tools" in body ==>
        if places.tools && EndsInBlock(body["tools"]) then MarkedAtEnd(body["tools"], r["tools"], marker)
        else r["tools"] == body["tools"])
      && ("messages" in body ==>
        if places.largeBlocks && body["messages"].List?
        then r["messages"].List? && MessagesMarked(body["messages"].items, r["messages"].items, marker)
        else r["messages"] == body["messages"])
  {
    NotConfigured(body, "system");
    NotConfigured(body, "tools");
    ContentNotConfigured(body);
    hide CallerMarked, MarkSystem, MarkAt, MarkLarge, SystemMarked, MessagesMarked, Unmarked, MarkedAtEnd;
    var first := if places.system then MarkSystem(body, marker) else body;
    var second := if places.tools then MarkAt(first, "tools", marker) else first;
    SystemEnds(body, marker);
    MarkAtEnds(first, "tools", marker);
    assert ListAt(second, "messages") == ListAt(body, "messages");
    LargeEnds(second, marker);
  }
}
