/** The field normalizer and record assembler of the exporter: it drops null fields,
    relabels field identifiers with their human names, flattens every field value to
    something printable, and filters out the noise fields. */
module Normalize {
  import opened Json

  // ---------------------------------------------------------------------------
  // dropNull

  /** Whether a property is kept by dropNull. */
  predicate NotNull(e: (string, Value)) {
    e.1 != Null
  }

  /** The entries of `o` whose value is not `null`, in order. */
  function NonNull(o: Entries): Entries {
    Filter(o, NotNull)
  }

  /** `dropNull(first, target)`: copies every entry of `first` whose value is not
      `null` into `target`. */
  method DropNull(first: Entries, target: Entries) returns (t: Entries)
    ensures t == PutAll(target, NonNull(first))
  {
    t := target;
    var i := 0;
    while i < |first|
      invariant 0 <= i <= |first|
      invariant t == PutAll(target, NonNull(first[..i]))
    {
      var key, value := first[i].0, first[i].1;
      FilterPrefix(first, i, NotNull);
      if value != Null {
        PutAllSnoc(target, NonNull(first[..i]), first[i]);
        t := Put(t, key, value);
      } else {
        assert NonNull(first[..i]) + [] == NonNull(first[..i]);
      }
      i := i + 1;
    }
    assert first[..i] == first;
  }

  /** After dropNull, the target has its old properties and every non-null property of
      `first`, whose values win; nothing else. Into an empty target, dropNull keeps the
      non-null properties in their order. */
  lemma DropNullSpec(first: Entries, target: Entries)
    requires UniqueKeys(first)
    ensures forall k :: k in Keys(PutAll(target, NonNull(first))) <==>
      k in Keys(target) || (k in Keys(first) && Get(first, k) != Null)
    ensures forall k :: Get(PutAll(target, NonNull(first)), k) ==
                        if k in Keys(first) && Get(first, k) != Null then Get(first, k) else Get(target, k)
    ensures target == [] ==> PutAll(target, NonNull(first)) == NonNull(first)
  {
    var kept := NonNull(first);
    FilterUnique(first, NotNull);
    PutAllSpec(target, kept);
    forall k ensures Get(kept, k) == if k in Keys(first) && Get(first, k) != Null then Get(first, k) else Undefined {
      FilterGet(first, NotNull, k);
      GetAbsent(first, k);
    }
    if target == [] {
      PutAllIntoEmpty(kept);
    }
  }

  // ---------------------------------------------------------------------------
  // extractTextFromAtlassianDoc

  /** `inline.map(c => c.text).filter(Boolean)`: the truthy `text` of every inline
      node, in order; a `null` or `undefined` node throws. */
  function InlineTexts(inline: seq<Value>): (r: Outcome<seq<Value>>)
    ensures r.Ok? <==> !HasNullish(inline)
    ensures r.Ok? ==> forall v :: v in r.value ==> Truthy(v)
    decreases |inline|
  {
    if inline == [] then Ok([])
    else if Nullish(inline[0]) then Throws
    else
      var rest :- InlineTexts(inline[1..]);
      var t := Prop(inline[0], "text");
      Ok((if Truthy(t) then [t] else []) + rest)
  }

  /** What one paragraph contributes: `paragraph.content?.map(c => c.text).filter(Boolean) || []`. */
  function ParagraphTexts(paragraph: Value): Outcome<seq<Value>> {
    if Nullish(paragraph) then Throws
    else
      var content := Prop(paragraph, "content");
      if Nullish(content) then Ok([])
      else if !content.Arr? then Throws
      else InlineTexts(content.items)
  }

  /** `paragraphs.flatMap(ParagraphTexts)` */
  function ParagraphSpans(paragraphs: seq<Value>): Outcome<seq<Value>>
    decreases |paragraphs|
  {
    if paragraphs == [] then Ok([])
    else
      var here :- ParagraphTexts(paragraphs[0]);
      var rest :- ParagraphSpans(paragraphs[1..]);
      Ok(here + rest)
  }

  /** A rich-text value is a document node when it is truthy, its `type` is "doc" and
      its `content` is an array. */
  predicate IsDocNode(doc: Value) {
    Truthy(doc) && Prop(doc, "type") == Str("doc") && Prop(doc, "content").Arr?
  }

  /** `extractTextFromAtlassianDoc(doc)` */
  function ExtractText(doc: Value): (r: Outcome<string>)
    ensures !IsDocNode(doc) ==> r == Ok("")
  {
    if !Truthy(doc) || Prop(doc, "type") != Str("doc") || !Prop(doc, "content").Arr? then Ok("")
    else
      var spans :- ParagraphSpans(Prop(doc, "content").items);
      Ok(JoinValues(spans, " "))
  }

  /** A paragraph without `content` contributes no text and does not throw. */
  lemma EmptyParagraph(paragraph: Value)
    requires !Nullish(paragraph) && Nullish(Prop(paragraph, "content"))
    ensures ParagraphTexts(paragraph) == Ok([])
  {
  }

  /** The walk over the paragraphs throws exactly when one paragraph does, and every
      span it keeps is truthy. */
  lemma {:induction false} ParagraphSpansSpec(paragraphs: seq<Value>)
    ensures ParagraphSpans(paragraphs).Ok? <==>
      forall i :: 0 <= i < |paragraphs| ==> ParagraphTexts(paragraphs[i]).Ok?
    ensures ParagraphSpans(paragraphs).Ok? ==> forall v :: v in ParagraphSpans(paragraphs).value ==> Truthy(v)
    decreases |paragraphs|
  {
    if paragraphs != [] {
      var tail := paragraphs[1..];
      ParagraphSpansSpec(tail);
      assert forall i :: 1 <= i < |paragraphs| ==> paragraphs[i] == tail[i - 1];
      if !(forall i :: 0 <= i < |tail| ==> ParagraphTexts(tail[i]).Ok?) {
        var i :| 0 <= i < |tail| && !ParagraphTexts(tail[i]).Ok?;
        assert paragraphs[i + 1] == tail[i];
      }
    }
  }

  /** The spans of consecutive runs of paragraphs follow each other, in order. */
  lemma {:induction false} ParagraphSpansAppend(ps: seq<Value>, qs: seq<Value>)
    ensures ParagraphSpans(ps + qs) ==
      if ParagraphSpans(ps).Ok? && ParagraphSpans(qs).Ok? then Ok(ParagraphSpans(ps).value + ParagraphSpans(qs).value)
      else Throws
    decreases |ps|
  {
    if ps == [] {
      assert ps + qs == qs;
      if ParagraphSpans(qs).Ok? {
        assert [] + ParagraphSpans(qs).value == ParagraphSpans(qs).value;
      }
    } else {
      ParagraphSpansAppend(ps[1..], qs);
      assert (ps + qs)[0] == ps[0];
      assert (ps + qs)[1..] == ps[1..] + qs;
      var here := ParagraphTexts(ps[0]);
      if here.Ok? && ParagraphSpans(ps[1..]).Ok? && ParagraphSpans(qs).Ok? {
        assert here.value + (ParagraphSpans(ps[1..]).value + ParagraphSpans(qs).value) ==
               (here.value + ParagraphSpans(ps[1..]).value) + ParagraphSpans(qs).value;
      }
    }
  }

  /** The texts of consecutive runs of inline nodes follow each other, in order. */
  lemma {:induction false} InlineTextsAppend(a: seq<Value>, b: seq<Value>)
    ensures InlineTexts(a + b) ==
      if InlineTexts(a).Ok? && InlineTexts(b).Ok? then Ok(InlineTexts(a).value + InlineTexts(b).value)
      else Throws
    decreases |a|
  {
    if a == [] {
      assert a + b == b;
      if InlineTexts(b).Ok? {
        assert [] + InlineTexts(b).value == InlineTexts(b).value;
      }
    } else {
      InlineTextsAppend(a[1..], b);
      assert (a + b)[0] == a[0];
      assert (a + b)[1..] == a[1..] + b;
      if !Nullish(a[0]) && InlineTexts(a[1..]).Ok? && InlineTexts(b).Ok? {
        var t := Prop(a[0], "text");
        var here: seq<Value> := if Truthy(t) then [t] else [];
        assert here + (InlineTexts(a[1..]).value + InlineTexts(b).value) ==
               (here + InlineTexts(a[1..]).value) + InlineTexts(b).value;
      }
    }
  }

  /** Every inline node keeps its place: the texts of `before + [node] + after` are
      those of the nodes before it, then its own `text` if that is truthy, then those
      of the nodes after it. In particular every truthy `text` is kept. */
  lemma InlineTextsAt(before: seq<Value>, node: Value, after: seq<Value>)
    requires InlineTexts(before + [node] + after).Ok?
    ensures InlineTexts(before).Ok? && InlineTexts(after).Ok? && !Nullish(node)
    ensures var t := Prop(node, "text");
      InlineTexts(before + [node] + after) ==
        Ok(InlineTexts(before).value + (if Truthy(t) then [t] else []) + InlineTexts(after).value)
    ensures Truthy(Prop(node, "text")) ==> Prop(node, "text") in InlineTexts(before + [node] + after).value
  {
    var t := Prop(node, "text");
    var mid: seq<Value> := if Truthy(t) then [t] else [];
    InlineTextsAppend([node], after);
    InlineTextsAppend(before, [node] + after);
    assert before + [node] + after == before + ([node] + after);
    assert !Nullish(node) by {
      assert [node][1..] == [];
    }
    InlineTextsOne(node);
    var x, z := InlineTexts(before).value, InlineTexts(after).value;
    assert x + (mid + z) == x + mid + z;
    if Truthy(t) {
      assert (x + mid + z)[|x|] == t;
    }
  }

  /** A single inline node that is not missing yields its `text` if that is truthy. */
  lemma InlineTextsOne(node: Value)
    requires !Nullish(node)
    ensures InlineTexts([node]) == Ok(if Truthy(Prop(node, "text")) then [Prop(node, "text")] else [])
  {
    var one := [node];
    assert one[1..] == [];
    assert InlineTexts(one[1..]) == Ok([]);
    var t := Prop(node, "text");
    var here: seq<Value> := if Truthy(t) then [t] else [];
    assert InlineTexts(one) == Ok(here + []);
    assert here + [] == here;
  }

  /** Every paragraph keeps its place: the spans are those of the paragraphs before
      it, then its own, then those of the paragraphs after it. */
  lemma ParagraphSpansAt(paragraphs: seq<Value>, i: nat)
    requires ParagraphSpans(paragraphs).Ok? && i < |paragraphs|
    ensures ParagraphSpans(paragraphs[..i]).Ok? && ParagraphTexts(paragraphs[i]).Ok? &&
            ParagraphSpans(paragraphs[i + 1..]).Ok?
    ensures ParagraphSpans(paragraphs).value ==
      ParagraphSpans(paragraphs[..i]).value + ParagraphTexts(paragraphs[i]).value +
      ParagraphSpans(paragraphs[i + 1..]).value
  {
    var one := [paragraphs[i]];
    assert paragraphs == paragraphs[..i] + (one + paragraphs[i + 1..]);
    ParagraphSpansAppend(paragraphs[..i], one + paragraphs[i + 1..]);
    ParagraphSpansAppend(one, paragraphs[i + 1..]);
    assert one[1..] == [];
    if ParagraphTexts(paragraphs[i]).Ok? {
      assert ParagraphSpans(one) == Ok(ParagraphTexts(paragraphs[i]).value + []);
    }
  }

  /** Text extraction throws exactly when the value is a document node one of whose
      paragraphs throws; otherwise, for a document node, the text is its spans joined
      by single spaces. */
  lemma ExtractTextSpec(doc: Value)
    ensures ExtractText(doc).Throws? <==>
      IsDocNode(doc) &&
      exists i :: 0 <= i < |Prop(doc, "content").items| && ParagraphTexts(Prop(doc, "content").items[i]).Throws?
    ensures IsDocNode(doc) && ExtractText(doc).Ok? ==>
      ParagraphSpans(Prop(doc, "content").items).Ok? &&
      ExtractText(doc).value == JoinValues(ParagraphSpans(Prop(doc, "content").items).value, " ")
  {
    if IsDocNode(doc) {
      ParagraphSpansSpec(Prop(doc, "content").items);
    }
  }

  // ---------------------------------------------------------------------------
  // The structured lists built by flattenFieldsMainIssue

  /** `xs.map(f)` where `f` may throw. */
  function MapRows(xs: seq<Value>, f: Value -> Outcome<Value>): (r: Outcome<seq<Value>>)
    ensures r.Ok? <==> forall i :: 0 <= i < |xs| ==> f(xs[i]).Ok?
    ensures r.Ok? ==> |r.value| == |xs| && forall i :: 0 <= i < |xs| ==> r.value[i] == f(xs[i]).value
    decreases |xs|
  {
    if xs == [] then Ok([])
    else
      var head :- f(xs[0]);
      var rest :- MapRows(xs[1..], f);
      Ok([head] + rest)
  }

  /** One row of the `Subtasks` list. */
  function SubtaskRow(subtask: Value): (r: Outcome<Value>)
    ensures r.Ok? <==> !Nullish(subtask)
    ensures r.Ok? ==> r.value.Obj? && |r.value.entries| == 5
  {
    if Nullish(subtask) then Throws
    else
      var fields := Prop(subtask, "fields");
      Ok(Obj([
        ("key", Or(Prop(subtask, "key"), Str(""))),
        ("summary", Or(Prop(fields, "summary"), Str(""))),
        ("status", Or(Prop(Prop(fields, "status"), "name"), Str(""))),
        ("priority", Or(Prop(Prop(fields, "priority"), "name"), Str(""))),
        ("issuetype", Or(Prop(Prop(fields, "issuetype"), "name"), Str("")))]))
  }

  /** One row of the `Attachments` list. */
  function AttachmentRow(att: Value): (r: Outcome<Value>)
    ensures r.Ok? <==> !Nullish(att)
    ensures r.Ok? ==> r.value.Obj? && |r.value.entries| == 4
  {
    if Nullish(att) then Throws
    else
      Ok(Obj([
        ("filename", Prop(att, "filename")),
        ("author", Or(Prop(Prop(att, "author"), "displayName"), Str(""))),
        ("created", Prop(att, "created")),
        ("content", Prop(att, "content"))]))
  }

  /** One row of the `Comments` list. */
  function CommentRow(comment: Value): (r: Outcome<Value>)
    ensures r.Ok? <==> !Nullish(comment) && ExtractText(Prop(comment, "body")).Ok?
    ensures r.Ok? ==> r.value.Obj? && |r.value.entries| == 5
  {
    if Nullish(comment) then Throws
    else
      var text :- ExtractText(Prop(comment, "body"));
      Ok(Obj([
        ("author", Or(Prop(Prop(comment, "author"), "displayName"), Str(""))),
        ("text", Str(text)),
        ("update author", Or(Prop(Prop(comment, "updateAuthor"), "displayName"), Str(""))),
        ("created", Prop(comment, "created")),
        ("updated", Prop(comment, "updated"))]))
  }

  /** A subtask row has the five properties, none of them `null` or `undefined`; its
      key is the subtask's own key when that is truthy and "" otherwise. */
  lemma SubtaskRowDefaults(subtask: Value)
    requires !Nullish(subtask)
    ensures SubtaskRow(subtask).Ok? && SubtaskRow(subtask).value.Obj?
    ensures Keys(SubtaskRow(subtask).value.entries) == ["key", "summary", "status", "priority", "issuetype"]
    ensures forall e :: e in SubtaskRow(subtask).value.entries ==> !Nullish(e.1)
    ensures Prop(SubtaskRow(subtask).value, "key") == Or(Prop(subtask, "key"), Str(""))
  {
    var es := SubtaskRow(subtask).value.entries;
    assert forall e :: e in es ==> e == es[0] || e == es[1] || e == es[2] || e == es[3] || e == es[4];
  }

  /** The other four properties of a subtask row are read from the subtask's fields:
      each is the summary or the status, priority or issue type name when that is
      truthy, and "" otherwise. */
  lemma SubtaskRowValues(subtask: Value)
    requires !Nullish(subtask)
    ensures SubtaskRow(subtask).Ok?
    ensures var row, fields := SubtaskRow(subtask).value, Prop(subtask, "fields");
      Prop(row, "summary") == Or(Prop(fields, "summary"), Str("")) &&
      Prop(row, "status") == Or(Prop(Prop(fields, "status"), "name"), Str("")) &&
      Prop(row, "priority") == Or(Prop(Prop(fields, "priority"), "name"), Str("")) &&
      Prop(row, "issuetype") == Or(Prop(Prop(fields, "issuetype"), "name"), Str(""))
  {
    var es := SubtaskRow(subtask).value.entries;
    assert Get(es, "summary") == Get(es[1..], "summary") == es[1].1;
    assert Get(es, "status") == Get(es[1..], "status") == Get(es[2..], "status") == es[2].1;
    assert Get(es, "priority") == Get(es[1..], "priority") == Get(es[2..], "priority") == Get(es[3..], "priority") == es[3].1;
    assert Get(es, "issuetype") == Get(es[1..], "issuetype") == Get(es[2..], "issuetype") == Get(es[3..], "issuetype")
      == Get(es[4..], "issuetype") == es[4].1;
  }

  /** An attachment row always has an author: the display name when that is truthy
      and "" otherwise; the file name, date and URL are copied as they are. */
  lemma AttachmentRowDefaults(att: Value)
    requires !Nullish(att)
    ensures AttachmentRow(att).Ok? && AttachmentRow(att).value.Obj?
    ensures Keys(AttachmentRow(att).value.entries) == ["filename", "author", "created", "content"]
    ensures !Nullish(Prop(AttachmentRow(att).value, "author"))
    ensures Prop(AttachmentRow(att).value, "author") == Or(Prop(Prop(att, "author"), "displayName"), Str(""))
    ensures Prop(AttachmentRow(att).value, "filename") == Prop(att, "filename")
    ensures Prop(AttachmentRow(att).value, "created") == Prop(att, "created")
    ensures Prop(AttachmentRow(att).value, "content") == Prop(att, "content")
  {
    var es := AttachmentRow(att).value.entries;
    assert Get(es, "author") == Get(es[1..], "author") == es[1].1;
    assert Get(es, "created") == Get(es[1..], "created") == Get(es[2..], "created") == es[2].1;
    assert Get(es, "content") == Get(es[1..], "content") == Get(es[2..], "content") == Get(es[3..], "content") == es[3].1;
  }

  /** A comment row has both authors, each the display name when that is truthy and ""
      otherwise, the extracted text, and the creation and update dates copied as they
      are; it throws only when the comment is missing or its body's extraction throws. */
  lemma CommentRowDefaults(comment: Value)
    ensures CommentRow(comment).Ok? <==> !Nullish(comment) && ExtractText(Prop(comment, "body")).Ok?
    ensures CommentRow(comment).Ok? ==>
      var row := CommentRow(comment).value;
      row.Obj? && Keys(row.entries) == ["author", "text", "update author", "created", "updated"] &&
      !Nullish(Prop(row, "author")) && !Nullish(Prop(row, "update author")) &&
      Prop(row, "author") == Or(Prop(Prop(comment, "author"), "displayName"), Str("")) &&
      Prop(row, "update author") == Or(Prop(Prop(comment, "updateAuthor"), "displayName"), Str("")) &&
      Prop(row, "text") == Str(ExtractText(Prop(comment, "body")).value) &&
      Prop(row, "created") == Prop(comment, "created") && Prop(row, "updated") == Prop(comment, "updated")
    ensures CommentRow(comment).Ok? && !Truthy(Prop(Prop(comment, "author"), "displayName")) ==>
      Prop(CommentRow(comment).value, "author") == Str("")
    ensures CommentRow(comment).Ok? && !Truthy(Prop(Prop(comment, "updateAuthor"), "displayName")) ==>
      Prop(CommentRow(comment).value, "update author") == Str("")
  {
    if CommentRow(comment).Ok? {
      var es := CommentRow(comment).value.entries;
      assert Get(es, "author") == es[0].1;
      assert Get(es, "text") == Get(es[1..], "text") == es[1].1;
      assert Get(es, "update author") == Get(es[1..], "update author") == Get(es[2..], "update author") == es[2].1;
      assert Get(es, "created") == Get(es[1..], "created") == Get(es[2..], "created") == Get(es[3..], "created") == es[3].1;
      assert Get(es, "updated") == Get(es[1..], "updated") == Get(es[2..], "updated") == Get(es[3..], "updated")
        == Get(es[4..], "updated") == es[4].1;
    }
  }

  /** A `Sub-tasks` array becomes `Subtasks`, an `Attachment` array `Attachments` and
      the `comments` array of `Comment` becomes `Comments`: one row per element, in
      the same order; the list throws exactly when some element does. */
  lemma ListsFlattened(key: string, value: Value)
    requires ((key == "Sub-tasks" || key == "Attachment") && value.Arr?) ||
             (key == "Comment" && !Nullish(value) && Prop(value, "comments").Arr?)
    ensures var items := if key == "Comment" then Prop(value, "comments").items else value.items;
      var row := if key == "Sub-tasks" then SubtaskRow else if key == "Attachment" then AttachmentRow else CommentRow;
      OutKey(key, value) == (if key == "Sub-tasks" then "Subtasks" else if key == "Attachment" then "Attachments" else "Comments") &&
      (OutValue(key, value).Ok? <==> forall i :: 0 <= i < |items| ==> row(items[i]).Ok?) &&
      (OutValue(key, value).Ok? ==>
        OutValue(key, value).value.Some? && OutValue(key, value).value.value.Arr? &&
        |OutValue(key, value).value.value.items| == |items| &&
        forall i :: 0 <= i < |items| ==> OutValue(key, value).value.value.items[i] == row(items[i]).value)
  {
  }

  // ---------------------------------------------------------------------------
  // The per-value case split of flattenFieldsMainIssue

  /** What a list element becomes: `item?.value || item?.name || JSON.stringify(item)`.
      Only a missing element gives `undefined`, which the join writes as ""; `null`
      is written out as "null". */
  function ListItem(item: Value): (r: Value)
    ensures Nullish(r) <==> item.Undefined?
    ensures item.Null? ==> r == Str("null")
    ensures Truthy(Prop(item, "value")) ==> r == Prop(item, "value")
  {
    Or(Or(Prop(item, "value"), Prop(item, "name")), Stringify(item))
  }

  /** The general cascade for one field value: `None` when no key is written, which
      happens exactly for `null`, `undefined` and booleans; only a document node can
      throw, through its text extraction. */
  function FlattenValue(value: Value): (r: Outcome<Option<Value>>)
    ensures r == Ok(None) <==> Nullish(value) || value.Bool?
    ensures r.Throws? ==> value.Obj? && IsDocNode(value)
  {
    if value.Str? || value.Num? then Ok(Some(value))
    else if Truthy(value) && (value.Obj? || value.Arr?) then
      if value.Obj? && ("value" in Keys(value.entries) || "name" in Keys(value.entries) || "displayName" in Keys(value.entries)) then
        Ok(Some(Or(Or(Get(value.entries, "value"), Get(value.entries, "name")), Get(value.entries, "displayName"))))
      else if Prop(value, "type") == Str("doc") then
        var text :- ExtractText(value);
        Ok(Some(Str(text)))
      else if value.Arr? then
        Ok(Some(Str(JoinValues(ListItems(value.items), ", "))))
      else if Truthy(Prop(value, "displayName")) then Ok(Some(Prop(value, "displayName")))
      else Ok(Some(Stringify(value)))
    else Ok(None)
  }

  /** The texts a list field is joined from: `item?.value || item?.name ||
      JSON.stringify(item)` for each item, in order. */
  function ListItems(items: seq<Value>): (r: seq<Value>)
    ensures |r| == |items| && forall i :: 0 <= i < |items| ==> r[i] == ListItem(items[i])
  {
    seq(|items|, i requires 0 <= i < |items| => ListItem(items[i]))
  }

  /** Whether an object owns one of the properties the cascade reads first. */
  predicate OwnsLabel(value: Value) {
    value.Obj? && ("value" in Keys(value.entries) || "name" in Keys(value.entries) ||
                   "displayName" in Keys(value.entries))
  }

  /** The cascade, case by case, in the order it tests them: strings and numbers are
      copied; an object owning `value`, `name` or `displayName` takes the first truthy
      of the three (so one owning only `displayName` takes that); otherwise a `doc`
      node becomes its text and throws exactly when extraction does; an array becomes
      its items joined by ", "; any other object is written out by JSON.stringify. */
  lemma FlattenValueShapes(value: Value)
    ensures value.Str? || value.Num? ==> FlattenValue(value) == Ok(Some(value))
    ensures OwnsLabel(value) ==>
      FlattenValue(value) == Ok(Some(Or(Or(Get(value.entries, "value"), Get(value.entries, "name")), Get(value.entries, "displayName"))))
    ensures value.Obj? && "displayName" in Keys(value.entries) &&
            "value" !in Keys(value.entries) && "name" !in Keys(value.entries) ==>
      FlattenValue(value) == Ok(Some(Get(value.entries, "displayName")))
    ensures value.Obj? && !OwnsLabel(value) && Prop(value, "type") == Str("doc") ==>
      FlattenValue(value) == if ExtractText(value).Ok? then Ok(Some(Str(ExtractText(value).value))) else Throws
    ensures value.Arr? ==> FlattenValue(value) == Ok(Some(Str(JoinValues(ListItems(value.items), ", "))))
    ensures value.Obj? && !OwnsLabel(value) && Prop(value, "type") != Str("doc") ==>
      FlattenValue(value) == Ok(Some(Stringify(value)))
  {
    if value.Obj? && "displayName" in Keys(value.entries) && "value" !in Keys(value.entries) && "name" !in Keys(value.entries) {
      GetAbsent(value.entries, "value");
      GetAbsent(value.entries, "name");
    }
    if value.Obj? && !OwnsLabel(value) {
      GetAbsent(value.entries, "displayName");
    }
  }

  /** The key the loop writes for one field. */
  function OutKey(key: string, value: Value): string {
    if key == "Sub-tasks" && value.Arr? then "Subtasks"
    else if key == "Attachment" && value.Arr? then "Attachments"
    else if key == "Comment" && !Nullish(value) && Prop(value, "comments").Arr? then "Comments"
    else key
  }

  /** The value the loop writes for one field (`None`: nothing is written). */
  function OutValue(key: string, value: Value): Outcome<Option<Value>> {
    if key == "Sub-tasks" && value.Arr? then
      var rows :- MapRows(value.items, SubtaskRow);
      Ok(Some(Arr(rows)))
    else if key == "Attachment" && value.Arr? then
      var rows :- MapRows(value.items, AttachmentRow);
      Ok(Some(Arr(rows)))
    else if key == "Comment" && Nullish(value) then Throws
    else if key == "Comment" && Prop(value, "comments").Arr? then
      var rows :- MapRows(Prop(value, "comments").items, CommentRow);
      Ok(Some(Arr(rows)))
    else FlattenValue(value)
  }

  /** One iteration of the loop of flattenFieldsMainIssue over `result`. */
  function FlattenStep(result: Entries, key: string, value: Value): Outcome<Entries> {
    var out :- OutValue(key, value);
    if out.Some? then Ok(Put(result, OutKey(key, value), out.value)) else Ok(result)
  }

  /** The loop of flattenFieldsMainIssue run over `fields`, starting from `result`. */
  function FlattenFrom(result: Entries, fields: Entries): Outcome<Entries>
    decreases |fields|
  {
    if fields == [] then Ok(result)
    else
      var next :- FlattenStep(result, fields[0].0, fields[0].1);
      FlattenFrom(next, fields[1..])
  }

  /** `flattenFieldsMainIssue(fields)` */
  method FlattenFields(fields: Entries) returns (r: Outcome<Entries>)
    ensures r == FlattenFrom([], fields)
  {
    var result: Entries := [];
    var i := 0;
    while i < |fields|
      invariant 0 <= i <= |fields|
      invariant FlattenFrom(result, fields[i..]) == FlattenFrom([], fields)
    {
      var key, value := fields[i].0, fields[i].1;
      assert fields[i..][1..] == fields[i + 1..];
      if key == "Sub-tasks" && value.Arr? {
        var rows := MapRows(value.items, SubtaskRow);
        if rows.Throws? {
          return Throws;
        }
        result := Put(result, "Subtasks", Arr(rows.value));
      } else if key == "Attachment" && value.Arr? {
        var rows := MapRows(value.items, AttachmentRow);
        if rows.Throws? {
          return Throws;
        }
        result := Put(result, "Attachments", Arr(rows.value));
      } else if key == "Comment" && Nullish(value) {
        return Throws;
      } else if key == "Comment" && Prop(value, "comments").Arr? {
        var rows := MapRows(Prop(value, "comments").items, CommentRow);
        if rows.Throws? {
          return Throws;
        }
        result := Put(result, "Comments", Arr(rows.value));
      } else {
        var out := FlattenValue(value);
        if out.Throws? {
          return Throws;
        }
        if out.value.Some? {
          result := Put(result, key, out.value.value);
        }
      }
      i := i + 1;
    }
    assert fields[i..] == [];
    return Ok(result);
  }

  /** What one field contributes to the flat record: at most one entry. */
  function Written(key: string, value: Value): Entries {
    match OutValue(key, value)
    case Ok(Some(x)) => [(OutKey(key, value), x)]
    case _ => []
  }

  /** The entries the loop writes, in order. */
  function Writes(fields: Entries): Entries
    decreases |fields|
  {
    if fields == [] then [] else Written(fields[0].0, fields[0].1) + Writes(fields[1..])
  }

  /** The loop throws exactly when the value of some field throws. */
  predicate FlattenThrows(fields: Entries) {
    exists j :: 0 <= j < |fields| && OutValue(fields[j].0, fields[j].1).Throws?
  }

  /** The throwing fields of `fields` are its head's, if it throws, and its tail's. */
  lemma FlattenThrowsCons(fields: Entries)
    requires fields != []
    ensures FlattenThrows(fields) <==>
      OutValue(fields[0].0, fields[0].1).Throws? || FlattenThrows(fields[1..])
  {
    var tail := fields[1..];
    if FlattenThrows(tail) {
      var j :| 0 <= j < |tail| && OutValue(tail[j].0, tail[j].1).Throws?;
      assert fields[j + 1] == tail[j];
    }
    if FlattenThrows(fields) {
      var j :| 0 <= j < |fields| && OutValue(fields[j].0, fields[j].1).Throws?;
      if j > 0 {
        assert tail[j - 1] == fields[j];
      }
    }
  }

  /** One iteration writes exactly what the field contributes. */
  lemma StepIsWritten(result: Entries, key: string, value: Value)
    ensures FlattenStep(result, key, value) ==
      if OutValue(key, value).Throws? then Throws else Ok(PutAll(result, Written(key, value)))
  {
    var written := Written(key, value);
    if written != [] {
      assert PutAll(result, written) == Put(PutAll(result, []), written[0].0, written[0].1);
    }
  }

  /** Flattening is writing, in field order, the entry every field yields: the loop
      throws as soon as one field does, and otherwise no field sees another's value. */
  lemma {:induction false} FlattenIsWrites(result: Entries, fields: Entries)
    ensures FlattenFrom(result, fields) ==
      if FlattenThrows(fields) then Throws else Ok(PutAll(result, Writes(fields)))
    decreases |fields|
  {
    if fields == [] {
      assert !FlattenThrows(fields);
    } else {
      var key, value := fields[0].0, fields[0].1;
      var tail := fields[1..];
      FlattenThrowsCons(fields);
      StepIsWritten(result, key, value);
      if !OutValue(key, value).Throws? {
        var written := Written(key, value);
        var next := PutAll(result, written);
        assert FlattenFrom(result, fields) == FlattenFrom(next, tail);
        FlattenIsWrites(next, tail);
        assert Writes(fields) == written + Writes(tail);
        if written == [] {
          assert written + Writes(tail) == Writes(tail);
        } else {
          assert next == Put(result, written[0].0, written[0].1);
          PutAllCons(result, written[0].0, written[0].1, Writes(tail));
        }
      }
    }
  }

  /** The entry field `j` yields, when it yields one, is among the writes. */
  lemma {:induction false} WritesHasField(fields: Entries, j: nat)
    requires j < |fields| && Written(fields[j].0, fields[j].1) != []
    ensures Written(fields[j].0, fields[j].1)[0] in Writes(fields)
    decreases |fields|
  {
    if j > 0 {
      WritesHasField(fields[1..], j - 1);
    }
  }

  /** Every entry written comes from one field. */
  lemma {:induction false} WritesFromFields(fields: Entries)
    ensures forall e :: e in Writes(fields) ==>
      exists j :: 0 <= j < |fields| && Written(fields[j].0, fields[j].1) == [e]
    decreases |fields|
  {
    if fields != [] {
      WritesFromFields(fields[1..]);
      forall e | e in Writes(fields)
        ensures exists j :: 0 <= j < |fields| && Written(fields[j].0, fields[j].1) == [e]
      {
        if e in Written(fields[0].0, fields[0].1) {
          assert Written(fields[0].0, fields[0].1) == [e];
        } else {
          assert e in Writes(fields[1..]);
          var j :| 0 <= j < |fields[1..]| && Written(fields[1..][j].0, fields[1..][j].1) == [e];
          assert fields[j + 1] == fields[1..][j];
        }
      }
    }
  }

  /** A field writes nothing when its value is null, undefined or a boolean, and what
      it writes goes under its own key, or under `Subtasks`, `Attachments` or
      `Comments` for those lists. */
  lemma WrittenValue(key: string, value: Value)
    requires Written(key, value) != []
    ensures !Nullish(value) && !value.Bool?
    ensures Written(key, value)[0].0 in {key, "Subtasks", "Attachments", "Comments"}
  {
  }

  // ---------------------------------------------------------------------------
  // generalCleaning: the map from field identifiers to field names

  /** The write `fieldMap[field.id] = field.name` one field description makes. */
  function FieldPair(field: Value): (string, Value) {
    (ToStr(Prop(field, "id")), Prop(field, "name"))
  }

  /** The writes of `allFields.forEach(...)`, in order. */
  function FieldPairs(fields: seq<Value>): (r: Entries)
    ensures |r| == |fields| && forall i :: 0 <= i < |fields| ==> r[i] == FieldPair(fields[i])
  {
    seq(|fields|, i requires 0 <= i < |fields| => FieldPair(fields[i]))
  }

  /** The field map: `allFields.forEach` throws when the listing did not arrive as an
      array (a failed request yields `undefined`) or holds a `null` entry. */
  function FieldMapOf(allFields: Value): Outcome<Entries> {
    if !allFields.Arr? || HasNullish(allFields.items) then Throws
    else Ok(PutAll([], FieldPairs(allFields.items)))
  }

  /** The `forEach` loop that fills the field map. */
  method BuildFieldMap(allFields: Value) returns (r: Outcome<Entries>)
    ensures r == FieldMapOf(allFields)
  {
    if !allFields.Arr? {
      return Throws;
    }
    var items := allFields.items;
    ghost var pairs := FieldPairs(items);
    var fieldMap: Entries := [];
    var i := 0;
    while i < |items|
      invariant 0 <= i <= |items|
      invariant !HasNullish(items[..i])
      invariant fieldMap == PutAll([], pairs[..i])
    {
      if Nullish(items[i]) {
        assert HasNullish(items);
        return Throws;
      }
      assert !HasNullish(items[..i + 1]) by {
        assert items[..i + 1] == items[..i] + [items[i]];
      }
      assert pairs[..i + 1] == pairs[..i] + [FieldPair(items[i])];
      PutAllSnoc([], pairs[..i], FieldPair(items[i]));
      fieldMap := Put(fieldMap, ToStr(Prop(items[i], "id")), Prop(items[i], "name"));
      i := i + 1;
    }
    assert pairs[..i] == pairs;
    assert items[..i] == items;
    return Ok(fieldMap);
  }

  /** The map knows exactly the identifiers of the listed fields, and the name of the
      last field listed with an identifier is the one kept for it. */
  lemma FieldMapSpec(allFields: Value, j: nat)
    requires FieldMapOf(allFields).Ok? && j < |allFields.items|
    requires forall j' :: j < j' < |allFields.items| ==> FieldPair(allFields.items[j']).0 != FieldPair(allFields.items[j]).0
    ensures forall k :: k in Keys(FieldMapOf(allFields).value) <==>
      exists i :: 0 <= i < |allFields.items| && FieldPair(allFields.items[i]).0 == k
    ensures Get(FieldMapOf(allFields).value, FieldPair(allFields.items[j]).0) == Prop(allFields.items[j], "name")
  {
    var pairs := FieldPairs(allFields.items);
    PutAllKeys([], pairs);
    forall k ensures k in Keys(pairs) <==> exists i :: 0 <= i < |allFields.items| && FieldPair(allFields.items[i]).0 == k {
      if k in Keys(pairs) {
        var i :| 0 <= i < |pairs| && pairs[i].0 == k;
        assert FieldPair(allFields.items[i]).0 == k;
      }
    }
    PutAllLastWins([], pairs, j);
  }

  // ---------------------------------------------------------------------------
  // generalCleaning: renaming

  /** `fieldMap[key] || key`, as the property name it becomes: the key itself when the
      map does not know it or maps it to a falsy name (a field listed without a
      `name`), and the name written as a string otherwise. */
  function Label(fieldMap: Entries, key: string): (r: string)
    ensures key !in Keys(fieldMap) ==> r == key
    ensures !Truthy(Get(fieldMap, key)) ==> r == key
    ensures Get(fieldMap, key).Str? && Get(fieldMap, key).s != "" ==> r == Get(fieldMap, key).s
    ensures Truthy(Get(fieldMap, key)) ==> r == ToStr(Get(fieldMap, key))
  {
    GetAbsent(fieldMap, key);
    ToStr(Or(Get(fieldMap, key), Str(key)))
  }

  /** Every field under its label, in field order. */
  function Relabel(fields: Entries, fieldMap: Entries): (r: Entries)
    ensures |r| == |fields|
    ensures forall i :: 0 <= i < |fields| ==> r[i] == (Label(fieldMap, fields[i].0), fields[i].1)
  {
    seq(|fields|, i requires 0 <= i < |fields| => (Label(fieldMap, fields[i].0), fields[i].1))
  }

  /** `renamedFields`: the relabelled fields written one after the other into an
      empty object. */
  function RenameFrom(fields: Entries, fieldMap: Entries): Entries {
    PutAll([], Relabel(fields, fieldMap))
  }

  /** The renaming loop of generalCleaning. */
  method Rename(fields: Entries, fieldMap: Entries) returns (renamed: Entries)
    ensures renamed == RenameFrom(fields, fieldMap)
  {
    renamed := [];
    var i := 0;
    while i < |fields|
      invariant 0 <= i <= |fields|
      invariant renamed == PutAll([], Relabel(fields[..i], fieldMap))
    {
      var readableKey := ToStr(Or(Get(fieldMap, fields[i].0), Str(fields[i].0)));
      assert Relabel(fields[..i + 1], fieldMap)[..i] == Relabel(fields[..i], fieldMap);
      renamed := Put(renamed, readableKey, fields[i].1);
      i := i + 1;
    }
    assert fields[..i] == fields;
  }

  /** The renamed object has a property for the label of every field and no other;
      its values are field values under their own label; its keys are distinct. */
  lemma RenameSpec(fields: Entries, fieldMap: Entries)
    ensures forall k :: k in Keys(RenameFrom(fields, fieldMap)) <==>
      exists i :: 0 <= i < |fields| && Label(fieldMap, fields[i].0) == k
    ensures forall e :: e in RenameFrom(fields, fieldMap) ==>
      exists i :: 0 <= i < |fields| && e == (Label(fieldMap, fields[i].0), fields[i].1)
    ensures UniqueKeys(RenameFrom(fields, fieldMap))
  {
    var pairs := Relabel(fields, fieldMap);
    PutAllKeys([], pairs);
    PutAllEntries([], pairs);
    PutAllUnique([], pairs);
    forall k ensures k in Keys(pairs) <==> exists i :: 0 <= i < |fields| && Label(fieldMap, fields[i].0) == k {
      if k in Keys(pairs) {
        var i :| 0 <= i < |pairs| && pairs[i].0 == k;
      }
    }
    forall e | e in pairs ensures exists i :: 0 <= i < |fields| && e == (Label(fieldMap, fields[i].0), fields[i].1) {
      var i :| 0 <= i < |pairs| && pairs[i] == e;
    }
  }

  /** When no two fields share a label, renaming relabels every field in place. */
  lemma RenameDistinct(fields: Entries, fieldMap: Entries)
    requires UniqueKeys(Relabel(fields, fieldMap))
    ensures RenameFrom(fields, fieldMap) == Relabel(fields, fieldMap)
  {
    PutAllIntoEmpty(Relabel(fields, fieldMap));
  }

  /** Fields the map does not know keep their identifier: with an empty map, renaming
      gives the fields back. */
  lemma RenameUnknown(fields: Entries)
    requires UniqueKeys(fields)
    ensures RenameFrom(fields, []) == fields
  {
    var pairs := Relabel(fields, []);
    assert pairs == fields;
    PutAllIntoEmpty(fields);
  }

  // ---------------------------------------------------------------------------
  // generalCleaning

  /** The issue with its `null` properties dropped: at the top level, and inside
      `fields` when that is truthy. */
  function Cleaned(fetched: Value): Entries {
    var top := PutAll([], NonNull(ForIn(fetched)));
    var fields := Prop(fetched, "fields");
    if Truthy(fields) then Put(top, "fields", Obj(PutAll([], NonNull(ForIn(fields))))) else top
  }

  /** `generalCleaning`, given the field listing and the issue as the two requests
      returned them (`undefined` when a request failed). Reading `fields` of a missing
      issue throws, and so does `forEach` on a missing field listing. */
  function CleanIssue(allFields: Value, fetched: Value): Outcome<Entries> {
    if Nullish(fetched) then Throws
    else
      var clean := Cleaned(fetched);
      var fieldMap :- FieldMapOf(allFields);
      Ok(Put(clean, "fields", Obj(RenameFrom(ForIn(Get(clean, "fields")), fieldMap))))
  }

  method GeneralCleaning(allFields: Value, fetched: Value) returns (r: Outcome<Entries>)
    ensures r == CleanIssue(allFields, fetched)
  {
    var cleanIssue := DropNull(ForIn(fetched), []);
    if Nullish(fetched) {
      return Throws;
    }
    var fields := Prop(fetched, "fields");
    if Truthy(fields) {
      var cleanFields := DropNull(ForIn(fields), []);
      cleanIssue := Put(cleanIssue, "fields", Obj(cleanFields));
    }
    var fieldMap := BuildFieldMap(allFields);
    if fieldMap.Throws? {
      return Throws;
    }
    var renamedFields := Rename(ForIn(Get(cleanIssue, "fields")), fieldMap.value);
    cleanIssue := Put(cleanIssue, "fields", Obj(renamedFields));
    return Ok(cleanIssue);
  }

  /** generalCleaning fails exactly when the issue or the field listing is missing, or
      the listing is not an array of field descriptions. */
  lemma CleanIssueFails(allFields: Value, fetched: Value)
    ensures CleanIssue(allFields, fetched).Throws? <==>
      Nullish(fetched) || !allFields.Arr? || HasNullish(allFields.items)
  {
  }

  /** Apart from `fields`, the cleaned issue has exactly the non-null top-level
      properties of the issue, with their values; `fields` is always an object. */
  lemma CleanIssueTop(allFields: Value, fetched: Value, k: string)
    requires CleanIssue(allFields, fetched).Ok? && UniqueKeys(ForIn(fetched)) && k != "fields"
    ensures k in Keys(CleanIssue(allFields, fetched).value) <==>
      k in Keys(ForIn(fetched)) && Get(ForIn(fetched), k) != Null
    ensures Get(CleanIssue(allFields, fetched).value, k) ==
      if Get(ForIn(fetched), k) == Null then Undefined else Get(ForIn(fetched), k)
    ensures "fields" in Keys(CleanIssue(allFields, fetched).value)
    ensures Get(CleanIssue(allFields, fetched).value, "fields").Obj?
  {
    var issue := ForIn(fetched);
    var top := PutAll([], NonNull(issue));
    DropNullSpec(issue, []);
    GetAbsent(issue, k);
    GetAbsent([], k);
    var clean := Cleaned(fetched);
    var fields := Prop(fetched, "fields");
    if Truthy(fields) {
      PutKeys(top, "fields", Obj(PutAll([], NonNull(ForIn(fields)))));
      PutGet(top, "fields", Obj(PutAll([], NonNull(ForIn(fields)))), k);
    }
    var fieldMap := FieldMapOf(allFields).value;
    var last := Obj(RenameFrom(ForIn(Get(clean, "fields")), fieldMap));
    PutKeys(clean, "fields", last);
    PutGet(clean, "fields", last, k);
    PutGet(clean, "fields", last, "fields");
  }

  /** When the issue's `fields` is an object, the cleaned issue's `fields` holds its
      non-null fields under their names. */
  lemma CleanIssueFields(allFields: Value, fetched: Value)
    requires CleanIssue(allFields, fetched).Ok? && fetched.Obj? && UniqueKeys(fetched.entries)
    requires Prop(fetched, "fields").Obj? && UniqueKeys(Prop(fetched, "fields").entries)
    ensures Get(CleanIssue(allFields, fetched).value, "fields") ==
      Obj(RenameFrom(NonNull(Prop(fetched, "fields").entries), FieldMapOf(allFields).value))
  {
    var fields := Prop(fetched, "fields");
    var fieldMap := FieldMapOf(allFields).value;
    var top := PutAll([], NonNull(fetched.entries));
    var clean := Cleaned(fetched);
    var inner := Obj(PutAll([], NonNull(fields.entries)));
    PutGet(clean, "fields", Obj(RenameFrom(ForIn(Get(clean, "fields")), fieldMap)), "fields");
    PutGet(top, "fields", inner, "fields");
    DropNullSpec(fields.entries, []);
  }

  /** When the issue's `fields` is missing, `null` or falsy, the cleaned issue's
      `fields` is an empty object. */
  lemma CleanIssueNoFields(allFields: Value, fetched: Value)
    requires CleanIssue(allFields, fetched).Ok? && fetched.Obj? && UniqueKeys(fetched.entries)
    requires !Truthy(Prop(fetched, "fields"))
    ensures Get(CleanIssue(allFields, fetched).value, "fields") == Obj([])
  {
    CleanedNoFields(fetched);
    RenamedNoFields(Cleaned(fetched), FieldMapOf(allFields).value);
  }

  /** Dropping nulls keeps a falsy `fields` falsy, or leaves it out. */
  lemma CleanedNoFields(fetched: Value)
    requires fetched.Obj? && UniqueKeys(fetched.entries) && !Truthy(Prop(fetched, "fields"))
    ensures !Truthy(Get(Cleaned(fetched), "fields"))
  {
    DropNullSpec(fetched.entries, []);
    GetAbsent(fetched.entries, "fields");
  }

  /** Renaming the fields of a falsy `fields` yields an empty object. */
  lemma RenamedNoFields(clean: Entries, fieldMap: Entries)
    requires !Truthy(Get(clean, "fields"))
    ensures Get(Put(clean, "fields", Obj(RenameFrom(ForIn(Get(clean, "fields")), fieldMap))), "fields") == Obj([])
  {
    assert ForIn(Get(clean, "fields")) == [];
    assert RenameFrom([], fieldMap) == [];
    PutGet(clean, "fields", Obj([]), "fields");
  }

  // ---------------------------------------------------------------------------
  // dropFields and finalObject

  /** The fields that never reach the report. */
  const KeysToDrop: seq<string> := [
    "Linked Issues", "Votes", "Log Work", "Time tracking", "ΤΙΜΗ ΒΕΡ", "Work Ratio",
    "Request participants", "Components", "Progress", "Συνεργείο Εμφύσησης", "Watchers",
    "[CHART] Time in Status", "Parent Link", "Rank", "Organizations", "Fix versions",
    "Affects versions", "Σ Progress", "[CHART] Date of First Response",
    "Συνεργείο Ηλεκτρολόγου", "Συνεργείο Μηχανικού"]

  /** The issue's `key` and the three lists are not among the dropped fields. */
  lemma KeyKept()
    ensures "key" !in KeysToDrop
    ensures "Comments" !in KeysToDrop && "Attachments" !in KeysToDrop && "Subtasks" !in KeysToDrop
  {
    forall i | 0 <= i < |KeysToDrop|
      ensures KeysToDrop[i] != "key" && KeysToDrop[i] != "Subtasks"
      ensures KeysToDrop[i] != "Comments" && KeysToDrop[i] != "Attachments"
    {
      // No dropped field has three letters or starts with 'S', the one starting with
      // 'C' is not eight long and the one starting with 'A' is not eleven long.
      assert |KeysToDrop[i]| != 3 && KeysToDrop[i][0] != 'S';
      assert KeysToDrop[i][0] == 'C' ==> |KeysToDrop[i]| != 8;
      assert KeysToDrop[i][0] == 'A' ==> |KeysToDrop[i]| != 11;
    }
  }

  /** `dropFields(obj, keys)`: the properties of `obj` whose key is not in `keys`,
      copied into a new object. */
  function DropFieldsOf(obj: Entries, keys: seq<string>): Entries {
    PutAll([], Without(obj, keys))
  }

  method DropFields(obj: Entries, keys: seq<string>) returns (cleaned: Entries)
    ensures cleaned == DropFieldsOf(obj, keys)
  {
    cleaned := [];
    var i := 0;
    while i < |obj|
      invariant 0 <= i <= |obj|
      invariant cleaned == PutAll([], Without(obj[..i], keys))
    {
      var key := obj[i].0;
      FilterPrefix(obj, i, NotIn(keys));
      if key !in keys {
        PutAllSnoc([], Without(obj[..i], keys), obj[i]);
        cleaned := Put(cleaned, key, obj[i].1);
      } else {
        assert Without(obj[..i], keys) + [] == Without(obj[..i], keys);
      }
      i := i + 1;
    }
    assert obj[..i] == obj;
  }

  /** Dropping copies the other properties of an object unchanged and in order. */
  lemma DropFieldsSpec(obj: Entries, keys: seq<string>)
    requires UniqueKeys(obj)
    ensures DropFieldsOf(obj, keys) == Without(obj, keys)
    ensures forall k :: k in Keys(DropFieldsOf(obj, keys)) <==> k in Keys(obj) && k !in keys
    ensures forall k :: k !in keys ==> Get(DropFieldsOf(obj, keys), k) == Get(obj, k)
    ensures UniqueKeys(DropFieldsOf(obj, keys))
  {
    WithoutSpec(obj, keys);
    PutAllIntoEmpty(Without(obj, keys));
  }

  /** `finalObject`: the cleaned issue's fields flattened, its `key` added, and the
      noise fields dropped. */
  function FinalObjectOf(allFields: Value, fetched: Value): Outcome<Entries> {
    var clean :- CleanIssue(allFields, fetched);
    var flat :- FlattenFrom([], ForIn(Get(clean, "fields")));
    Ok(DropFieldsOf(Put(flat, "key", Get(clean, "key")), KeysToDrop))
  }

  method FinalObject(allFields: Value, fetched: Value) returns (r: Outcome<Entries>)
    ensures r == FinalObjectOf(allFields, fetched)
  {
    var cleanIssue := GeneralCleaning(allFields, fetched);
    if cleanIssue.Throws? {
      return Throws;
    }
    var flattenedIssue := FlattenFields(ForIn(Get(cleanIssue.value, "fields")));
    if flattenedIssue.Throws? {
      return Throws;
    }
    var withKey := Put(flattenedIssue.value, "key", Get(cleanIssue.value, "key"));
    var droppedFields := DropFields(withKey, KeysToDrop);
    return Ok(droppedFields);
  }

  /** The flat record before dropping, as the writes of the renamed fields plus `key`. */
  lemma FinalObjectWrites(allFields: Value, fetched: Value)
    requires FinalObjectOf(allFields, fetched).Ok?
    ensures var clean := CleanIssue(allFields, fetched).value;
      var fields := ForIn(Get(clean, "fields"));
      !FlattenThrows(fields) &&
      FinalObjectOf(allFields, fetched).value ==
        Without(Put(PutAll([], Writes(fields)), "key", Get(clean, "key")), KeysToDrop)
  {
    var clean := CleanIssue(allFields, fetched).value;
    var fields := ForIn(Get(clean, "fields"));
    FlattenIsWrites([], fields);
    var flat := PutAll([], Writes(fields));
    PutAllUnique([], Writes(fields));
    PutUnique(flat, "key", Get(clean, "key"));
    DropFieldsSpec(Put(flat, "key", Get(clean, "key")), KeysToDrop);
  }

  /** What dropping leaves of a flat record built from the writes `ws` plus `key`:
      `key` with its value, none of the dropped keys, distinct keys. */
  lemma RecordKeys(ws: Entries, key: Value, keys: seq<string>)
    requires "key" !in keys
    ensures "key" in Keys(Without(Put(PutAll([], ws), "key", key), keys))
    ensures Get(Without(Put(PutAll([], ws), "key", key), keys), "key") == key
    ensures forall k :: k in keys ==> k !in Keys(Without(Put(PutAll([], ws), "key", key), keys))
    ensures UniqueKeys(Without(Put(PutAll([], ws), "key", key), keys))
  {
    var flat := PutAll([], ws);
    var withKey := Put(flat, "key", key);
    PutAllUnique([], ws);
    PutUnique(flat, "key", key);
    PutKeys(flat, "key", key);
    PutGet(flat, "key", key, "key");
    WithoutSpec(withKey, keys);
  }

  /** Every entry of such a record other than `key` is one of the writes. */
  lemma RecordEntries(ws: Entries, key: Value, keys: seq<string>)
    ensures forall e :: e in Without(Put(PutAll([], ws), "key", key), keys) && e.0 != "key" ==> e in ws
  {
    var flat := PutAll([], ws);
    var withKey := Put(flat, "key", key);
    FilterMembers(withKey, NotIn(keys));
    PutEntries(flat, "key", key);
    PutAllEntries([], ws);
  }

  /** The final record always has the issue's `key`, never a dropped field, and no key
      twice. */
  lemma FinalObjectKeys(allFields: Value, fetched: Value)
    requires FinalObjectOf(allFields, fetched).Ok?
    ensures "key" in Keys(FinalObjectOf(allFields, fetched).value)
    ensures Get(FinalObjectOf(allFields, fetched).value, "key") ==
      Get(CleanIssue(allFields, fetched).value, "key")
    ensures forall k :: k in KeysToDrop ==> k !in Keys(FinalObjectOf(allFields, fetched).value)
    ensures UniqueKeys(FinalObjectOf(allFields, fetched).value)
  {
    var clean := CleanIssue(allFields, fetched).value;
    FinalObjectWrites(allFields, fetched);
    KeyKept();
    RecordKeys(Writes(ForIn(Get(clean, "fields"))), Get(clean, "key"), KeysToDrop);
  }

  /** The `key` of the final record is the issue's own `key`. */
  lemma FinalObjectIssueKey(allFields: Value, fetched: Value)
    requires FinalObjectOf(allFields, fetched).Ok? && UniqueKeys(ForIn(fetched))
    ensures Get(FinalObjectOf(allFields, fetched).value, "key") ==
      if Get(ForIn(fetched), "key") == Null then Undefined else Get(ForIn(fetched), "key")
  {
    FinalObjectKeys(allFields, fetched);
    CleanIssueTop(allFields, fetched, "key");
  }

  /** Besides `key`, every entry of the final record is the one entry some renamed
      field was flattened to, and that field was neither `null`, `undefined` nor a
      boolean. */
  lemma FinalObjectOrigin(allFields: Value, fetched: Value)
    requires FinalObjectOf(allFields, fetched).Ok?
    ensures var fields := ForIn(Get(CleanIssue(allFields, fetched).value, "fields"));
      forall e :: e in FinalObjectOf(allFields, fetched).value && e.0 != "key" ==>
        exists j :: 0 <= j < |fields| && Written(fields[j].0, fields[j].1) == [e] &&
                    !Nullish(fields[j].1) && !fields[j].1.Bool?
  {
    var clean := CleanIssue(allFields, fetched).value;
    var fields := ForIn(Get(clean, "fields"));
    FinalObjectWrites(allFields, fetched);
    RecordEntries(Writes(fields), Get(clean, "key"), KeysToDrop);
    WritesFromFields(fields);
    forall e | e in FinalObjectOf(allFields, fetched).value && e.0 != "key"
      ensures exists j :: 0 <= j < |fields| && Written(fields[j].0, fields[j].1) == [e] &&
                          !Nullish(fields[j].1) && !fields[j].1.Bool?
    {
      var j :| 0 <= j < |fields| && Written(fields[j].0, fields[j].1) == [e];
      WrittenValue(fields[j].0, fields[j].1);
    }
  }
}
