/** The sections of the report: the main issue (`populateMainIssue`), one section per
    subtask (`testSubtaskFetch`) and the whole export (`createPdf`). */
module Composer {
  import opened Json
  import opened Report
  import opened Normalize
  import opened Attachments

  // ---------------------------------------------------------------------------
  // dateRegex: /^\d{4}-\d{2}-\d{2}T\d{2}:\d{2}:\d{2}\.\d+\+\d{4}$/

  predicate IsDigit(c: char) {
    '0' <= c <= '9'
  }

  predicate AllDigits(s: string) {
    forall i :: 0 <= i < |s| ==> IsDigit(s[i])
  }

  /** Whether `dateRegex.test(s)` holds: a date, a time with seconds, a fraction of
      at least one digit and a positive four-digit UTC offset, and nothing else. Since
      the fraction cannot contain `+`, the offset sign is the fifth character from the
      end. */
  predicate MatchesDate(s: string) {
    |s| >= 26 &&
    AllDigits(s[..4]) && s[4] == '-' && AllDigits(s[5..7]) && s[7] == '-' && AllDigits(s[8..10]) &&
    s[10] == 'T' && AllDigits(s[11..13]) && s[13] == ':' && AllDigits(s[14..16]) && s[16] == ':' &&
    AllDigits(s[17..19]) && s[19] == '.' && AllDigits(s[20..|s| - 5]) &&
    s[|s| - 5] == '+' && AllDigits(s[|s| - 4..])
  }

  /** A timestamp as Jira writes it, assembled from its parts. */
  function Timestamp(date: string, time: string, fraction: string, zone: string): string {
    date + "T" + time + "." + fraction + "+" + zone
  }

  /** The date part `yyyy-mm-dd` and the time part `hh:mm:ss`. */
  predicate DatePart(d: string) {
    |d| == 10 && AllDigits(d[..4]) && d[4] == '-' && AllDigits(d[5..7]) && d[7] == '-' && AllDigits(d[8..])
  }

  predicate TimePart(t: string) {
    |t| == 8 && AllDigits(t[..2]) && t[2] == ':' && AllDigits(t[3..5]) && t[5] == ':' && AllDigits(t[6..])
  }

  /** Every well-formed timestamp with a positive offset matches. */
  lemma TimestampMatches(date: string, time: string, fraction: string, zone: string)
    requires DatePart(date) && TimePart(time)
    requires |fraction| >= 1 && AllDigits(fraction) && |zone| == 4 && AllDigits(zone)
    ensures MatchesDate(Timestamp(date, time, fraction, zone))
  {
    var s := Timestamp(date, time, fraction, zone);
    assert s[..10] == date;
    assert s[11..19] == time;
    assert s[20..|s| - 5] == fraction;
    assert s[|s| - 4..] == zone;
    assert s[..4] == date[..4] && s[5..7] == date[5..7] && s[8..10] == date[8..];
    assert s[11..13] == time[..2] && s[14..16] == time[3..5] && s[17..19] == time[6..];
  }

  /** And every string that matches is such a timestamp. */
  lemma MatchesAreTimestamps(s: string)
    requires MatchesDate(s)
    ensures DatePart(s[..10]) && TimePart(s[11..19])
    ensures s == Timestamp(s[..10], s[11..19], s[20..|s| - 5], s[|s| - 4..])
  {
    assert s[..10][..4] == s[..4] && s[..10][5..7] == s[5..7] && s[..10][8..] == s[8..10];
    assert s[11..19][..2] == s[11..13] && s[11..19][3..5] == s[14..16] && s[11..19][6..] == s[17..19];
  }

  /** A timestamp from Jira in Eastern European time is recognised; one with a
      negative offset, a bare date or an empty string is not. */
  lemma DateExamples()
    ensures MatchesDate("2024-03-05T14:07:09.123+0200")
    ensures !MatchesDate("2024-03-05T14:07:09.123-0500")
    ensures !MatchesDate("2024-03-05") && !MatchesDate("")
  {
    TimestampMatches("2024-03-05", "14:07:09", "123", "0200");
    assert Timestamp("2024-03-05", "14:07:09", "123", "0200") == "2024-03-05T14:07:09.123+0200";
    var neg := "2024-03-05T14:07:09.123-0500";
    assert neg[|neg| - 5] == '-';
  }

  // ---------------------------------------------------------------------------
  // The remaining-field loop

  /** The line drawn for one remaining field: it names the field and shows the value
      in exactly one of three ways: an empty string reads "null", a timestamp is
      formatted, and anything else is handed to the document as it is. */
  function FieldLine(key: string, value: Value): (r: Instr)
    ensures r.Line? && |r.cells| == 2 && r.cells[0] == Plain(key + ": ")
    ensures r.cells[1] == Plain("null") <==> value == Str("")
    ensures r.cells[1] == DateOf(value) <==> value.Str? && MatchesDate(value.s)
    ensures r.cells[1] == Shown(value) <==> !(value.Str? && (value.s == "" || MatchesDate(value.s)))
  {
    if value == Str("") then Line([Plain(key + ": "), Plain("null")])
    else if value.Str? && MatchesDate(value.s) then Line([Plain(key + ": "), DateOf(value)])
    else Line([Plain(key + ": "), Shown(value)])
  }

  /** The lines of the fields left in `obj`, in `for…in` order. */
  function FieldItem(obj: Entries): (string, nat) -> seq<Instr> {
    (key: string, i: nat) => [FieldLine(key, Get(obj, key))]
  }

  function FieldLines(obj: Entries): seq<Instr> {
    Layout(Keys(obj), FieldItem(obj), |obj|)
  }

  /** One line per field, the i-th for the i-th property. */
  lemma FieldLinesAt(obj: Entries)
    requires UniqueKeys(obj)
    ensures |FieldLines(obj)| == |obj|
    ensures forall i :: 0 <= i < |obj| ==> FieldLines(obj)[i] == FieldLine(obj[i].0, obj[i].1)
  {
    var keys := Keys(obj);
    LayoutSingles(keys, FieldItem(obj), |obj|);
    forall i | 0 <= i < |obj|
      ensures FieldLines(obj)[i] == FieldLine(obj[i].0, obj[i].1)
    {
      GetAt(obj, i);
    }
  }

  /** The field lines start no page and draw no heading. */
  lemma FieldLinesFree(obj: Entries, x: Instr)
    requires x.NewPage? || x.Heading?
    ensures x !in FieldLines(obj)
  {
    LayoutFree(Keys(obj), FieldItem(obj), |obj|, x);
  }

  /** The `for (const key in cloneObj)` loop. */
  method DrawFields(doc: Document, obj: Entries)
    modifies doc
    ensures doc.ops == old(doc.ops) + FieldLines(obj)
  {
    var keys := Keys(ForIn(Obj(obj)));
    ghost var start := doc.ops;
    var i := 0;
    while i < |keys|
      invariant 0 <= i <= |keys| && keys == Keys(obj)
      invariant doc.ops == start + Layout(keys, FieldItem(obj), i)
    {
      var key := keys[i];
      var value := Get(obj, key);
      if value == Str("") {
        doc.Draw([Line([Plain(key + ": "), Plain("null")])]);
      } else if value.Str? && MatchesDate(value.s) {
        doc.Draw([Line([Plain(key + ": "), DateOf(value)])]);
      } else {
        doc.Draw([Line([Plain(key + ": "), Shown(value)])]);
      }
      LayoutStep(start, keys, FieldItem(obj), i);
      i := i + 1;
    }
  }

  // ---------------------------------------------------------------------------
  // forEach over comments and subtasks

  /** `list.forEach(...)` with a callback that reads properties of every element and
      draws `block` for it: anything but an array throws before drawing, and a `null`
      or `undefined` element throws when it is reached. */
  function ForEach(list: Value, block: (Value, nat) -> seq<Instr>): Drawing {
    if !list.Arr? then Drawing([], false)
    else
      var n := FirstNullish(list.items);
      Drawing(Layout(list.items, block, n), n == |list.items|)
  }

  /** The loop finishes exactly on an array without `null` or `undefined`, and then it
      has drawn every block in order. */
  lemma ForEachDone(list: Value, block: (Value, nat) -> seq<Instr>)
    ensures ForEach(list, block).done <==> list.Arr? && !HasNullish(list.items)
    ensures ForEach(list, block).done ==>
      ForEach(list, block).ops == Layout(list.items, block, |list.items|)
  {
  }

  /** The lines of one comment: author and date, text, last editor and date. */
  function CommentBlock(comm: Value): seq<Instr> {
    [Line([Interp(Prop(comm, "author")), Plain("    "), DateOf(Prop(comm, "created"))]),
     Line([Plain("Text: "), Shown(Prop(comm, "text"))]),
     Line([Plain("Update: "), Interp(Prop(comm, "update author")), Plain("    "), DateOf(Prop(comm, "updated"))])]
  }

  const CommentItem: (Value, nat) -> seq<Instr> := (comm: Value, i: nat) => CommentBlock(comm)

  /** The lines of one subtask in the main issue's index. */
  function SubtaskEntry(sub: Value): seq<Instr> {
    [Heading(ToStr(Prop(sub, "key"))),
     Line([Interp(Prop(sub, "summary"))]),
     Line([Plain("Status: "), Interp(Prop(sub, "status"))]),
     Line([Plain("Priority: "), Interp(Prop(sub, "priority"))]),
     Line([Plain("Issue Type: "), Interp(Prop(sub, "issuetype"))])]
  }

  const SubtaskItem: (Value, nat) -> seq<Instr> := (sub: Value, i: nat) => SubtaskEntry(sub)

  /** `comments.forEach(...)` */
  method DrawComments(doc: Document, comments: Value) returns (done: bool)
    modifies doc
    ensures done == ForEach(comments, CommentItem).done
    ensures doc.ops == old(doc.ops) + ForEach(comments, CommentItem).ops
  {
    if !comments.Arr? {
      return false;
    }
    var items := comments.items;
    ghost var start := doc.ops;
    var i := 0;
    while i < |items|
      invariant 0 <= i <= |items| && i <= FirstNullish(items)
      invariant doc.ops == start + Layout(items, CommentItem, i)
    {
      var comm := items[i];
      if Nullish(comm) {
        return false;
      }
      DrawComment(doc, comm);
      LayoutStep(start, items, CommentItem, i);
      i := i + 1;
    }
    return true;
  }

  /** `subtasks.forEach(...)` in the main issue's index. */
  method DrawSubtaskIndex(doc: Document, subtasks: Value) returns (done: bool)
    modifies doc
    ensures done == ForEach(subtasks, SubtaskItem).done
    ensures doc.ops == old(doc.ops) + ForEach(subtasks, SubtaskItem).ops
  {
    if !subtasks.Arr? {
      return false;
    }
    var items := subtasks.items;
    ghost var start := doc.ops;
    var i := 0;
    while i < |items|
      invariant 0 <= i <= |items| && i <= FirstNullish(items)
      invariant doc.ops == start + Layout(items, SubtaskItem, i)
    {
      var sub := items[i];
      if Nullish(sub) {
        return false;
      }
      DrawSubtaskEntry(doc, sub);
      LayoutStep(start, items, SubtaskItem, i);
      i := i + 1;
    }
    return true;
  }

  /** The callback body for one comment. */
  method DrawComment(doc: Document, comm: Value)
    modifies doc
    ensures doc.ops == old(doc.ops) + CommentBlock(comm)
  {
    doc.Draw([Line([Interp(Prop(comm, "author")), Plain("    "), DateOf(Prop(comm, "created"))])]);
    doc.Draw([Line([Plain("Text: "), Shown(Prop(comm, "text"))])]);
    doc.Draw([Line([Plain("Update: "), Interp(Prop(comm, "update author")), Plain("    "),
                    DateOf(Prop(comm, "updated"))])]);
  }

  /** The callback body for one subtask of the index. */
  method DrawSubtaskEntry(doc: Document, sub: Value)
    modifies doc
    ensures doc.ops == old(doc.ops) + SubtaskEntry(sub)
  {
    doc.Draw([Heading(ToStr(Prop(sub, "key")))]);
    doc.Draw([Line([Interp(Prop(sub, "summary"))])]);
    doc.Draw([Line([Plain("Status: "), Interp(Prop(sub, "status"))])]);
    doc.Draw([Line([Plain("Priority: "), Interp(Prop(sub, "priority"))])]);
    doc.Draw([Line([Plain("Issue Type: "), Interp(Prop(sub, "issuetype"))])]);
  }

  // ---------------------------------------------------------------------------
  // populateMainIssue

  /** `basicFields` of the main issue, deleted once their lines are drawn ("Status"
      is listed twice; "Created" is not listed). */
  const MainBasicFields: seq<string> := ["Issue Type", "ΑΚ", "Εταιρεία Ανάθεσης", "Building Id", "Status",
    "Resolution", "Assignee", "Διάρκεια", "Status", "Project", "Start Date", "End Date", "Priority"]

  /** The keys deleted from the main issue's copy, in order, before its remaining
      fields are listed. */
  const MainHidden: seq<string> := ["Comments", "Attachments", "Subtasks", "key", "Summary"] + MainBasicFields

  /** The underlined summary, then the key and the project. */
  function MainTitle(clone: Entries): seq<Instr> {
    [Heading(ToStr(Get(clone, "Summary"))),
     Line([Interp(Get(clone, "key")), Plain(" - "), Interp(Get(clone, "Project"))])]
  }

  /** The fixed lines of the main issue; "ΑΚ" and the assigned company share a line. */
  function MainBasics(clone: Entries): seq<Instr> {
    [Line([Plain("Issue Type: "), Shown(Get(clone, "Issue Type"))]),
     Line([Plain("ΑΚ: "), Interp(Get(clone, "ΑΚ")), Plain("     "),
           Plain("Εταιρεία Ανάθεσης: "), Shown(Get(clone, "Εταιρεία Ανάθεσης"))]),
     Line([Plain("BID: "), Shown(Get(clone, "Building Id"))]),
     Line([Plain("Status: "), Shown(Get(clone, "Status"))]),
     Line([Plain("Resolution: "), Shown(Get(clone, "Resolution"))]),
     Line([Plain("Assignee: "), Shown(Get(clone, "Assignee"))]),
     Line([Plain("Priority: "), Shown(Get(clone, "Priority"))]),
     Line([Plain("Created: "), DateOf(Get(clone, "Created"))]),
     Line([Plain("Start Date: "), DateOf(Get(clone, "Start Date"))]),
     Line([Plain("End Date: "), DateOf(Get(clone, "End Date"))]),
     Line([Plain("Διάρκεια: "), Shown(Get(clone, "Διάρκεια"))])]
  }

  /** The title and the fixed lines. */
  function MainFixed(issue: Entries): seq<Instr> {
    MainTitle(Without(issue, MainHidden[..3])) + MainBasics(Without(issue, MainHidden[..5]))
  }

  /** Everything the main issue draws before its comments. */
  function MainHead(issue: Entries): seq<Instr> {
    MainFixed(issue) + FieldLines(Without(issue, MainHidden)) + [Heading("Comments")]
  }

  /** The comments, the attachments, and the index of subtasks on a page of its own. */
  function MainTail(comments: Value, attachments: Value, subtasks: Value, fetchImage: Value -> ImageOutcome): Drawing {
    Then(ForEach(comments, CommentItem),
      Then(AttachmentsDrawing(attachments, fetchImage),
        Then(Drawing([NewPage, Heading("Subtasks")], true), ForEach(subtasks, SubtaskItem))))
  }

  /** `populateMainIssue(issue, doc)` */
  function MainSection(issue: Entries, fetchImage: Value -> ImageOutcome): Drawing {
    Then(Drawing(MainHead(issue), true),
      MainTail(Get(issue, "Comments"), Get(issue, "Attachments"), Get(issue, "Subtasks"), fetchImage))
  }

  /** The `delete` statements: deleting `ks` one by one from the copy that already
      lacks `gone`. */
  method DeleteEach(clone: Entries, ghost base: Entries, ghost gone: seq<string>, ks: seq<string>)
    returns (r: Entries)
    requires clone == Without(base, gone)
    ensures r == Without(base, gone + ks)
  {
    r := clone;
    var i := 0;
    assert gone + ks[..0] == gone;
    while i < |ks|
      invariant 0 <= i <= |ks|
      invariant r == Without(base, gone + ks[..i])
    {
      DeleteAfterWithout(base, gone + ks[..i], ks[i]);
      assert gone + ks[..i] + [ks[i]] == gone + ks[..i + 1];
      r := Delete(r, ks[i]);
      i := i + 1;
    }
    assert ks[..i] == ks;
  }

  /** From the copy of the issue to the "Comments" heading. */
  method DrawMainHead(doc: Document, issue: Entries)
    modifies doc
    ensures doc.ops == old(doc.ops) + MainHead(issue)
  {
    WithoutNothing(issue);
    var cloneObj := DeleteEach(issue, issue, [], ["Comments", "Attachments", "Subtasks"]);
    assert [] + ["Comments", "Attachments", "Subtasks"] == MainHidden[..3];
    DrawMainTitle(doc, cloneObj);
    ghost var titled := doc.ops;
    cloneObj := DeleteEach(cloneObj, issue, MainHidden[..3], ["key", "Summary"]);
    assert MainHidden[..3] + ["key", "Summary"] == MainHidden[..5];
    DrawMainBasics(doc, cloneObj);
    ghost var based := doc.ops;
    cloneObj := DeleteEach(cloneObj, issue, MainHidden[..5], MainBasicFields);
    assert MainHidden[..5] + MainBasicFields == MainHidden;
    DrawFields(doc, cloneObj);
    doc.Draw([Heading("Comments")]);
    MainHeadSplit(old(doc.ops), issue);
  }

  /** Regrouping the four parts of the head. */
  lemma MainHeadSplit(start: seq<Instr>, issue: Entries)
    ensures start + MainTitle(Without(issue, MainHidden[..3])) + MainBasics(Without(issue, MainHidden[..5]))
      + FieldLines(Without(issue, MainHidden)) + [Heading("Comments")] == start + MainHead(issue)
  {
    var a, b, c := MainTitle(Without(issue, MainHidden[..3])), MainBasics(Without(issue, MainHidden[..5])),
      FieldLines(Without(issue, MainHidden));
    AppendAssoc(start, a + b + c, [Heading("Comments")]);
    AppendAssoc(start, a + b, c);
    AppendAssoc(start, a, b);
  }

  method DrawMainTitle(doc: Document, clone: Entries)
    modifies doc
    ensures doc.ops == old(doc.ops) + MainTitle(clone)
  {
    doc.Draw([Heading(ToStr(Get(clone, "Summary")))]);
    doc.Draw([Line([Interp(Get(clone, "key")), Plain(" - "), Interp(Get(clone, "Project"))])]);
  }

  method DrawMainBasics(doc: Document, clone: Entries)
    modifies doc
    ensures doc.ops == old(doc.ops) + MainBasics(clone)
  {
    doc.Draw([Line([Plain("Issue Type: "), Shown(Get(clone, "Issue Type"))])]);
    doc.Draw([Line([Plain("ΑΚ: "), Interp(Get(clone, "ΑΚ")), Plain("     "),
                    Plain("Εταιρεία Ανάθεσης: "), Shown(Get(clone, "Εταιρεία Ανάθεσης"))])]);
    doc.Draw([Line([Plain("BID: "), Shown(Get(clone, "Building Id"))])]);
    doc.Draw([Line([Plain("Status: "), Shown(Get(clone, "Status"))])]);
    doc.Draw([Line([Plain("Resolution: "), Shown(Get(clone, "Resolution"))])]);
    doc.Draw([Line([Plain("Assignee: "), Shown(Get(clone, "Assignee"))])]);
    doc.Draw([Line([Plain("Priority: "), Shown(Get(clone, "Priority"))])]);
    doc.Draw([Line([Plain("Created: "), DateOf(Get(clone, "Created"))])]);
    doc.Draw([Line([Plain("Start Date: "), DateOf(Get(clone, "Start Date"))])]);
    doc.Draw([Line([Plain("End Date: "), DateOf(Get(clone, "End Date"))])]);
    doc.Draw([Line([Plain("Διάρκεια: "), Shown(Get(clone, "Διάρκεια"))])]);
  }

  /** From the comments to the end of the subtask index. */
  method DrawMainTail(doc: Document, comments: Value, attachments: Value, subtasks: Value,
                      fetchImage: Value -> ImageOutcome) returns (done: bool)
    modifies doc
    ensures done == MainTail(comments, attachments, subtasks, fetchImage).done
    ensures doc.ops == old(doc.ops) + MainTail(comments, attachments, subtasks, fetchImage).ops
  {
    var c := ForEach(comments, CommentItem);
    var a := AttachmentsDrawing(attachments, fetchImage);
    var s := ForEach(subtasks, SubtaskItem);
    done := DrawComments(doc, comments);
    if !done {
      return;
    }
    done := AddAttachmentsToPdf(doc, attachments, fetchImage);
    AppendAssoc(old(doc.ops), c.ops, a.ops);
    if !done {
      return;
    }
    doc.Draw([NewPage, Heading("Subtasks")]);
    done := DrawSubtaskIndex(doc, subtasks);
    AppendAssoc(old(doc.ops) + c.ops + a.ops, [NewPage, Heading("Subtasks")], s.ops);
    AppendAssoc(old(doc.ops) + c.ops, a.ops, [NewPage, Heading("Subtasks")] + s.ops);
    AppendAssoc(old(doc.ops), c.ops, a.ops + ([NewPage, Heading("Subtasks")] + s.ops));
  }

  /** `populateMainIssue(issue, doc)`: the comments, attachments and subtasks are read
      from the copy before their keys are deleted. */
  method PopulateMainIssue(doc: Document, issue: Entries, fetchImage: Value -> ImageOutcome)
    returns (done: bool)
    modifies doc
    ensures done == MainSection(issue, fetchImage).done
    ensures doc.ops == old(doc.ops) + MainSection(issue, fetchImage).ops
  {
    var comments := Get(issue, "Comments");
    var attachments := Get(issue, "Attachments");
    var subtasks := Get(issue, "Subtasks");
    DrawMainHead(doc, issue);
    done := DrawMainTail(doc, comments, attachments, subtasks, fetchImage);
    AppendAssoc(old(doc.ops), MainHead(issue), MainTail(comments, attachments, subtasks, fetchImage).ops);
  }

  /** An array whose `forEach` or `filter` callbacks all get to run: no element is
      `null` or `undefined`. */
  predicate Listed(v: Value) {
    v.Arr? && !HasNullish(v.items)
  }

  /** The main issue is drawn to the end exactly when its comments, attachments and
      subtasks are all such arrays. */
  lemma MainSectionDone(issue: Entries, fetchImage: Value -> ImageOutcome)
    ensures MainSection(issue, fetchImage).done <==>
      Listed(Get(issue, "Comments")) && Listed(Get(issue, "Attachments")) && Listed(Get(issue, "Subtasks"))
  {
    ForEachDone(Get(issue, "Comments"), CommentItem);
    ForEachDone(Get(issue, "Subtasks"), SubtaskItem);
  }

  /** Comments and the subtask index never start a page. */
  lemma ListsStartNoPage(list: Value)
    ensures Pages(ForEach(list, CommentItem).ops) == 0
    ensures Pages(ForEach(list, SubtaskItem).ops) == 0
  {
    if list.Arr? {
      var n := FirstNullish(list.items);
      LayoutFree(list.items, CommentItem, n, NewPage);
      LayoutFree(list.items, SubtaskItem, n, NewPage);
      CountZero(ForEach(list, CommentItem).ops, NewPage);
      CountZero(ForEach(list, SubtaskItem).ops, NewPage);
    }
  }

  /** Nothing before the comments starts a page. */
  lemma MainHeadNoPage(issue: Entries)
    ensures Pages(MainHead(issue)) == 0
  {
    var rest := FieldLines(Without(issue, MainHidden));
    MainFixedNoPage(issue);
    FieldLinesFree(Without(issue, MainHidden), NewPage);
    CountZero(rest, NewPage);
    CountAppend(MainFixed(issue), rest, NewPage);
    CountAppend(MainFixed(issue) + rest, [Heading("Comments")], NewPage);
  }

  lemma MainFixedNoPage(issue: Entries)
    ensures Pages(MainFixed(issue)) == 0
  {
    CountZero(MainFixed(issue), NewPage);
  }

  /** The main issue shares the first page with nothing but its comments; it adds the
      pages of its attachments and then one page for the subtask index, if it gets
      that far. */
  lemma MainPages(issue: Entries, fetchImage: Value -> ImageOutcome)
    ensures var comments := ForEach(Get(issue, "Comments"), CommentItem);
      var attachments := AttachmentsDrawing(Get(issue, "Attachments"), fetchImage);
      Pages(MainSection(issue, fetchImage).ops) ==
        if !comments.done then 0 else Pages(attachments.ops) + if attachments.done then 1 else 0
  {
    var c := ForEach(Get(issue, "Comments"), CommentItem);
    var a := AttachmentsDrawing(Get(issue, "Attachments"), fetchImage);
    var s := ForEach(Get(issue, "Subtasks"), SubtaskItem);
    var index := Then(Drawing([NewPage, Heading("Subtasks")], true), s);
    ListsStartNoPage(Get(issue, "Comments"));
    ListsStartNoPage(Get(issue, "Subtasks"));
    MainHeadNoPage(issue);
    CountAppend([NewPage, Heading("Subtasks")], s.ops, NewPage);
    CountAppend(a.ops, index.ops, NewPage);
    CountAppend(c.ops, Then(a, index).ops, NewPage);
    CountAppend(MainHead(issue), MainTail(Get(issue, "Comments"), Get(issue, "Attachments"),
      Get(issue, "Subtasks"), fetchImage).ops, NewPage);
  }

  /** Field lines placed after `fixed` and before `tail`. */
  lemma FieldsAfter(fixed: seq<Instr>, obj: Entries, tail: seq<Instr>)
    requires UniqueKeys(obj)
    ensures |fixed + FieldLines(obj) + tail| == |fixed| + |obj| + |tail|
    ensures forall k :: 0 <= k < |obj| ==> (fixed + FieldLines(obj) + tail)[|fixed| + k] == FieldLine(obj[k].0, obj[k].1)
  {
    FieldLinesAt(obj);
  }

  /** The title and the fixed lines of the main issue are thirteen instructions. */
  lemma MainFixedLength(issue: Entries)
    ensures |MainFixed(issue)| == 13
  {
  }

  /** What is left of the main issue after the deletions: the fields not in
      `MainHidden`, with their values. */
  lemma MainRest(issue: Entries)
    requires UniqueKeys(issue)
    ensures var rest := Without(issue, MainHidden);
      UniqueKeys(rest) &&
      (forall key :: key in Keys(rest) <==> key in Keys(issue) && key !in MainHidden) &&
      (forall k :: 0 <= k < |rest| ==> Get(issue, rest[k].0) == rest[k].1)
  {
    var rest := Without(issue, MainHidden);
    WithoutSpec(issue, MainHidden);
    forall k | 0 <= k < |rest|
      ensures Get(issue, rest[k].0) == rest[k].1
    {
      GetAt(rest, k);
    }
  }

  /** After the title and the eleven fixed lines, the main issue lists what is left of
      it (see `MainRest`) in `for…in` order, each field with its value, and then the
      "Comments" heading. */
  lemma MainFieldsListed(issue: Entries)
    requires UniqueKeys(issue)
    ensures var rest := Without(issue, MainHidden);
      |MainHead(issue)| == 14 + |rest| &&
      (forall k :: 0 <= k < |rest| ==> MainHead(issue)[13 + k] == FieldLine(rest[k].0, rest[k].1)) &&
      MainHead(issue)[13 + |rest|] == Heading("Comments")
  {
    var rest := Without(issue, MainHidden);
    FilterUnique(issue, NotIn(MainHidden));
    MainFixedLength(issue);
    FieldsAfter(MainFixed(issue), rest, [Heading("Comments")]);
  }

  /** "Created" is drawn among the fixed lines but is not deleted with them, so a
      timestamp in it is drawn a second time, identically, among the remaining
      fields. */
  lemma MainCreatedTwice(issue: Entries)
    requires UniqueKeys(issue) && "Created" in Keys(issue)
    requires Get(issue, "Created").Str? && MatchesDate(Get(issue, "Created").s)
    ensures Count(MainHead(issue), Line([Plain("Created: "), DateOf(Get(issue, "Created"))])) >= 2
  {
    var j := MainCreatedListed(issue);
    MainCreatedLine(issue);
    assert "Created" + ": " == "Created: ";
    CountTwo(MainHead(issue), Line([Plain("Created: "), DateOf(Get(issue, "Created"))]), 9, j);
  }

  /** Where the remaining "Created" field is listed. */
  lemma MainCreatedListed(issue: Entries) returns (j: nat)
    requires UniqueKeys(issue) && "Created" in Keys(issue)
    ensures 13 <= j < |MainHead(issue)| && MainHead(issue)[j] == FieldLine("Created", Get(issue, "Created"))
  {
    var rest := Without(issue, MainHidden);
    MainFieldsListed(issue);
    CreatedNotHidden();
    FilterUnique(issue, NotIn(MainHidden));
    FilterGet(issue, NotIn(MainHidden), "Created");
    var k :| 0 <= k < |rest| && rest[k].0 == "Created";
    GetAt(rest, k);
    j := 13 + k;
  }

  lemma CreatedNotHidden()
    ensures "Created" !in MainHidden
  {
  }

  /** The tenth instruction of the head is the fixed "Created" line. */
  lemma MainCreatedLine(issue: Entries)
    requires UniqueKeys(issue)
    ensures |MainHead(issue)| > 9
    ensures MainHead(issue)[9] == Line([Plain("Created: "), DateOf(Get(issue, "Created"))])
  {
    MainHeadTenth(issue);
    assert "Created" !in MainHidden[..5];
    FilterGet(issue, NotIn(MainHidden[..5]), "Created");
  }

  lemma MainHeadTenth(issue: Entries)
    ensures |MainHead(issue)| > 9
    ensures MainHead(issue)[9] == Line([Plain("Created: "), DateOf(Get(Without(issue, MainHidden[..5]), "Created"))])
  {
    MainFixedLength(issue);
    assert MainHead(issue)[9] == MainFixed(issue)[9] == MainBasics(Without(issue, MainHidden[..5]))[7];
  }

  // ---------------------------------------------------------------------------
  // testSubtaskFetch

  /** `basicFields` of a subtask ("Created" is not listed). */
  const SubBasicFields: seq<string> :=
    ["Issue Type", "Status", "Resolution", "Assignee", "Διάρκεια", "Start Date", "End Date", "Priority"]

  /** The keys deleted from the subtask's copy, in order, before its remaining fields
      are listed. */
  const SubHidden: seq<string> := ["Comments", "Attachments", "key", "Summary", "Parent", "Subtasks"] + SubBasicFields

  /** A new page, the key, and the underlined summary. */
  function SubTitle(clone: Entries): seq<Instr> {
    [NewPage, Line([Interp(Get(clone, "key"))]), Heading(ToStr(Get(clone, "Summary")))]
  }

  /** The fixed lines of a subtask; a falsy assignee reads "null". */
  function SubBasics(clone: Entries): seq<Instr> {
    [Line([Plain("Issue Type: "), Shown(Get(clone, "Issue Type"))]),
     Line([Plain("Status: "), Shown(Get(clone, "Status"))]),
     Line([Plain("Resolution: "), Shown(Get(clone, "Resolution"))]),
     Line([Plain("Assignee: "), if Truthy(Get(clone, "Assignee")) then Shown(Get(clone, "Assignee")) else Plain("null")]),
     Line([Plain("Priority: "), Shown(Get(clone, "Priority"))]),
     Line([Plain("Created: "), DateOf(Get(clone, "Created"))]),
     Line([Plain("Start Date: "), DateOf(Get(clone, "Start Date"))]),
     Line([Plain("End Date: "), DateOf(Get(clone, "End Date"))]),
     Line([Plain("Διάρκεια: "), Shown(Get(clone, "Διάρκεια"))])]
  }

  /** The title and the fixed lines of a subtask. */
  function SubFixed(sub: Entries): seq<Instr> {
    SubTitle(Without(sub, SubHidden[..2])) + SubBasics(Without(sub, SubHidden[..6]))
  }

  /** Everything a subtask draws before its comments. */
  function SubHead(sub: Entries): seq<Instr> {
    SubFixed(sub) + FieldLines(Without(sub, SubHidden)) + [Heading("Comments")]
  }

  /** The comments and the attachments of a subtask. */
  function SubTail(comments: Value, attachments: Value, fetchImage: Value -> ImageOutcome): Drawing {
    Then(ForEach(comments, CommentItem), AttachmentsDrawing(attachments, fetchImage))
  }

  /** What `testSubtaskFetch` draws for the final record `sub` of a subtask. */
  function SubtaskSection(sub: Entries, fetchImage: Value -> ImageOutcome): Drawing {
    Then(Drawing(SubHead(sub), true), SubTail(Get(sub, "Comments"), Get(sub, "Attachments"), fetchImage))
  }

  /** `testSubtaskFetch(mainIssue, key, doc)`: `finalObject(key)` fetches and
      normalises the subtask; when that throws, nothing is drawn. */
  function SubtaskDrawing(finalObject: string -> Outcome<Entries>, fetchImage: Value -> ImageOutcome,
                          key: Value): Drawing {
    match finalObject(ToStr(key))
    case Throws => Drawing([], false)
    case Ok(sub) => SubtaskSection(sub, fetchImage)
  }

  /** The fields are read from the subtask's final record; a subtask section opens a
      new page exactly once, and otherwise adds only the pages of its attachments. */
  lemma SubtaskPages(sub: Entries, fetchImage: Value -> ImageOutcome)
    ensures var comments := ForEach(Get(sub, "Comments"), CommentItem);
      var attachments := AttachmentsDrawing(Get(sub, "Attachments"), fetchImage);
      Pages(SubtaskSection(sub, fetchImage).ops) == 1 + if comments.done then Pages(attachments.ops) else 0
    ensures SubtaskSection(sub, fetchImage).ops[0] == NewPage
  {
    var c := ForEach(Get(sub, "Comments"), CommentItem);
    var a := AttachmentsDrawing(Get(sub, "Attachments"), fetchImage);
    var rest := FieldLines(Without(sub, SubHidden));
    ListsStartNoPage(Get(sub, "Comments"));
    SubFixedPages(sub);
    FieldLinesFree(Without(sub, SubHidden), NewPage);
    CountZero(rest, NewPage);
    CountAppend(SubFixed(sub), rest, NewPage);
    CountAppend(SubFixed(sub) + rest, [Heading("Comments")], NewPage);
    CountAppend(c.ops, a.ops, NewPage);
    CountAppend(SubHead(sub), Then(c, a).ops, NewPage);
  }

  lemma SubFixedPages(sub: Entries)
    ensures Pages(SubFixed(sub)) == 1 && SubFixed(sub)[0] == NewPage
  {
    var t := SubTitle(Without(sub, SubHidden[..2]));
    var b := SubBasics(Without(sub, SubHidden[..6]));
    CountZero(b, NewPage);
    CountZero(t[1..], NewPage);
    assert t == [NewPage] + t[1..];
    CountAppend([NewPage], t[1..], NewPage);
    CountAppend(t, b, NewPage);
  }

  /** The subtask is drawn to the end exactly when its comments and attachments are
      arrays without `null` or `undefined`. */
  lemma SubtaskSectionDone(sub: Entries, fetchImage: Value -> ImageOutcome)
    ensures SubtaskSection(sub, fetchImage).done <==> Listed(Get(sub, "Comments")) && Listed(Get(sub, "Attachments"))
  {
    ForEachDone(Get(sub, "Comments"), CommentItem);
  }

  /** A falsy assignee is written as "null", any other as it is. */
  lemma SubtaskAssignee(sub: Entries)
    requires UniqueKeys(sub)
    ensures |SubHead(sub)| > 6
    ensures SubHead(sub)[6] == Line([Plain("Assignee: "),
      if Truthy(Get(sub, "Assignee")) then Shown(Get(sub, "Assignee")) else Plain("null")])
  {
    SubHeadSeventh(sub);
    assert "Assignee" !in SubHidden[..6];
    FilterGet(sub, NotIn(SubHidden[..6]), "Assignee");
  }

  lemma SubHeadSeventh(sub: Entries)
    ensures |SubHead(sub)| > 6
    ensures var v := Get(Without(sub, SubHidden[..6]), "Assignee");
      SubHead(sub)[6] == Line([Plain("Assignee: "), if Truthy(v) then Shown(v) else Plain("null")])
  {
    SubFixedLength(sub);
    assert SubHead(sub)[6] == SubFixed(sub)[6] == SubBasics(Without(sub, SubHidden[..6]))[3];
  }

  /** What is left of a subtask after the deletions: the fields not in `SubHidden`,
      with their values. */
  lemma SubRest(sub: Entries)
    requires UniqueKeys(sub)
    ensures var rest := Without(sub, SubHidden);
      UniqueKeys(rest) &&
      (forall key :: key in Keys(rest) <==> key in Keys(sub) && key !in SubHidden) &&
      (forall k :: 0 <= k < |rest| ==> Get(sub, rest[k].0) == rest[k].1)
  {
    var rest := Without(sub, SubHidden);
    WithoutSpec(sub, SubHidden);
    forall k | 0 <= k < |rest|
      ensures Get(sub, rest[k].0) == rest[k].1
    {
      GetAt(rest, k);
    }
  }

  lemma SubFixedLength(sub: Entries)
    ensures |SubFixed(sub)| == 12
  {
  }

  /** After the title and the nine fixed lines, a subtask lists what is left of it (see
      `SubRest`) in `for…in` order, each field with its value, and then the "Comments"
      heading. */
  lemma SubFieldsListed(sub: Entries)
    requires UniqueKeys(sub)
    ensures var rest := Without(sub, SubHidden);
      |SubHead(sub)| == 13 + |rest| &&
      (forall k :: 0 <= k < |rest| ==> SubHead(sub)[12 + k] == FieldLine(rest[k].0, rest[k].1)) &&
      SubHead(sub)[12 + |rest|] == Heading("Comments")
  {
    FilterUnique(sub, NotIn(SubHidden));
    SubFixedLength(sub);
    FieldsAfter(SubFixed(sub), Without(sub, SubHidden), [Heading("Comments")]);
  }

  method DrawSubTitle(doc: Document, clone: Entries)
    modifies doc
    ensures doc.ops == old(doc.ops) + SubTitle(clone)
  {
    doc.Draw([NewPage]);
    doc.Draw([Line([Interp(Get(clone, "key"))])]);
    doc.Draw([Heading(ToStr(Get(clone, "Summary")))]);
  }

  method DrawSubBasics(doc: Document, clone: Entries)
    modifies doc
    ensures doc.ops == old(doc.ops) + SubBasics(clone)
  {
    doc.Draw([Line([Plain("Issue Type: "), Shown(Get(clone, "Issue Type"))])]);
    doc.Draw([Line([Plain("Status: "), Shown(Get(clone, "Status"))])]);
    doc.Draw([Line([Plain("Resolution: "), Shown(Get(clone, "Resolution"))])]);
    var assignee := Get(clone, "Assignee");
    doc.Draw([Line([Plain("Assignee: "), if Truthy(assignee) then Shown(assignee) else Plain("null")])]);
    doc.Draw([Line([Plain("Priority: "), Shown(Get(clone, "Priority"))])]);
    doc.Draw([Line([Plain("Created: "), DateOf(Get(clone, "Created"))])]);
    doc.Draw([Line([Plain("Start Date: "), DateOf(Get(clone, "Start Date"))])]);
    doc.Draw([Line([Plain("End Date: "), DateOf(Get(clone, "End Date"))])]);
    doc.Draw([Line([Plain("Διάρκεια: "), Shown(Get(clone, "Διάρκεια"))])]);
  }

  /** From the new page to the "Comments" heading. */
  method DrawSubHead(doc: Document, sub: Entries)
    modifies doc
    ensures doc.ops == old(doc.ops) + SubHead(sub)
  {
    WithoutNothing(sub);
    var cloneObj := DeleteEach(sub, sub, [], ["Comments", "Attachments"]);
    assert [] + ["Comments", "Attachments"] == SubHidden[..2];
    DrawSubTitle(doc, cloneObj);
    cloneObj := DeleteEach(cloneObj, sub, SubHidden[..2], ["key", "Summary", "Parent", "Subtasks"]);
    assert SubHidden[..2] + ["key", "Summary", "Parent", "Subtasks"] == SubHidden[..6];
    DrawSubBasics(doc, cloneObj);
    cloneObj := DeleteEach(cloneObj, sub, SubHidden[..6], SubBasicFields);
    assert SubHidden[..6] + SubBasicFields == SubHidden;
    DrawFields(doc, cloneObj);
    doc.Draw([Heading("Comments")]);
    SubHeadSplit(old(doc.ops), sub);
  }

  lemma SubHeadSplit(start: seq<Instr>, sub: Entries)
    ensures start + SubTitle(Without(sub, SubHidden[..2])) + SubBasics(Without(sub, SubHidden[..6]))
      + FieldLines(Without(sub, SubHidden)) + [Heading("Comments")] == start + SubHead(sub)
  {
    var a, b, c := SubTitle(Without(sub, SubHidden[..2])), SubBasics(Without(sub, SubHidden[..6])),
      FieldLines(Without(sub, SubHidden));
    AppendAssoc(start, a + b + c, [Heading("Comments")]);
    AppendAssoc(start, a + b, c);
    AppendAssoc(start, a, b);
  }

  /** `testSubtaskFetch(mainIssue, key, doc)` */
  method TestSubtaskFetch(doc: Document, finalObject: string -> Outcome<Entries>,
                          fetchImage: Value -> ImageOutcome, key: Value) returns (done: bool)
    modifies doc
    ensures done == SubtaskDrawing(finalObject, fetchImage, key).done
    ensures doc.ops == old(doc.ops) + SubtaskDrawing(finalObject, fetchImage, key).ops
  {
    var subtask := finalObject(ToStr(key));
    if subtask.Throws? {
      return false;
    }
    done := DrawSubtask(doc, subtask.value, fetchImage);
  }

  /** Drawing the final record of a subtask: the comments and attachments are read
      from the copy before their keys are deleted. */
  method DrawSubtask(doc: Document, sub: Entries, fetchImage: Value -> ImageOutcome) returns (done: bool)
    modifies doc
    ensures done == SubtaskSection(sub, fetchImage).done
    ensures doc.ops == old(doc.ops) + SubtaskSection(sub, fetchImage).ops
  {
    var comments := Get(sub, "Comments");
    var attachments := Get(sub, "Attachments");
    DrawSubHead(doc, sub);
    done := DrawSubTail(doc, comments, attachments, fetchImage);
    AppendAssoc(old(doc.ops), SubHead(sub), SubTail(comments, attachments, fetchImage).ops);
  }

  /** From the comments to the end of the attachments. */
  method DrawSubTail(doc: Document, comments: Value, attachments: Value, fetchImage: Value -> ImageOutcome)
    returns (done: bool)
    modifies doc
    ensures done == SubTail(comments, attachments, fetchImage).done
    ensures doc.ops == old(doc.ops) + SubTail(comments, attachments, fetchImage).ops
  {
    done := DrawComments(doc, comments);
    if !done {
      return;
    }
    done := AddAttachmentsToPdf(doc, attachments, fetchImage);
    AppendAssoc(old(doc.ops), ForEach(comments, CommentItem).ops, AttachmentsDrawing(attachments, fetchImage).ops);
  }

  // ---------------------------------------------------------------------------
  // createPdf

  /** What `createPdf` hands to the Drive upload: the file name, the folder named
      after "ΑΚ", the sub-folder named after the assigned company, and the drawn
      document. */
  datatype Upload = Upload(filename: string, folder: string, subfolder: string, ops: seq<Instr>)

  /** `v ? String(v) : fallback`: the fallback for a falsy value and the string form
      otherwise, so an absent field, `null` and "" all name the fallback folder. */
  function Folder(v: Value, fallback: string): (r: string)
    ensures !Truthy(v) ==> r == fallback
    ensures v.Str? && v.s != "" ==> r == v.s
    ensures Truthy(v) ==> r == ToStr(v)
    ensures v.Num? && v.n != 0 ==> r == IntToString(v.n)
  {
    if Truthy(v) then ToStr(v) else fallback
  }

  /** `finalObject(key)`: the issue fetched by its key and normalised. */
  function Normalized(allFields: Value, fetchIssue: string -> Value): string -> Outcome<Entries> {
    (key: string) => FinalObjectOf(allFields, fetchIssue(key))
  }

  /** The section of each entry of `Subtasks`, fetched by its `key`. */
  function Sections(finalObject: string -> Outcome<Entries>, fetchImage: Value -> ImageOutcome,
                    subs: seq<Value>): seq<Drawing> {
    seq(|subs|, j requires 0 <= j < |subs| => SubtaskDrawing(finalObject, fetchImage, Prop(subs[j], "key")))
  }

  /** The whole document: the main issue, then `for (const sub of mainIssue.Subtasks)`
      one section per subtask. (A `Subtasks` that is not an array has already made the
      main issue's index throw.) */
  function PdfDrawing(finalObject: string -> Outcome<Entries>, fetchImage: Value -> ImageOutcome,
                      main: Entries): Drawing {
    var subtasks := Get(main, "Subtasks");
    Then(MainSection(main, fetchImage),
      if subtasks.Arr? then Sequence(Sections(finalObject, fetchImage, subtasks.items), |subtasks.items|)
      else Drawing([], false))
  }

  /** `createPdf(issueKey)`: the upload that follows a document drawn to the end, or
      the exception that stops it. */
  function CreatePdfOf(finalObject: string -> Outcome<Entries>, fetchImage: Value -> ImageOutcome,
                       issueKey: string): Outcome<Upload> {
    var main :- finalObject(issueKey);
    var pdf := PdfDrawing(finalObject, fetchImage, main);
    if !pdf.done then Throws
    else Ok(Upload(ToStr(Get(main, "key")) + ".pdf", Folder(Get(main, "ΑΚ"), "Χωρίς ΑΚ"),
                   Folder(Get(main, "Εταιρεία Ανάθεσης"), "Χωρίς Εταιρεία"), pdf.ops))
  }

  /** `createPdf(issueKey)`: `finalObject` fetches and normalises an issue by its key
      (`Normalized` is the one the exporter uses), `fetchImage` downloads an image. */
  method CreatePdf(finalObject: string -> Outcome<Entries>, fetchImage: Value -> ImageOutcome,
                   issueKey: string) returns (r: Outcome<Upload>)
    ensures r == CreatePdfOf(finalObject, fetchImage, issueKey)
  {
    var mainIssue := finalObject(issueKey);
    if mainIssue.Throws? {
      return Throws;
    }
    var main := mainIssue.value;
    var akValue := Folder(Get(main, "ΑΚ"), "Χωρίς ΑΚ");
    var companyValue := Folder(Get(main, "Εταιρεία Ανάθεσης"), "Χωρίς Εταιρεία");
    var filename := ToStr(Get(main, "key")) + ".pdf";
    var doc := new Document();
    var done := DrawPdf(doc, finalObject, fetchImage, main);
    if !done {
      return Throws;
    }
    ghost var pdf := PdfDrawing(finalObject, fetchImage, main);
    assert CreatePdfOf(finalObject, fetchImage, issueKey) == Ok(Upload(filename, akValue, companyValue, pdf.ops));
    assert doc.ops == pdf.ops;
    return Ok(Upload(filename, akValue, companyValue, doc.ops));
  }

  /** From `populateMainIssue` to the end of the subtask loop. */
  method DrawPdf(doc: Document, finalObject: string -> Outcome<Entries>, fetchImage: Value -> ImageOutcome,
                 main: Entries) returns (done: bool)
    modifies doc
    ensures done == PdfDrawing(finalObject, fetchImage, main).done
    ensures doc.ops == old(doc.ops) + PdfDrawing(finalObject, fetchImage, main).ops
  {
    done := PopulateMainIssue(doc, main, fetchImage);
    if !done {
      return;
    }
    var subtasks := Get(main, "Subtasks");
    if !subtasks.Arr? {
      return false;
    }
    ghost var sections := Sections(finalObject, fetchImage, subtasks.items);
    SectionsAt(finalObject, fetchImage, subtasks.items);
    ghost var before := doc.ops;
    done := DrawSubtasks(doc, finalObject, fetchImage, subtasks.items, sections);
    AppendAssoc(old(doc.ops), MainSection(main, fetchImage).ops, Sequence(sections, |subtasks.items|).ops);
  }

  /** The `j`-th section is the drawing of the `j`-th subtask. */
  lemma SectionsAt(finalObject: string -> Outcome<Entries>, fetchImage: Value -> ImageOutcome, subs: seq<Value>)
    ensures |Sections(finalObject, fetchImage, subs)| == |subs|
    ensures forall j {:trigger SubtaskDrawing(finalObject, fetchImage, Prop(subs[j], "key"))} :: 0 <= j < |subs| ==>
      Sections(finalObject, fetchImage, subs)[j] == SubtaskDrawing(finalObject, fetchImage, Prop(subs[j], "key"))
  {
  }

  /** The `for…of` loop over the subtasks; `sections` are their drawings. */
  method DrawSubtasks(doc: Document, finalObject: string -> Outcome<Entries>,
                      fetchImage: Value -> ImageOutcome, subs: seq<Value>, ghost sections: seq<Drawing>)
    returns (done: bool)
    requires |sections| == |subs|
    requires forall j {:trigger SubtaskDrawing(finalObject, fetchImage, Prop(subs[j], "key"))} :: 0 <= j < |subs| ==>
      sections[j] == SubtaskDrawing(finalObject, fetchImage, Prop(subs[j], "key"))
    modifies doc
    ensures done == Sequence(sections, |subs|).done
    ensures doc.ops == old(doc.ops) + Sequence(sections, |subs|).ops
  {
    var i := 0;
    while i < |subs|
      invariant 0 <= i <= |subs|
      invariant Sequence(sections, i).done
      invariant doc.ops == old(doc.ops) + Sequence(sections, i).ops
    {
      done := DrawSubtaskAt(doc, finalObject, fetchImage, subs, sections, i, old(doc.ops));
      if !done {
        SequenceStop(sections, i + 1, |subs|);
        return;
      }
      i := i + 1;
    }
    return true;
  }

  /** One pass of the loop: `testSubtaskFetch(mainIssue, sub.key, doc)` for the
      `i`-th subtask. */
  method DrawSubtaskAt(doc: Document, finalObject: string -> Outcome<Entries>, fetchImage: Value -> ImageOutcome,
                       subs: seq<Value>, ghost sections: seq<Drawing>, i: nat, ghost start: seq<Instr>)
    returns (done: bool)
    requires i < |subs| == |sections|
    requires forall j {:trigger SubtaskDrawing(finalObject, fetchImage, Prop(subs[j], "key"))} :: 0 <= j < |subs| ==>
      sections[j] == SubtaskDrawing(finalObject, fetchImage, Prop(subs[j], "key"))
    requires Sequence(sections, i).done && doc.ops == start + Sequence(sections, i).ops
    modifies doc
    ensures done == Sequence(sections, i + 1).done
    ensures doc.ops == start + Sequence(sections, i + 1).ops
  {
    done := TestSubtaskFetch(doc, finalObject, fetchImage, Prop(subs[i], "key"));
    SequenceStep(start, sections, i);
  }

  /** A subtask that is drawn to the end starts at least one page of its own. */
  lemma SubtasksStartPages(finalObject: string -> Outcome<Entries>, fetchImage: Value -> ImageOutcome,
                           subs: seq<Value>)
    ensures var ds := Sections(finalObject, fetchImage, subs);
      forall j :: 0 <= j < |subs| && ds[j].done ==> Count(ds[j].ops, NewPage) >= 1
  {
    var ds := Sections(finalObject, fetchImage, subs);
    forall j | 0 <= j < |subs| && ds[j].done
      ensures Count(ds[j].ops, NewPage) >= 1
    {
      var sub := finalObject(ToStr(Prop(subs[j], "key"))).value;
      SubtaskPages(sub, fetchImage);
    }
  }

  /** The upload happens exactly when the main issue is normalised, its comments,
      attachments and subtasks are arrays without `null` or `undefined`, and every
      subtask is drawn to the end. */
  lemma CreatePdfDone(finalObject: string -> Outcome<Entries>, fetchImage: Value -> ImageOutcome, issueKey: string)
    ensures CreatePdfOf(finalObject, fetchImage, issueKey).Ok? <==>
      finalObject(issueKey).Ok? &&
      var main := finalObject(issueKey).value;
      Listed(Get(main, "Comments")) && Listed(Get(main, "Attachments")) && Listed(Get(main, "Subtasks")) &&
      forall j :: 0 <= j < |Get(main, "Subtasks").items| ==>
        SubtaskDrawing(finalObject, fetchImage, Prop(Get(main, "Subtasks").items[j], "key")).done
  {
    var fin := finalObject(issueKey);
    if fin.Ok? {
      var main := fin.value;
      MainSectionDone(main, fetchImage);
      var subtasks := Get(main, "Subtasks");
      if subtasks.Arr? {
        SectionsDone(finalObject, fetchImage, subtasks.items);
      }
    }
  }

  /** The subtask loop runs to the end exactly when every subtask is drawn to the end. */
  lemma SectionsDone(finalObject: string -> Outcome<Entries>, fetchImage: Value -> ImageOutcome, subs: seq<Value>)
    ensures Sequence(Sections(finalObject, fetchImage, subs), |subs|).done <==>
      forall j :: 0 <= j < |subs| ==> SubtaskDrawing(finalObject, fetchImage, Prop(subs[j], "key")).done
  {
    var ds := Sections(finalObject, fetchImage, subs);
    SequenceDone(ds, |subs|);
    SectionsAt(finalObject, fetchImage, subs);
  }

  /** An uploaded document has a page for the subtask index and at least one page per
      subtask, besides the first page. */
  lemma CreatePdfPages(finalObject: string -> Outcome<Entries>, fetchImage: Value -> ImageOutcome, issueKey: string)
    requires CreatePdfOf(finalObject, fetchImage, issueKey).Ok?
    ensures var main := finalObject(issueKey).value;
      Get(main, "Subtasks").Arr? &&
      Pages(CreatePdfOf(finalObject, fetchImage, issueKey).value.ops) >= 1 + |Get(main, "Subtasks").items|
  {
    var main := finalObject(issueKey).value;
    var m := MainSection(main, fetchImage);
    MainSectionDone(main, fetchImage);
    MainPages(main, fetchImage);
    var items := Get(main, "Subtasks").items;
    var ds := Sections(finalObject, fetchImage, items);
    SubtasksStartPages(finalObject, fetchImage, items);
    SequenceAtLeast(ds, |items|, NewPage);
    CountAppend(m.ops, Sequence(ds, |items|).ops, NewPage);
  }

  /** With the exporter's own normalisation, the file is named after the key of the
      issue as it was fetched. */
  lemma UploadName(allFields: Value, fetchIssue: string -> Value, fetchImage: Value -> ImageOutcome,
                   issueKey: string, key: string)
    requires CreatePdfOf(Normalized(allFields, fetchIssue), fetchImage, issueKey).Ok?
    requires UniqueKeys(ForIn(fetchIssue(issueKey))) && Get(ForIn(fetchIssue(issueKey)), "key") == Str(key)
    ensures CreatePdfOf(Normalized(allFields, fetchIssue), fetchImage, issueKey).value.filename == key + ".pdf"
  {
    var main := Normalized(allFields, fetchIssue)(issueKey);
    assert main == FinalObjectOf(allFields, fetchIssue(issueKey));
    CreatePdfName(Normalized(allFields, fetchIssue), fetchImage, issueKey);
    FinalObjectIssueKey(allFields, fetchIssue(issueKey));
  }

  /** The file is named after the `key` of the main issue's final record. */
  lemma CreatePdfName(finalObject: string -> Outcome<Entries>, fetchImage: Value -> ImageOutcome, issueKey: string)
    requires CreatePdfOf(finalObject, fetchImage, issueKey).Ok?
    ensures finalObject(issueKey).Ok?
    ensures CreatePdfOf(finalObject, fetchImage, issueKey).value.filename ==
      ToStr(Get(finalObject(issueKey).value, "key")) + ".pdf"
  {
  }

  /** A folder name is never empty when its fallback is not, unless the value is an
      array, which is truthy but can be written as the empty string. */
  lemma FolderNonEmpty(v: Value, fallback: string)
    requires fallback != "" && !v.Arr?
    ensures Folder(v, fallback) != ""
  {
  }

  lemma FolderOfEmptyArray(fallback: string)
    ensures Folder(Arr([]), fallback) == ""
  {
  }
}
