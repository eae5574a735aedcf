/** `isImage` and `addAttachmentsToPDF`: attachments are split into images, each
    drawn on a page of its own, and other files, listed together on one last page. */
module Attachments {
  import opened Json
  import opened Report

  // ---------------------------------------------------------------------------
  // isImage

  /** ASCII lower case, which is all the case folding a regular expression with the
      `i` flag and no `u` flag does for these letters. */
  function Lower(c: char): char {
    if 'A' <= c <= 'Z' then (c as int + 32) as char else c
  }

  /** Whether `s` ends with `suffix`, ignoring case (`suffix` is lower case). */
  predicate EndsWith(s: string, suffix: string) {
    |suffix| <= |s| && forall i :: 0 <= i < |suffix| ==> Lower(s[|s| - |suffix| + i]) == suffix[i]
  }

  /** `/\.(jpg|jpeg|png)$/i.test(name)` */
  predicate IsImageName(name: string) {
    EndsWith(name, ".jpg") || EndsWith(name, ".jpeg") || EndsWith(name, ".png")
  }

  /** `isImage(att.filename)`: the file name is converted to a string first, so a
      missing name reads as "undefined" or "null" and is never an image. */
  predicate IsImage(att: Value): (r: bool)
    ensures Prop(att, "filename").Str? ==> (r <==> IsImageName(Prop(att, "filename").s))
    ensures Nullish(Prop(att, "filename")) ==> !r
  {
    var name := ToStr(Prop(att, "filename"));
    assert Nullish(Prop(att, "filename")) ==> !IsImageName(name) by {
      if Nullish(Prop(att, "filename")) {
        assert name == "undefined" || name == "null";
        assert Lower(name[|name| - 4 + 3]) != ".jpg"[3];
        assert Lower(name[|name| - 5 + 4]) != ".jpeg"[4];
        assert Lower(name[|name| - 4 + 3]) != ".png"[3];
      }
    }
    IsImageName(name)
  }

  /** Lower case, character by character. */
  function LowerAll(s: string): (r: string)
    ensures |r| == |s| && forall i :: 0 <= i < |s| ==> r[i] == Lower(s[i])
  {
    seq(|s|, i requires 0 <= i < |s| => Lower(s[i]))
  }

  /** A name ends with a suffix when its last characters spell it in any case. */
  lemma EndsWithSuffix(p: string, x: string, suffix: string)
    requires LowerAll(x) == suffix
    ensures EndsWith(p + x, suffix)
  {
    assert forall i :: 0 <= i < |suffix| ==> (p + x)[|p + x| - |suffix| + i] == x[i];
  }

  /** Any name ending in ".jpg", ".jpeg" or ".png", in any mix of upper and lower
      case, is an image name. */
  lemma ImageSuffixAccepted(p: string, x: string)
    requires LowerAll(x) in [".jpg", ".jpeg", ".png"]
    ensures IsImageName(p + x)
  {
    EndsWithSuffix(p, x, LowerAll(x));
  }

  /** And every image name ends in one of the three suffixes, in some mix of upper
      and lower case: the dot is required and nothing may follow the suffix. */
  lemma ImageNameSuffix(s: string)
    requires IsImageName(s)
    ensures exists k :: 0 <= k <= |s| && LowerAll(s[k..]) in [".jpg", ".jpeg", ".png"]
  {
    var suffix := if EndsWith(s, ".jpg") then ".jpg" else if EndsWith(s, ".jpeg") then ".jpeg" else ".png";
    var k := |s| - |suffix|;
    assert LowerAll(s[k..]) == suffix;
  }

  /** `atts.filter(att => test(att) == want)`, in order. */
  function Select(atts: seq<Value>, test: Value -> bool, want: bool): seq<Value>
    decreases |atts|
  {
    if atts == [] then []
    else Select(atts[..|atts| - 1], test, want) + if test(atts[|atts| - 1]) == want then [atts[|atts| - 1]] else []
  }

  /** `attachments.filter(att => isImage(att.filename))` */
  function Images(atts: seq<Value>): seq<Value> {
    Select(atts, IsImage, true)
  }

  /** `attachments.filter(att => !isImage(att.filename))` */
  function Others(atts: seq<Value>): seq<Value> {
    Select(atts, IsImage, false)
  }

  /** Selecting the last element, or not. */
  lemma SelectLast(init: seq<Value>, last: Value, test: Value -> bool, want: bool)
    ensures Select(init + [last], test, want) ==
      Select(init, test, want) + if test(last) == want then [last] else []
  {
    assert (init + [last])[..|init + [last]| - 1] == init;
  }

  /** The two selections split the list: every element lands in exactly one of them,
      as often as it occurs. */
  lemma {:induction false} SelectSplits(atts: seq<Value>, test: Value -> bool)
    ensures multiset(Select(atts, test, true)) + multiset(Select(atts, test, false)) == multiset(atts)
    decreases |atts|
  {
    if atts != [] {
      var init, last := atts[..|atts| - 1], atts[|atts| - 1];
      SelectSplits(init, test);
      assert atts == init + [last];
      SelectLast(init, last, test, true);
      SelectLast(init, last, test, false);
      assert multiset(atts) == multiset(init) + multiset([last]);
    }
  }

  /** An element is selected exactly when it is in the list and passes the test. */
  lemma {:induction false} SelectMembers(atts: seq<Value>, test: Value -> bool, want: bool, x: Value)
    ensures x in Select(atts, test, want) <==> x in atts && test(x) == want
    decreases |atts|
  {
    if atts != [] {
      var init, last := atts[..|atts| - 1], atts[|atts| - 1];
      SelectMembers(init, test, want, x);
      assert atts == init + [last];
      SelectLast(init, last, test, want);
    }
  }

  /** Every attachment lands in exactly one of the two lists, as often as it occurs. */
  lemma Partition(atts: seq<Value>)
    ensures multiset(Images(atts)) + multiset(Others(atts)) == multiset(atts)
    ensures forall x :: x in Images(atts) <==> x in atts && IsImage(x)
    ensures forall x :: x in Others(atts) <==> x in atts && !IsImage(x)
  {
    SelectSplits(atts, IsImage);
    forall x
      ensures x in Images(atts) <==> x in atts && IsImage(x)
      ensures x in Others(atts) <==> x in atts && !IsImage(x)
    {
      SelectMembers(atts, IsImage, true, x);
      SelectMembers(atts, IsImage, false, x);
    }
  }

  /** A selection keeps relative order: selecting from a concatenation selects from
      each part. */
  lemma {:induction false} SelectAppend(a: seq<Value>, b: seq<Value>, test: Value -> bool, want: bool)
    ensures Select(a + b, test, want) == Select(a, test, want) + Select(b, test, want)
    decreases |b|
  {
    if b == [] {
      assert a + b == a;
    } else {
      var init := b[..|b| - 1];
      SelectAppend(a, init, test, want);
      assert (a + b)[..|a + b| - 1] == a + init;
    }
  }

  /** Both filters keep relative order. */
  lemma FiltersAppend(a: seq<Value>, b: seq<Value>)
    ensures Images(a + b) == Images(a) + Images(b)
    ensures Others(a + b) == Others(a) + Others(b)
  {
    SelectAppend(a, b, IsImage, true);
    SelectAppend(a, b, IsImage, false);
  }

  // ---------------------------------------------------------------------------
  // addAttachmentsToPDF

  /** What happens to one image: the download fails, the PDF engine rejects the
      downloaded file, or the image is embedded. Downloading is not modelled; its
      result is an input. */
  datatype ImageOutcome = Unavailable | Unreadable | Embedded

  /** The heading above the first image. */
  function ImagesHeading(i: nat): seq<Instr> {
    if i == 0 then [Heading("Attachments")] else []
  }

  /** The lines naming an image, its author and its creation date. */
  function ImageDetails(att: Value): seq<Instr> {
    [Line([Plain("Filename: "), Interp(Prop(att, "filename"))]),
     Line([Plain("Author: "), Interp(Prop(att, "author"))]),
     Line([Plain("Created: "), DateOf(Prop(att, "created"))])]
  }

  /** The picture, when the engine accepts the downloaded file. */
  function ImagePicture(att: Value, outcome: ImageOutcome): seq<Instr> {
    if outcome == Embedded then [Picture(Prop(att, "content"))] else []
  }

  /** The page of image number `i`. A failed download draws nothing; otherwise the
      page, its heading when `i` is 0, the file's details and the picture if the
      engine accepts it. */
  function ImageBlock(att: Value, i: nat, outcome: ImageOutcome): seq<Instr> {
    if outcome == Unavailable then []
    else [NewPage] + ImagesHeading(i) + ImageDetails(att) + ImagePicture(att, outcome)
  }

  /** The page of each image, given what happens to its download. */
  function ImageItem(fetch: Value -> ImageOutcome): (Value, nat) -> seq<Instr> {
    (att: Value, i: nat) => ImageBlock(att, i, fetch(att))
  }

  /** The pages of all images, in order. */
  function ImagePages(images: seq<Value>, fetch: Value -> ImageOutcome): seq<Instr> {
    Layout(images, ImageItem(fetch), |images|)
  }

  /** The two lines that list one other file. */
  function OtherBlock(att: Value): seq<Instr> {
    [Line([Plain("Filename: "), Interp(Prop(att, "filename")), Link("  [Download]", Prop(att, "content"))]),
     Line([Plain("Author: "), Interp(Prop(att, "author")), Plain(" | Created: "), DateOf(Prop(att, "created"))])]
  }

  /** The lines of each other file. */
  const OtherItem: (Value, nat) -> seq<Instr> := (att: Value, i: nat) => OtherBlock(att)

  /** The one page of other files, when there are any. */
  function OtherPage(others: seq<Value>): seq<Instr> {
    if others == [] then []
    else [NewPage, Heading("Other Attachments:")] + Layout(others, OtherItem, |others|)
  }

  /** `addAttachmentsToPDF(doc, attachments)`: a value that is not an array, or a
      `null` attachment, makes the filters throw before anything is drawn. */
  function AttachmentsDrawing(attachments: Value, fetch: Value -> ImageOutcome): Drawing {
    if !attachments.Arr? || HasNullish(attachments.items) then Drawing([], false)
    else
      var atts := attachments.items;
      var images := Images(atts);
      Drawing(ImagePages(images, fetch) + OtherPage(Others(atts)), true)
  }

  method AddAttachmentsToPdf(doc: Document, attachments: Value, fetch: Value -> ImageOutcome)
    returns (done: bool)
    modifies doc
    ensures done == AttachmentsDrawing(attachments, fetch).done
    ensures doc.ops == old(doc.ops) + AttachmentsDrawing(attachments, fetch).ops
  {
    if !attachments.Arr? || HasNullish(attachments.items) {
      return false;
    }
    var imageFiles := Images(attachments.items);
    var otherFiles := Others(attachments.items);
    DrawImages(doc, imageFiles, fetch);
    DrawOthers(doc, otherFiles);
    AppendAssoc(old(doc.ops), ImagePages(imageFiles, fetch), OtherPage(otherFiles));
    return true;
  }

  /** The loop over the images. */
  method DrawImages(doc: Document, images: seq<Value>, fetch: Value -> ImageOutcome)
    modifies doc
    ensures doc.ops == old(doc.ops) + ImagePages(images, fetch)
  {
    ghost var start := doc.ops;
    var i := 0;
    while i < |images|
      invariant 0 <= i <= |images|
      invariant doc.ops == start + Layout(images, ImageItem(fetch), i)
    {
      DrawImage(doc, images[i], i, fetch(images[i]));
      LayoutStep(start, images, ImageItem(fetch), i);
      i := i + 1;
    }
  }

  /** The page of other files, drawn only when there are some. */
  method DrawOthers(doc: Document, others: seq<Value>)
    modifies doc
    ensures doc.ops == old(doc.ops) + OtherPage(others)
  {
    if others == [] {
      return;
    }
    doc.Draw([NewPage, Heading("Other Attachments:")]);
    ghost var start := doc.ops;
    var j := 0;
    while j < |others|
      invariant 0 <= j <= |others|
      invariant doc.ops == start + Layout(others, OtherItem, j)
    {
      DrawOther(doc, others[j]);
      LayoutStep(start, others, OtherItem, j);
      j := j + 1;
    }
    AppendAssoc(old(doc.ops), [NewPage, Heading("Other Attachments:")], Layout(others, OtherItem, |others|));
  }

  /** The `try` block for image number `i`: a failed download skips the rest, and a
      rejected image leaves what was drawn before it. */
  method DrawImage(doc: Document, att: Value, i: nat, outcome: ImageOutcome)
    modifies doc
    ensures doc.ops == old(doc.ops) + ImageBlock(att, i, outcome)
  {
    if outcome == Unavailable {
      return;
    }
    doc.Draw([NewPage]);
    if i == 0 {
      doc.Draw([Heading("Attachments")]);
    }
    doc.Draw(ImageDetails(att));
    if outcome == Embedded {
      doc.Draw([Picture(Prop(att, "content"))]);
    }
  }

  /** The lines listing one other file. */
  method DrawOther(doc: Document, att: Value)
    modifies doc
    ensures doc.ops == old(doc.ops) + OtherBlock(att)
  {
    doc.Draw([Line([Plain("Filename: "), Interp(Prop(att, "filename")), Link("  [Download]", Prop(att, "content"))])]);
    doc.Draw([Line([Plain("Author: "), Interp(Prop(att, "author")), Plain(" | Created: "), DateOf(Prop(att, "created"))])]);
  }

  // ---------------------------------------------------------------------------
  // What the layout promises

  /** How many of the first `n` images download. */
  function Downloaded(images: seq<Value>, fetch: Value -> ImageOutcome, n: nat): nat
    requires n <= |images|
  {
    if n == 0 then 0
    else Downloaded(images, fetch, n - 1) + if fetch(images[n - 1]) == Unavailable then 0 else 1
  }

  /** The details and the picture hold no page break and no heading. */
  lemma ImagePartsFree(att: Value, outcome: ImageOutcome, x: Instr)
    requires x == NewPage || x == Heading("Attachments")
    ensures Count(ImageDetails(att), x) == 0 && Count(ImagePicture(att, outcome), x) == 0
  {
    CountZero(ImageDetails(att), x);
    CountZero(ImagePicture(att, outcome), x);
  }

  /** Only the page break and the heading of an image page count. */
  lemma ImageBlockSplit(att: Value, i: nat, outcome: ImageOutcome, x: Instr)
    requires outcome != Unavailable
    requires x == NewPage || x == Heading("Attachments")
    ensures Count(ImageBlock(att, i, outcome), x) == Count([NewPage], x) + Count(ImagesHeading(i), x)
  {
    var head, details, picture := ImagesHeading(i), ImageDetails(att), ImagePicture(att, outcome);
    CountAppend([NewPage] + head + details, picture, x);
    CountAppend([NewPage] + head, details, x);
    CountAppend([NewPage], head, x);
    ImagePartsFree(att, outcome, x);
  }

  /** One image adds a page when it downloads, and the heading when it is the first. */
  lemma ImageBlockCount(att: Value, i: nat, outcome: ImageOutcome)
    ensures Pages(ImageBlock(att, i, outcome)) == if outcome == Unavailable then 0 else 1
    ensures Count(ImageBlock(att, i, outcome), Heading("Attachments")) ==
      if outcome != Unavailable && i == 0 then 1 else 0
  {
    if outcome != Unavailable {
      ImageBlockSplit(att, i, outcome, NewPage);
      ImageBlockSplit(att, i, outcome, Heading("Attachments"));
      assert Count([NewPage], NewPage) == 1 && Count([NewPage], Heading("Attachments")) == 0;
      assert Count([Heading("Attachments")], NewPage) == 0;
    }
  }

  /** Each image that downloads adds one page. */
  lemma {:induction false} ImagePagesCount(images: seq<Value>, fetch: Value -> ImageOutcome, n: nat)
    requires n <= |images|
    ensures LayoutCount(images, ImageItem(fetch), n, NewPage) == Downloaded(images, fetch, n)
    decreases n
  {
    if n > 0 {
      ImagePagesCount(images, fetch, n - 1);
      ImageBlockCount(images[n - 1], n - 1, fetch(images[n - 1]));
    }
  }

  /** Only the first image, when it downloads, brings the "Attachments" heading. */
  lemma {:induction false} ImagePagesHeading(images: seq<Value>, fetch: Value -> ImageOutcome, n: nat)
    requires n <= |images|
    ensures LayoutCount(images, ImageItem(fetch), n, Heading("Attachments")) ==
      if n > 0 && fetch(images[0]) != Unavailable then 1 else 0
    decreases n
  {
    if n > 0 {
      ImagePagesHeading(images, fetch, n - 1);
      ImageBlockCount(images[n - 1], n - 1, fetch(images[n - 1]));
    }
  }

  /** The lines listing other files hold no page break and no "Attachments" heading. */
  lemma {:induction false} OtherLinesCount(others: seq<Value>, n: nat, x: Instr)
    requires n <= |others|
    requires x == NewPage || x == Heading("Attachments")
    ensures LayoutCount(others, OtherItem, n, x) == 0
    decreases n
  {
    if n > 0 {
      OtherLinesCount(others, n - 1, x);
      CountZero(OtherBlock(others[n - 1]), x);
    }
  }

  /** The page of other files adds one page break when there are other files, and
      never the "Attachments" heading. */
  lemma OtherPageCount(others: seq<Value>, x: Instr)
    requires x == NewPage || x == Heading("Attachments")
    ensures Count(OtherPage(others), x) == if x == NewPage && others != [] then 1 else 0
  {
    if others != [] {
      var lines := Layout(others, OtherItem, |others|);
      OtherLinesCount(others, |others|, x);
      LayoutCounted(others, OtherItem, |others|, x);
      CountAppend([NewPage, Heading("Other Attachments:")], lines, x);
      assert Count([NewPage, Heading("Other Attachments:")], x) == if x == NewPage then 1 else 0;
    }
  }

  /** Each image that downloads adds exactly one page, a failed one none, and the
      other files add one page exactly when there are some; the "Attachments" heading
      appears once, and only when the first image downloads. */
  lemma AttachmentPages(attachments: Value, fetch: Value -> ImageOutcome)
    requires AttachmentsDrawing(attachments, fetch).done
    ensures var images := Images(attachments.items);
      Pages(AttachmentsDrawing(attachments, fetch).ops) ==
        Downloaded(images, fetch, |images|) + if Others(attachments.items) == [] then 0 else 1
    ensures var images := Images(attachments.items);
      Count(AttachmentsDrawing(attachments, fetch).ops, Heading("Attachments")) ==
        if images != [] && fetch(images[0]) != Unavailable then 1 else 0
  {
    var images := Images(attachments.items);
    var others := Others(attachments.items);
    var pages := ImagePages(images, fetch);
    ImagePagesCount(images, fetch, |images|);
    ImagePagesHeading(images, fetch, |images|);
    LayoutCounted(images, ImageItem(fetch), |images|, NewPage);
    LayoutCounted(images, ImageItem(fetch), |images|, Heading("Attachments"));
    OtherPageCount(others, NewPage);
    OtherPageCount(others, Heading("Attachments"));
    CountAppend(pages, OtherPage(others), NewPage);
    CountAppend(pages, OtherPage(others), Heading("Attachments"));
  }

  /** An empty attachment list draws nothing. */
  lemma NoAttachments(fetch: Value -> ImageOutcome)
    ensures AttachmentsDrawing(Arr([]), fetch) == Drawing([], true)
  {
    assert Images([]) == [] && Others([]) == [];
  }
}
