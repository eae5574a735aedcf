# Jira issue to PDF exporter — a verified model

The exporter fetches a Jira issue, normalises it into a flat record and draws a PDF report of it. The report has the main issue, its comments, its attachments and an index of its subtasks, then one section per subtask. The exporter then uploads the PDF to a Drive folder named after two of the issue's fields. This project models that pipeline in Dafny and proves what it promises:

- **`json.dfy`** (module `Json`): the JavaScript values the exporter handles. These are `undefined`, `null`, booleans, integers, strings, arrays, and objects as ordered key/value lists (because `for…in` order decides what the report shows first).
  - It also covers property reads, writes and `delete`, `String(v)`, `Array.prototype.join`, `JSON.stringify` and the keys `for…in` visits.
  - A TypeError (reading a property of `null`/`undefined`, or `forEach` on something that is not an array) is the `Throws` outcome.
- **`normalize.dfy`** (module `Normalize`):
  - `dropNull`, rich-text extraction, the case split of `flattenFieldsMainIssue`
  - the field map and relabelling of `generalCleaning`
  - `dropFields` with the fixed drop list, and `finalObject`
- **`report.dfy`** (module `Report`): the PDF document as a class whose only state is the sequence of drawing instructions it has received. These are new pages, underlined headings, lines of text cells and pictures.
  - A `Drawing` is what a step emitted plus whether it finished or threw.
- **`attachments.dfy`** (module `Attachments`): `isImage`, the image/other split, and `addAttachmentsToPDF`'s page layout.
- **`composer.dfy`** (module `Composer`): `dateRegex`, the remaining-field loop, `populateMainIssue`, `testSubtaskFetch` and `createPdf`.

The imperative parts keep their form:
- `dropNull`, `flattenFieldsMainIssue`, the field-map and renaming loops, and `dropFields` are methods with loops proved against the functions that specify them.
- The `delete` sequences are a method over the copied object.
- The drawing code appends to a `Document` object in loops whose invariants tie the document to a specification function.

The network results are inputs:
- the field listing, as a `Value`;
- the issue lookup, as a function from key to `Value`, where `undefined` stands for a failed request because `fetchIssue` swallows errors;
- the outcome of each image download and embedding, as a function.

Two behaviours of the code worth noting, both modelled as written:
- The "Attachments" heading is drawn only while drawing the image at index 0. If that image's download fails, no heading appears at all, not even on the first image page.
- When the PDF engine rejects a downloaded image, the temporary file is not deleted.

## Model

| member | source | states |
|---|---|---|
| Json.FirstNullish | pdf-exporter.mjs:466-475 | a `forEach` whose callback reads a property of each element gets exactly as far as the first `null`/`undefined` element; it reaches the end iff there is none |
| Json.GetAbsent | pdf-exporter.mjs:283 | reading a key an object does not have gives `undefined` |
| Json.PutKeys | pdf-exporter.mjs:129 | after `o[k] = v` the keys are those of `o`, then `k` at the end if it was new (an existing key keeps its place) |
| Json.PutGet | pdf-exporter.mjs:129 | after `o[k] = v`, `o[k]` is `v` and every other key reads as before |
| Json.PutUnique | pdf-exporter.mjs:129 | a write never makes a key appear twice |
| Json.PutFresh | pdf-exporter.mjs:299 | writing a key that is not there yet appends the entry |
| Json.PutAllSpec | pdf-exporter.mjs:127-131 | after a run of writes with distinct keys, a key is present iff it was before or was written, and the written value wins |
| Json.PutAllLastWins | pdf-exporter.mjs:275-277 | when several writes hit the same key, the last one decides its value |
| Json.PutAllUntouched | pdf-exporter.mjs:127-131 | a key no write touches keeps its value |
| Json.PutAllIntoEmpty | pdf-exporter.mjs:297-301 | copying an object's entries one by one into `{}` rebuilds the same object, order included |
| Json.FilterMembers | pdf-exporter.mjs:297-300 | filtering keeps exactly the accepted entries |
| Json.FilterUnique | pdf-exporter.mjs:297-300 | filtering keeps keys distinct, and a key survives iff it was there and its entry is accepted |
| Json.FilterGet | pdf-exporter.mjs:297-300 | a surviving key keeps its value; a filtered-out key reads `undefined` |
| Json.WithoutSpec | pdf-exporter.mjs:392-394 | after deleting the keys `ks`, an object has exactly its other keys, with their values |
| Json.WithoutNothing | pdf-exporter.mjs:388 | the spread copy with nothing deleted is the object itself |
| Json.DeleteAfterWithout | pdf-exporter.mjs:432-434 | deleting keys one after another is deleting them all at once |
| Json.NatToStringInjective | pdf-exporter.mjs:127 | distinct array indices are distinct `for…in` keys |
| Json.IntToStringInjective | pdf-exporter.mjs:602 | different numbers are written as different decimal text, so a numeric `key` names its file unambiguously |
| Json.ToStr | pdf-exporter.mjs:598-602 | `String(v)` gives a string back unchanged, spells out `null` and `undefined`, and writes a number as non-empty decimal text with a minus sign exactly when it is negative |
| Json.Serialize | pdf-exporter.mjs:205-212 | the JSON text of a value is never empty; a string is written between double quotes, an array between brackets, an object between braces |
| Json.Stringify | pdf-exporter.mjs:205-212 | `JSON.stringify` gives `undefined` exactly for `undefined`, and a non-empty string otherwise |
| Json.ForIn | pdf-exporter.mjs:127 | `for…in` over an object visits its own keys in order; over anything else it visits distinct keys |
| Normalize.DropNull | pdf-exporter.mjs:126-132 | the loop leaves the target equal to the target with every non-null entry of the source written into it, in order |
| Normalize.DropNullSpec | pdf-exporter.mjs:126-132 | afterwards the target has its old keys plus exactly the source keys whose value is not `null`, with the source's values; into `{}` it is exactly the non-null entries in order |
| Normalize.InlineTexts | pdf-exporter.mjs:139 | the `map(c => c.text).filter(Boolean)` step succeeds iff no inline node is `null`/`undefined`, and keeps only truthy texts |
| Normalize.InlineTextsAppend | pdf-exporter.mjs:139 | the texts of consecutive runs of inline nodes come out one after the other, in node order |
| Normalize.InlineTextsAt | pdf-exporter.mjs:139 | every inline node keeps its place: the texts are those before it, then its own `text` exactly when that is truthy, then those after it; so every truthy `text` is kept |
| Normalize.EmptyParagraph | pdf-exporter.mjs:139 | a paragraph without `content` contributes nothing and does not throw |
| Normalize.ParagraphSpansSpec | pdf-exporter.mjs:137-140 | the `flatMap` throws iff one paragraph throws, and every span it yields is truthy |
| Normalize.ParagraphSpansAppend | pdf-exporter.mjs:137-141 | the spans of consecutive paragraphs come out in paragraph order |
| Normalize.ParagraphSpansAt | pdf-exporter.mjs:137-141 | every paragraph keeps its place: the spans are those of the paragraphs before it, then its own, then those after it |
| Normalize.ExtractText | pdf-exporter.mjs:135 | a value that is falsy, not of type `doc`, or whose `content` is not an array yields `""` |
| Normalize.ExtractTextSpec | pdf-exporter.mjs:134-142 | extraction throws iff the value is a document node with a throwing paragraph; otherwise the text of a document node is its spans joined by single spaces |
| Normalize.MapRows | pdf-exporter.mjs:152-176 | a mapped list succeeds iff every element's row does, and then has the same length and order, row `i` coming from element `i` |
| Normalize.SubtaskRow | pdf-exporter.mjs:152-158 | a subtask row exists iff the subtask is not `null`/`undefined`, and is an object of five properties |
| Normalize.AttachmentRow | pdf-exporter.mjs:164-169 | an attachment row exists iff the attachment is not `null`/`undefined`, and is an object of four properties |
| Normalize.CommentRow | pdf-exporter.mjs:176-190 | a comment row exists iff the comment is present and its body's extraction does not throw, and is an object of five properties |
| Normalize.SubtaskRowDefaults | pdf-exporter.mjs:152-158 | a subtask row has the five keys in order and none of its values is `null`/`undefined`; its `key` is the subtask's key when truthy and `""` otherwise |
| Normalize.SubtaskRowValues | pdf-exporter.mjs:154-157 | the summary and the status, priority and issue type names are read from the subtask's fields, each defaulting to `""` when falsy or missing |
| Normalize.AttachmentRowDefaults | pdf-exporter.mjs:164-169 | an attachment row has the four keys; its author is the author's display name when truthy and `""` otherwise (never `null`/`undefined`); the file name, creation date and URL are copied unchanged |
| Normalize.CommentRowDefaults | pdf-exporter.mjs:176-190 | a comment row exists iff the comment is present and its body extracts; its author and update author are the display names when truthy and `""` otherwise, its text is the extracted body, and its creation and update dates are copied unchanged |
| Normalize.ListsFlattened | pdf-exporter.mjs:151-192 | `Sub-tasks`, `Attachment` and `Comment.comments` arrays become `Subtasks`, `Attachments` and `Comments` with one row per element in order, throwing iff some element's row throws |
| Normalize.ListItem | pdf-exporter.mjs:206-208 | a list item gives its truthy `value` first; only a missing item gives `undefined` (joined as `""`), and `null` is written `"null"` |
| Normalize.FlattenValue | pdf-exporter.mjs:194-214 | the cascade writes nothing exactly for `null`, `undefined` and booleans, and only a document node can throw |
| Normalize.FlattenValueShapes | pdf-exporter.mjs:194-214 | in the cascade's order: strings and numbers are copied; an object owning `value`, `name` or `displayName` takes the first truthy of the three (one owning only `displayName` takes it); otherwise a `doc` object yields its extracted text and throws iff extraction does; an array yields, for each item, its truthy `value`, else its truthy `name`, else its JSON text, joined by `", "`; any other object its JSON text |
| Normalize.FlattenFields | pdf-exporter.mjs:145-218 | the loop computes the flattening function over all fields, including its throws |
| Normalize.StepIsWritten | pdf-exporter.mjs:149-214 | one iteration writes exactly the entry its field yields |
| Normalize.FlattenIsWrites | pdf-exporter.mjs:145-218 | flattening throws iff some field throws, and otherwise equals writing each field's entry in field order into `{}` |
| Normalize.WritesHasField | pdf-exporter.mjs:148-215 | every entry a field yields is among the writes |
| Normalize.WritesFromFields | pdf-exporter.mjs:148-215 | every written entry comes from exactly one field's yield |
| Normalize.WrittenValue | pdf-exporter.mjs:194-214 | a field that writes is neither `null`, `undefined` nor a boolean, and writes under its own key or under `Subtasks`/`Attachments`/`Comments` |
| Normalize.BuildFieldMap | pdf-exporter.mjs:274-277 | the `forEach` loop builds the field map, and throws when the listing is not an array or holds `null`/`undefined` |
| Normalize.FieldMapSpec | pdf-exporter.mjs:274-277 | the map knows exactly the listed identifiers, and the last field listed with an identifier gives its name |
| Normalize.Label | pdf-exporter.mjs:283 | a key the map does not know, or maps to a falsy name, stays unchanged; a key mapped to a truthy name becomes that name as a string |
| Normalize.Rename | pdf-exporter.mjs:281-285 | the renaming loop writes every relabelled field into `{}`, in order |
| Normalize.RenameSpec | pdf-exporter.mjs:281-287 | the renamed object has exactly the labels as keys, each entry is some field's value under its label, and no key twice |
| Normalize.RenameDistinct | pdf-exporter.mjs:281-285 | when labels are distinct, renaming relabels every field in place |
| Normalize.RenameUnknown | pdf-exporter.mjs:283 | with an empty map, renaming gives the fields back unchanged |
| Normalize.GeneralCleaning | pdf-exporter.mjs:261-292 | the method computes the cleaning function, including its throws |
| Normalize.CleanIssueFails | pdf-exporter.mjs:262-277 | cleaning throws iff the issue is missing or the field listing is not an array of non-null entries |
| Normalize.CleanIssueTop | pdf-exporter.mjs:265-271 | apart from `fields`, the cleaned issue has exactly the non-null top-level properties with their values; `fields` is always an object |
| Normalize.CleanIssueFields | pdf-exporter.mjs:268-287 | an object `fields` becomes its non-null entries, renamed |
| Normalize.CleanIssueNoFields | pdf-exporter.mjs:268-287 | a missing or falsy `fields` becomes `{}` |
| Normalize.CleanedNoFields | pdf-exporter.mjs:265-271 | dropping nulls keeps a falsy `fields` falsy |
| Normalize.RenamedNoFields | pdf-exporter.mjs:281-287 | renaming a falsy `fields` gives `{}` |
| Normalize.KeyKept | pdf-exporter.mjs:25 | `key`, `Comments`, `Attachments` and `Subtasks` are not on the drop list |
| Normalize.DropFields | pdf-exporter.mjs:294-304 | the loop copies the entries whose key is not on the list into `{}` |
| Normalize.DropFieldsSpec | pdf-exporter.mjs:294-304 | the result is the object minus the listed keys: every other key with its value, in order, no key twice |
| Normalize.FinalObject | pdf-exporter.mjs:306-313 | the method computes the final record: cleaned, flattened, `key` added, noise fields dropped |
| Normalize.FinalObjectWrites | pdf-exporter.mjs:306-310 | a final record is the writes of the renamed fields, plus `key`, minus the drop list |
| Normalize.RecordKeys | pdf-exporter.mjs:309-310 | such a record has `key` with its value, no dropped key, and distinct keys |
| Normalize.RecordEntries | pdf-exporter.mjs:309-310 | every entry of such a record other than `key` is one of the writes |
| Normalize.FinalObjectKeys | pdf-exporter.mjs:306-312 | the final record always has `key` (the cleaned issue's), never a dropped field, and no key twice |
| Normalize.FinalObjectIssueKey | pdf-exporter.mjs:309 | the record's `key` is the fetched issue's own `key` (`undefined` when that was `null`) |
| Normalize.FinalObjectOrigin | pdf-exporter.mjs:306-312 | every other entry is the yield of exactly one renamed field that was not `null`, `undefined` or boolean |
| Report.CountZero | pdf-exporter.mjs:341 | an instruction is counted zero times iff it does not occur |
| Report.LayoutCounted | pdf-exporter.mjs:336-363 | counting in a loop's output is counting in each iteration's output |
| Report.LayoutSingles | pdf-exporter.mjs:436-457 | a loop drawing one instruction per item draws them in item order |
| Report.LayoutFree | pdf-exporter.mjs:372-380 | an instruction no iteration draws is absent from the loop's output |
| Report.LayoutAtLeast | pdf-exporter.mjs:336-363 | if every iteration draws `x`, the loop draws it at least once per item |
| Report.SequenceDone | pdf-exporter.mjs:614-616 | a loop of awaited sections finishes iff no section throws |
| Report.SequenceStop | pdf-exporter.mjs:614-616 | once a section throws, nothing after it is drawn |
| Report.SequenceAtLeast | pdf-exporter.mjs:614-616 | if every finished section draws `x`, a finished loop draws it at least once per section |
| Report.Document.constructor | pdf-exporter.mjs:605 | a new document holds nothing |
| Report.Document.Draw | pdf-exporter.mjs:348-349 | drawing appends and never changes what was drawn |
| Attachments.IsImage | pdf-exporter.mjs:316-318 | a string file name is tested as it is; a missing (`null`/`undefined`) file name is never an image |
| Attachments.ImageSuffixAccepted | pdf-exporter.mjs:316-318 | every name ending in `.jpg`, `.jpeg` or `.png`, in any mix of letter case, is an image name |
| Attachments.ImageNameSuffix | pdf-exporter.mjs:316-318 | every image name ends in one of the three suffixes in some letter case: the dot is required and nothing may follow |
| Attachments.SelectSplits | pdf-exporter.mjs:332-333 | two complementary filters split a list as a multiset |
| Attachments.SelectMembers | pdf-exporter.mjs:332-333 | an element is selected iff it is in the list and passes the test |
| Attachments.Partition | pdf-exporter.mjs:332-333 | every attachment lands in exactly one of `imageFiles` and `otherFiles`, as often as it occurs; the images are exactly the image-named attachments |
| Attachments.SelectAppend | pdf-exporter.mjs:332-333 | filtering a concatenation filters each part: relative order is kept |
| Attachments.FiltersAppend | pdf-exporter.mjs:332-333 | both filters keep relative order |
| Attachments.AddAttachmentsToPdf | pdf-exporter.mjs:331-382 | the method draws exactly the specified attachment layout, and throws before drawing on a non-array or a `null` attachment |
| Attachments.DrawImages | pdf-exporter.mjs:336-363 | the image loop draws each image's block in order |
| Attachments.DrawOthers | pdf-exporter.mjs:365-381 | the other files are drawn on one page after a heading, only when there are some |
| Attachments.DrawImage | pdf-exporter.mjs:337-362 | a failed download draws nothing; a success draws the page, the heading when `i == 0`, the details and, if the engine accepts it, the picture |
| Attachments.DrawOther | pdf-exporter.mjs:372-380 | one other file is listed by name, link, author and date |
| Attachments.ImageBlockCount | pdf-exporter.mjs:338-362 | one image adds one page iff it downloads, and the heading iff it downloads and is the first |
| Attachments.ImagePagesCount | pdf-exporter.mjs:336-363 | the image loop adds one page per downloaded image |
| Attachments.ImagePagesHeading | pdf-exporter.mjs:343-346 | the "Attachments" heading appears once iff the first image downloads, otherwise never |
| Attachments.OtherLinesCount | pdf-exporter.mjs:372-380 | listing other files adds no page and no "Attachments" heading |
| Attachments.OtherPageCount | pdf-exporter.mjs:366-381 | the other files add exactly one page iff there are any |
| Attachments.AttachmentPages | pdf-exporter.mjs:331-382 | the pages added are one per downloaded image plus one iff there are other files; the heading appears iff the first image downloads |
| Attachments.NoAttachments | pdf-exporter.mjs:331-382 | an empty list draws nothing and finishes |
| Composer.TimestampMatches | pdf-exporter.mjs:27 | every `yyyy-mm-ddThh:mm:ss.f+zzzz` timestamp matches `dateRegex` |
| Composer.MatchesAreTimestamps | pdf-exporter.mjs:27 | every match is such a timestamp |
| Composer.DateExamples | pdf-exporter.mjs:27 | a `+0200` timestamp matches; a negative offset, a bare date and `""` do not |
| Composer.FieldLine | pdf-exporter.mjs:436-457 | a remaining field's line names the key and shows `"null"` iff the value is `""`, a formatted date iff it is a matching string, the value itself otherwise |
| Composer.FieldLinesAt | pdf-exporter.mjs:436-457 | one line per remaining field, the i-th for the i-th property |
| Composer.FieldLinesFree | pdf-exporter.mjs:436-457 | the field lines start no page and draw no heading |
| Composer.DrawFields | pdf-exporter.mjs:436-457 | the `for…in` loop draws exactly the field lines |
| Composer.ForEachDone | pdf-exporter.mjs:466-475 | a `forEach` finishes iff the list is an array without `null`/`undefined`, and then has drawn every block in order |
| Composer.DrawComments | pdf-exporter.mjs:466-475 | the comment loop draws each comment's lines in order, stopping and throwing at a missing comment |
| Composer.DrawSubtaskIndex | pdf-exporter.mjs:483-495 | the subtask index draws each subtask's key, summary, status, priority and type in order, stopping at a missing entry |
| Composer.DrawComment | pdf-exporter.mjs:467-474 | one comment: author and date, text, editor and date |
| Composer.DrawSubtaskEntry | pdf-exporter.mjs:484-494 | one index entry: the underlined key and four lines |
| Composer.DeleteEach | pdf-exporter.mjs:392-434 | deleting keys one by one from the copy leaves the original minus all deleted keys |
| Composer.DrawMainHead | pdf-exporter.mjs:386-461 | the main issue draws the title, the fixed lines, its remaining fields and the "Comments" heading |
| Composer.DrawMainTitle | pdf-exporter.mjs:398-399 | the summary, then key and project |
| Composer.DrawMainBasics | pdf-exporter.mjs:407-430 | the eleven fixed lines, with dates formatted |
| Composer.DrawMainTail | pdf-exporter.mjs:461-495 | comments, attachments, then the subtask index on a new page, each only if the previous finished |
| Composer.PopulateMainIssue | pdf-exporter.mjs:386-501 | the main section is drawn, with the lists read before their keys are deleted |
| Composer.MainSectionDone | pdf-exporter.mjs:466-495 | the main section finishes iff its comments, attachments and subtasks are arrays without `null`/`undefined` |
| Composer.ListsStartNoPage | pdf-exporter.mjs:466-495 | comments and the subtask index never start a page |
| Composer.MainHeadNoPage | pdf-exporter.mjs:398-461 | nothing before the comments starts a page |
| Composer.MainFixedNoPage | pdf-exporter.mjs:398-430 | the title and fixed lines start no page |
| Composer.MainPages | pdf-exporter.mjs:386-501 | the main section adds the attachment pages plus one page for the subtask index, if it gets that far |
| Composer.MainFixedLength | pdf-exporter.mjs:398-430 | the title and fixed lines are thirteen instructions |
| Composer.MainRest | pdf-exporter.mjs:388-434 | after the deletions the copy holds exactly the fields not hidden, with their values |
| Composer.MainFieldsListed | pdf-exporter.mjs:432-461 | after the fixed lines the remaining fields are listed in `for…in` order, each with its value, then "Comments" |
| Composer.MainCreatedTwice | pdf-exporter.mjs:406-452 | "Created" is drawn among the fixed lines but not deleted, so a timestamp in it appears twice |
| Composer.MainCreatedListed | pdf-exporter.mjs:436-457 | a "Created" field is among the remaining lines |
| Composer.CreatedNotHidden | pdf-exporter.mjs:406 | "Created" is not a hidden key |
| Composer.MainCreatedLine | pdf-exporter.mjs:423-424 | the tenth instruction is the fixed "Created" line of the issue's own value |
| Composer.MainHeadTenth | pdf-exporter.mjs:423-424 | the tenth instruction is the fixed "Created" line of the copy |
| Composer.SubtaskPages | pdf-exporter.mjs:514-593 | a subtask section starts with a new page, opens exactly one, and adds its attachment pages if its comments finish |
| Composer.SubFixedPages | pdf-exporter.mjs:514-546 | the title and fixed lines of a subtask open exactly one page, first |
| Composer.SubtaskSectionDone | pdf-exporter.mjs:582-593 | a subtask section finishes iff its comments and attachments are arrays without `null`/`undefined` |
| Composer.SubtaskAssignee | pdf-exporter.mjs:535-536 | a falsy assignee is written `"null"`, any other as it is |
| Composer.SubHeadSeventh | pdf-exporter.mjs:535-536 | the seventh instruction is the assignee line of the copy |
| Composer.SubRest | pdf-exporter.mjs:508-550 | after the deletions the copy holds exactly the fields not hidden, with their values |
| Composer.SubFixedLength | pdf-exporter.mjs:514-546 | the title and fixed lines of a subtask are twelve instructions |
| Composer.SubFieldsListed | pdf-exporter.mjs:548-579 | after the fixed lines the remaining fields are listed in order, each with its value, then "Comments" |
| Composer.DrawSubTitle | pdf-exporter.mjs:514-518 | a new page, the key, the underlined summary |
| Composer.DrawSubBasics | pdf-exporter.mjs:529-546 | the nine fixed lines of a subtask |
| Composer.DrawSubHead | pdf-exporter.mjs:508-579 | a subtask draws its title, fixed lines, remaining fields and the "Comments" heading |
| Composer.TestSubtaskFetch | pdf-exporter.mjs:505-594 | a subtask whose lookup throws draws nothing and throws; otherwise its section is drawn |
| Composer.DrawSubtask | pdf-exporter.mjs:508-593 | the subtask section is drawn, with the lists read before their keys are deleted |
| Composer.DrawSubTail | pdf-exporter.mjs:579-593 | the comments, then the attachments if the comments finished |
| Composer.CreatePdf | pdf-exporter.mjs:596-626 | the export produces the specified upload (file name, folder, sub-folder, document) or throws |
| Composer.DrawPdf | pdf-exporter.mjs:613-616 | the main section, then the subtasks in `Subtasks` order, stopping at the first that throws |
| Composer.DrawSubtasks | pdf-exporter.mjs:614-616 | the loop draws the sections in order and stops at the first that throws |
| Composer.DrawSubtaskAt | pdf-exporter.mjs:615 | one pass extends the drawn sections by one |
| Composer.SubtasksStartPages | pdf-exporter.mjs:514 | every finished subtask section opens a page |
| Composer.SectionsDone | pdf-exporter.mjs:614-616 | the subtask loop finishes iff every subtask is drawn to the end |
| Composer.CreatePdfDone | pdf-exporter.mjs:596-617 | the upload happens iff the main issue is normalised, its three lists are arrays without `null`/`undefined`, and every subtask is drawn to the end |
| Composer.CreatePdfPages | pdf-exporter.mjs:596-617 | an uploaded document has at least one page per subtask beyond the first page |
| Composer.CreatePdfName | pdf-exporter.mjs:602 | the file is named after the main record's `key` |
| Composer.UploadName | pdf-exporter.mjs:602 | with the exporter's own normalisation, the file is named after the fetched issue's `key` |
| Composer.Folder | pdf-exporter.mjs:598-599 | the fallback folder name (`'Χωρίς ΑΚ'`, `'Χωρίς Εταιρεία'`) is used for every falsy field; any truthy field names its folder by its string form (a non-empty string itself, a non-zero number its decimal digits) |
| Composer.FolderNonEmpty | pdf-exporter.mjs:598-599 | a folder name is never empty (the fallback is used for falsy values), unless the value is an array |
| Composer.FolderOfEmptyArray | pdf-exporter.mjs:598-599 | an empty array is truthy but names the folder `""` |

## Left out

- The network: `fetchAndSaveFields`, `fetchIssue` and `downloadImage` are inputs.
  - The field listing is a value, the issue lookup a function from key to value (`undefined` for a failed request), and each image's outcome a function of the attachment.
  - The exporter fetches the field listing again on every `finalObject` call; the model assumes every call receives the same listing.
- `uploadToDrive`, `findOrCreateFolder` and `createFolder` (Drive API calls; `createFolder` refers to an undefined `drive` and is never called). `createPdf` is modelled up to the `Upload` value it hands to the upload.
- `formatDate`: it depends on `Date` parsing and the local time zone. A formatted date is the symbolic cell `DateOf(raw)`.
- PDFKit details: fonts, colours, font sizes, `moveDown` spacing, image fitting, the write stream and `doc.end()`, and how `doc.text` renders a non-string value (the cell `Shown(v)` keeps the value).
- `writeFileSync` of the final record, the temporary image files and their `unlink`, `dotenv` and environment reads, `console` logging, and `index.js` (an HTTP endpoint that only logs).
- Json.ForIn: objects keep insertion order; JavaScript's rule that integer-like keys come first, and inherited properties, are not modelled (parsed JSON objects have no enumerable inherited properties).
- Json.Prop: property reads (`Json.Get`, `Json.Prop`) see only an object's own entries, and keys that name `Object.prototype` members (`constructor`, `toString`, `valueOf`, `hasOwnProperty`, `__proto__`) are not modelled, since field ids and values never use them. So a field id `constructor` keeps its own name in `Normalize.Label` (JavaScript would find the inherited function in `fieldMap`), a value with an own `hasOwnProperty` key is written as JSON by `Normalize.FlattenValue` (JavaScript would throw), a field id `__proto__` is written as an ordinary key, and `Json.ToStr` is total even for an object whose own `toString` or `valueOf` is not a function (JavaScript would throw).
- Numbers are integers; floating-point values and their text form are not modelled.
- Page counts (`AttachmentPages`, `OtherPageCount`, `MainPages`, `SubtaskPages`, `CreatePdfPages` and the like) count explicit `doc.addPage()` calls. PDFKit also starts a new page by itself when text overflows the current one (a long list of other files, long comment text); those automatic page breaks are not modelled.
- Composer.CreatePdf: it is stated for any issue lookup `finalObject` (`Composer.Normalized` is the exporter's own), so properties that need the exporter's normalisation are stated separately (`Composer.UploadName`).
- Normalize.ExtractText: its own contract covers only non-document values; the document case is stated by `Normalize.ExtractTextSpec`.
- Composer.FolderNonEmpty: it excludes arrays, because an empty array is truthy and is written as `""` (`Composer.FolderOfEmptyArray`).
- The unused `mainIssue` parameter of `testSubtaskFetch` is not modelled.
