# Dashchan extensions: posts holders, site configurations and vichan markup

This project models, in Dafny, five pieces of the Dashchan extensions repository:

- **The Dollchan posts parser** (`Dollchan`). It is a holder object whose fields the page rules update one tag at a time:
  - the current post and the pending file attachment;
  - the attachment list and the open thread;
  - the completed posts and threads;
  - the parent number, the page count, and the header and reflink flags.

  `closeThread` flushes the open thread. `convertThreads` and `convertPosts` run a parse and read the result off the holder.
- **The Erlach posts parser** (`Erlach`). It uses the same holder pattern with its own rules:
  - strict number parsing;
  - a thumbnail path derived from the image path;
  - an opening post counted in when a thread closes;
  - the quote rewrite that puts every `<span class="citate"` on a new line (`ErlachQuote`).
- **The 4chan configuration** (`Fourchan`). It reads board, posting and tag capabilities from a `(board, key) -> value` store with defaults. `updateFromBoardsJson` and `updateReportingConfiguration` write that store.
- **The Sojakparty configuration** (`Sojakparty`): fixed capability tables and the captcha switch.
- **The vichan markup rules** (`Vichan`):
  - the bit-mask tag check;
  - the thread/post link pattern `(\d+).*\.html(?:#(\d+))?$`, run with `Matcher.find`.

Shared modules:
- `Wrappers` holds `Option`.
- `JavaText` models the Java string and number operations the rules use: `trim`, `lastIndexOf`, `contains`, `Integer.parseInt`, `Long.parseLong`, int/long wrap-around, and the first `\d+` match.
- `ChanModel` holds the domain records: posts, threads, attachments and icons.
- `ChanConfig` holds the configuration records and the typed store reads.
- `ChanMarkup` holds the tag bits.

## How the holders are modelled

Each holder is a class whose fields are the Java fields. Each rule handler is a method that changes only the fields it names, and its postcondition gives the whole new state.

The Java lists are `seq` fields. `ArrayList.add` and `clear` reassign them. `null` is `None`.

A handler whose Java code would throw returns `ok == false`. Such throws are:
- a null dereference;
- a `NumberFormatException` that is not caught;
- a `substring` out of range;
- an `add` to a missing list.

An exception ends the parse (`Parse` stops at it), so the model leaves the holder as it was and the convert calls answer `Aborted`.

A parse is a sequence of events, each naming the handler that fired and the attributes or text it was given. The rule engine itself is not modelled, and neither is its choice of which of several matching rules fire. Dollchan has three rules that can all see an `<a>` tag: the file link, the page link and the reflink.

Each handler preserves the holder invariant `Valid` and the progress relation `Progress`. `Handle` and `Parse` carry both through any event sequence:
- the mode never changes (`threads` null or not);
- completed threads are never altered;
- in posts mode, completed posts are never altered.

In Dollchan, in addition:
- the page count never moves;
- the only configuration writes are board titles;
- every completed thread counts at least the posts it holds.

In Erlach, in addition:
- every completed thread counts at least one post (its opening post);
- the holder's attachment is the current post's only attachment while they are shared.

Points where the model follows the code rather than a natural reading of it:
- **Dollchan page-link guard.** The guard is the Java literal `"\\\\d+"`, which is the regex `\\d+`: a backslash followed by letters `d`. No digit string passes it, and nothing it admits parses as an int. So `maxNumberOfPages` and the stored page count never change (`PagesCountHintNone`, `DigitLinkRejected`). This is modelled as written.
- **Dollchan thumbnails.** The `img` and `video` thumbnail handlers append the pending attachment without a null check. A pending slot that is `None` is appended as `None`, so the attachment list holds `Option` values. An `img` whose `src` needs the pending attachment while none exists throws.
- **Thumbnails and `nothumb` without a post.** These handlers throw when there is no current post. They do not always commit.
- **Erlach `convertThreads`.** It returns the possibly empty list, never null. In posts mode, a `post-header` that finds an open thread throws, because `threads.add` runs on null.
- **4chan `boards.json`.** A JSON error at any board stops the update silently. The boards written before it keep their settings.

## Model

| member | source | states |
|---|---|---|
| Dollchan.MessageComment | extensions/dollchan/src/com/mishiranu/dashchan/chan/dollchan/DollchanPostsParser.java:261-266 | the comment is a prefix of the trimmed text with no blank at either end; without an abbreviation block it is the trimmed text; otherwise it ends before the last `<div class="abbrev">` and only blanks lie between it and that block |
| Dollchan.TrimmedHead | extensions/dollchan/src/com/mishiranu/dashchan/chan/dollchan/DollchanPostsParser.java:264 | trimming the part before the cut keeps a prefix of the already-trimmed text, and what it drops before the cut is blank |
| Dollchan.DigitLinkRejected | extensions/dollchan/src/com/mishiranu/dashchan/chan/dollchan/DollchanPostsParser.java:283 | a non-empty digit string never passes the page-link guard |
| Dollchan.PagesCountHintNone | extensions/dollchan/src/com/mishiranu/dashchan/chan/dollchan/DollchanPostsParser.java:283-294 | no link text yields a page count: whatever the guard admits fails Integer.parseInt |
| Dollchan.PagesCountHint | extensions/dollchan/src/com/mishiranu/dashchan/chan/dollchan/DollchanPostsParser.java:283-286 | a page count is derived only from a text the guard admits and Integer.parseInt accepts, and is a Java int |
| Dollchan.Flush | extensions/dollchan/src/com/mishiranu/dashchan/chan/dollchan/DollchanPostsParser.java:73-74 | the flushed thread holds the holder's posts, and its post count grows by their number with its file count unchanged |
| Dollchan.DollchanPostsParser.constructor | extensions/dollchan/src/com/mishiranu/dashchan/chan/dollchan/DollchanPostsParser.java:59-64 | a fresh holder: original names from links, every slot empty, posts mode, page count 0, no configuration writes |
| Dollchan.DollchanPostsParser.CloseThread | extensions/dollchan/src/com/mishiranu/dashchan/chan/dollchan/DollchanPostsParser.java:71-78 | no open thread: nothing changes; otherwise the thread takes the posts, counts them in and is appended to the threads, and the posts are emptied |
| Dollchan.DollchanPostsParser.OnDeleteInputOpen | extensions/dollchan/src/com/mishiranu/dashchan/chan/dollchan/DollchanPostsParser.java:82-101 | header handling turns on exactly for a checkbox; a missing or unnumbered post is numbered by `value`, which becomes the parent; only then and only in thread mode the open thread is flushed, a new one opened and the attachment list dropped |
| Dollchan.DollchanPostsParser.OnReplyCellOpen | extensions/dollchan/src/com/mishiranu/dashchan/chan/dollchan/DollchanPostsParser.java:102-111 | throws exactly when the id is shorter than five characters; otherwise a new post numbered by the id after five characters, parented to the current parent, and no attachment list |
| Dollchan.DollchanPostsParser.OnFileSizeOpen | extensions/dollchan/src/com/mishiranu/dashchan/chan/dollchan/DollchanPostsParser.java:112-125 | the post and the list exist afterwards, a still-pending attachment is appended to the list, and a fresh attachment is pending |
| Dollchan.DollchanPostsParser.OnAnchorOpen | extensions/dollchan/src/com/mishiranu/dashchan/chan/dollchan/DollchanPostsParser.java:126-167 | only a pending attachment without a file address is enriched: address from href, and size, width and height each from its attribute when that parses as an int, else kept; the text is captured exactly then |
| Dollchan.DollchanPostsParser.OnAnchorText | extensions/dollchan/src/com/mishiranu/dashchan/chan/dollchan/DollchanPostsParser.java:168-169 | the pending attachment's original name is the trimmed, markup-free text; with nothing pending it throws |
| Dollchan.DollchanPostsParser.CommitAttachment | extensions/dollchan/src/com/mishiranu/dashchan/chan/dollchan/DollchanPostsParser.java:181-186 | with a post: the list gains the given (possibly null) attachment, becomes the post's attachments, and the pending slot is cleared; without a post it throws |
| Dollchan.DollchanPostsParser.OnThumbImageOpen | extensions/dollchan/src/com/mishiranu/dashchan/chan/dollchan/DollchanPostsParser.java:170-188 | the thumbnail is set only for a src containing `/thumb/`, the spoiler only for one containing the spoiler icon; the pending attachment is then committed; it throws when such a src finds nothing pending or there is no post |
| Dollchan.DollchanPostsParser.OnThumbVideoOpen | extensions/dollchan/src/com/mishiranu/dashchan/chan/dollchan/DollchanPostsParser.java:189-198 | the pending attachment, even a null one, is committed to the list and the post, and the slot is cleared |
| Dollchan.DollchanPostsParser.OnNoThumbOpen | extensions/dollchan/src/com/mishiranu/dashchan/chan/dollchan/DollchanPostsParser.java:199-211 | commits the pending attachment only when its size, width or height is positive, and clears the slot either way; nothing pending throws |
| Dollchan.DollchanPostsParser.OnSubjectText | extensions/dollchan/src/com/mishiranu/dashchan/chan/dollchan/DollchanPostsParser.java:212-215 | the post's subject is the trimmed markup-free text, null when empty |
| Dollchan.DollchanPostsParser.OnCountryIconOpen | extensions/dollchan/src/com/mishiranu/dashchan/chan/dollchan/DollchanPostsParser.java:216-225 | with both a title and a src the post's icons become that one flag; otherwise nothing changes |
| Dollchan.DollchanPostsParser.OnPosterUidText | extensions/dollchan/src/com/mishiranu/dashchan/chan/dollchan/DollchanPostsParser.java:226-230 | the post's identifier is the markup-free text |
| Dollchan.DollchanPostsParser.OnPosterNameText | extensions/dollchan/src/com/mishiranu/dashchan/chan/dollchan/DollchanPostsParser.java:231-238 | the raw text becomes the name, or is appended after a space to a name already set |
| Dollchan.DollchanPostsParser.OnAdminNameText | extensions/dollchan/src/com/mishiranu/dashchan/chan/dollchan/DollchanPostsParser.java:239-242 | the post's capcode is the markup-free text |
| Dollchan.DollchanPostsParser.OnTripcodeText | extensions/dollchan/src/com/mishiranu/dashchan/chan/dollchan/DollchanPostsParser.java:243-245 | the tripcode is the trimmed markup-free text, null when empty |
| Dollchan.DollchanPostsParser.OnPostDateOpen | extensions/dollchan/src/com/mishiranu/dashchan/chan/dollchan/DollchanPostsParser.java:246-258 | a data-timestamp that parses as a long becomes seconds × 1000 in long arithmetic; a missing or malformed one changes nothing and does not throw; the content is captured |
| Dollchan.DollchanPostsParser.OnMessageText | extensions/dollchan/src/com/mishiranu/dashchan/chan/dollchan/DollchanPostsParser.java:259-269 | the post, with the cut comment, is appended to the posts and the slot is cleared; no post throws |
| Dollchan.DollchanPostsParser.OnOmittedPostsText | extensions/dollchan/src/com/mishiranu/dashchan/chan/dollchan/DollchanPostsParser.java:270-278 | in thread mode the first number in the text is added to the open thread's post count; no number changes nothing; an out-of-range number or no thread throws |
| Dollchan.DollchanPostsParser.StoreBoardTitle | extensions/dollchan/src/com/mishiranu/dashchan/chan/dollchan/DollchanPostsParser.java:373-377 | a board title is written exactly when it is not empty |
| Dollchan.DollchanPostsParser.OnLogoText | extensions/dollchan/src/com/mishiranu/dashchan/chan/dollchan/DollchanPostsParser.java:279-280 | the trimmed markup-free logo text is stored as board title when not empty |
| Dollchan.DollchanPostsParser.OnPageLinkText | extensions/dollchan/src/com/mishiranu/dashchan/chan/dollchan/DollchanPostsParser.java:281-296 | the page count and the stored count change only together and only upward; as written neither ever changes |
| Dollchan.DollchanPostsParser.OnLabelOpen | extensions/dollchan/src/com/mishiranu/dashchan/chan/dollchan/DollchanPostsParser.java:297-303 | header handling turns on exactly when there is a current post, and is otherwise kept |
| Dollchan.DollchanPostsParser.OnReflinkSpanOpen | extensions/dollchan/src/com/mishiranu/dashchan/chan/dollchan/DollchanPostsParser.java:304-308 | the next link is a reflink |
| Dollchan.DollchanPostsParser.OnReflinkAnchorOpen | extensions/dollchan/src/com/mishiranu/dashchan/chan/dollchan/DollchanPostsParser.java:309-322 | the reflink state is consumed; a parentless post takes the link's thread number as parent when there is one and it is not its own number; a missing href on that path throws |
| Dollchan.DollchanPostsParser.OnStickyIconOpen | extensions/dollchan/src/com/mishiranu/dashchan/chan/dollchan/DollchanPostsParser.java:323-329 | the current post, if any, becomes sticky |
| Dollchan.DollchanPostsParser.OnEndlessIconOpen | extensions/dollchan/src/com/mishiranu/dashchan/chan/dollchan/DollchanPostsParser.java:330-336 | the current post, if any, becomes cyclical |
| Dollchan.DollchanPostsParser.SetNameEmail | extensions/dollchan/src/com/mishiranu/dashchan/chan/dollchan/DollchanPostsParser.java:362-371 | an e-mail mentioning "sage" in any case marks the post sage and is not stored, any other e-mail is stored, and the name is the trimmed markup-free text or null |
| Dollchan.DollchanPostsParser.Handle | extensions/dollchan/src/com/mishiranu/dashchan/chan/dollchan/DollchanPostsParser.java:80-337 | any handler keeps the holder invariant and the progress relation: mode kept, completed threads and posts never altered, page count fixed, only board titles written, header handling never switched off |
| Dollchan.DollchanPostsParser.Parse | extensions/dollchan/src/com/mishiranu/dashchan/chan/dollchan/DollchanPostsParser.java:66-69 | a whole event sequence keeps the invariant and the progress relation |
| Dollchan.DollchanPostsParser.ConvertThreads | extensions/dollchan/src/com/mishiranu/dashchan/chan/dollchan/DollchanPostsParser.java:340-349 | thread mode; after the final flush the result is the threads, or null exactly when there are none; each counts at least its posts; the last is the flushed open thread |
| Dollchan.DollchanPostsParser.ConvertPosts | extensions/dollchan/src/com/mishiranu/dashchan/chan/dollchan/DollchanPostsParser.java:351-358 | the result is the posts, or null exactly when there are none; in posts mode earlier posts are kept |
| Erlach.ThumbnailPath | extensions/erlach/src/com/mishiranu/dashchan/chan/erlach/ErlachPostsParser.java:93-96 | defined exactly for a path of at least four characters; the path minus its last four characters followed by `-R256.jpg` |
| Erlach.ThumbnailOfExtension | extensions/erlach/src/com/mishiranu/dashchan/chan/erlach/ErlachPostsParser.java:95-96 | a path ending in a four-character extension gets its thumbnail beside it |
| Erlach.Flush | extensions/erlach/src/com/mishiranu/dashchan/chan/erlach/ErlachPostsParser.java:39-40 | the flushed thread holds the posts and counts exactly one more post, whatever their number |
| Erlach.AddCount | extensions/erlach/src/com/mishiranu/dashchan/chan/erlach/ErlachPostsParser.java:143-147 | the count goes to the file count for the image label and to the post count otherwise, the other counter and the posts unchanged |
| Erlach.ErlachPostsParser.constructor | extensions/erlach/src/com/mishiranu/dashchan/chan/erlach/ErlachPostsParser.java:20-35 | a fresh holder: every slot empty, posts mode |
| Erlach.ErlachPostsParser.MessageComment | extensions/erlach/src/com/mishiranu/dashchan/chan/erlach/ErlachPostsParser.java:116-124 | every quote opener of the stored comment follows a `<br>`, and the quote rewrite leaves the comment as it is |
| Erlach.ErlachPostsParser.ImageAttachment | extensions/erlach/src/com/mishiranu/dashchan/chan/erlach/ErlachPostsParser.java:92-96 | a fresh attachment whose file is the src and whose thumbnail is the derived path, nothing else set |
| Erlach.ErlachPostsParser.CloseThread | extensions/erlach/src/com/mishiranu/dashchan/chan/erlach/ErlachPostsParser.java:37-44 | no open thread: nothing changes; otherwise the thread takes the posts, counts one more and is appended, and the posts are emptied; in posts mode that throws |
| Erlach.ErlachPostsParser.OnContentTitleText | extensions/erlach/src/com/mishiranu/dashchan/chan/erlach/ErlachPostsParser.java:60-66 | in posts mode a new post with the trimmed markup-free subject; in thread mode nothing changes |
| Erlach.ErlachPostsParser.OnDataIdOpen | extensions/erlach/src/com/mishiranu/dashchan/chan/erlach/ErlachPostsParser.java:67-81 | the post (created if absent) is numbered by the decimal id and is sage exactly when the class contains "sage"; a "head" class makes the id the parent, any other gives the post the current parent |
| Erlach.ErlachPostsParser.OnPostTopicText | extensions/erlach/src/com/mishiranu/dashchan/chan/erlach/ErlachPostsParser.java:82-83 | the post's subject is the trimmed markup-free text; no post throws |
| Erlach.ErlachPostsParser.OnDataTsOpen | extensions/erlach/src/com/mishiranu/dashchan/chan/erlach/ErlachPostsParser.java:84-88 | data-ts read strictly as a long is the timestamp as is; a missing post, a missing value or a malformed one throws |
| Erlach.ErlachPostsParser.OnMediaImageOpen | extensions/erlach/src/com/mishiranu/dashchan/chan/erlach/ErlachPostsParser.java:89-100 | with a post, the image attachment for src becomes the holder's attachment and the post's only attachment; a src shorter than four characters throws; without a post nothing changes |
| Erlach.ErlachPostsParser.OnCanvasOpen | extensions/erlach/src/com/mishiranu/dashchan/chan/erlach/ErlachPostsParser.java:101-108 | with an attachment, width and height read strictly become its size, seen by the post while it shares it; a missing or malformed one throws |
| Erlach.ErlachPostsParser.OnPostMessageText | extensions/erlach/src/com/mishiranu/dashchan/chan/erlach/ErlachPostsParser.java:113-129 | with a post, the post with the rewritten comment is appended and the post and attachment slots are cleared; without one nothing changes |
| Erlach.ErlachPostsParser.OnPostHeaderOpen | extensions/erlach/src/com/mishiranu/dashchan/chan/erlach/ErlachPostsParser.java:130-137 | the open thread is flushed and a new one opened; the post loses its parent and its number becomes the parent; no post (or a flush in posts mode) throws |
| Erlach.ErlachPostsParser.OnInfoCountText | extensions/erlach/src/com/mishiranu/dashchan/chan/erlach/ErlachPostsParser.java:138-149 | the first number goes to the file count when the text has the image label, else to the post count; no number changes nothing; an out-of-range number or no thread throws |
| Erlach.ErlachPostsParser.Handle | extensions/erlach/src/com/mishiranu/dashchan/chan/erlach/ErlachPostsParser.java:58-150 | any handler keeps the holder invariant and the progress relation |
| Erlach.ErlachPostsParser.Parse | extensions/erlach/src/com/mishiranu/dashchan/chan/erlach/ErlachPostsParser.java:48 | a whole event sequence keeps the invariant and the progress relation |
| Erlach.ErlachPostsParser.ConvertThreads | extensions/erlach/src/com/mishiranu/dashchan/chan/erlach/ErlachPostsParser.java:46-51 | thread mode; the result is the threads after the final flush, never null, each counting at least one post |
| Erlach.ErlachPostsParser.ConvertPosts | extensions/erlach/src/com/mishiranu/dashchan/chan/erlach/ErlachPostsParser.java:53-56 | the result is the posts, never null; in posts mode earlier posts are kept |
| ErlachQuote.MatchesTo | extensions/erlach/src/com/mishiranu/dashchan/chan/erlach/ErlachPostsParser.java:30 | the marks for a prefix: one per character, set exactly where an opener starts that `<br>` does not end just before |
| ErlachQuote.Matches | extensions/erlach/src/com/mishiranu/dashchan/chan/erlach/ErlachPostsParser.java:30 | the match positions of the pattern on the original text: a position is marked exactly when an opener starts there and `<br>` does not end just before it |
| ErlachQuote.EmitPrefix | extensions/erlach/src/com/mishiranu/dashchan/chan/erlach/ErlachPostsParser.java:123 | the copy of a shorter prefix of the input is a prefix of the copy of a longer one |
| ErlachQuote.EmitIdentity | extensions/erlach/src/com/mishiranu/dashchan/chan/erlach/ErlachPostsParser.java:123 | with nothing marked, the copy of the first n characters is those characters |
| ErlachQuote.BrokenKept | extensions/erlach/src/com/mishiranu/dashchan/chan/erlach/ErlachPostsParser.java:123 | when every opener already follows the break, the copy with the computed marks is the input |
| ErlachQuote.InsertBreaks | extensions/erlach/src/com/mishiranu/dashchan/chan/erlach/ErlachPostsParser.java:123 | replaceAll of the generic pattern: never shorter than the input, and the input itself when every opener already follows the break |
| ErlachQuote.InsertQuoteBreaks | extensions/erlach/src/com/mishiranu/dashchan/chan/erlach/ErlachPostsParser.java:123 | after the rewrite every quote opener of the result follows a `<br>` |
| ErlachQuote.AlreadyBrokenUnchanged | extensions/erlach/src/com/mishiranu/dashchan/chan/erlach/ErlachPostsParser.java:123 | text whose quote openers all follow a `<br>` is unchanged |
| ErlachQuote.InsertQuoteBreaksIdempotent | extensions/erlach/src/com/mishiranu/dashchan/chan/erlach/ErlachPostsParser.java:123 | applying the rewrite twice is applying it once |
| ErlachQuote.NoQuotesUnchanged | extensions/erlach/src/com/mishiranu/dashchan/chan/erlach/ErlachPostsParser.java:123 | text without a quote opener is unchanged |
| ErlachQuote.UnbrokenQuoteGetsBreak | extensions/erlach/src/com/mishiranu/dashchan/chan/erlach/ErlachPostsParser.java:123 | an unbroken quote opener of the input gets exactly one `<br>` spliced in before it |
| ErlachQuote.QuoteKeptAfterBreak | extensions/erlach/src/com/mishiranu/dashchan/chan/erlach/ErlachPostsParser.java:123 | every quote opener of the input reappears in the whole output where its first character lands, right after a `<br>` (inserted or original) |
| JavaText.FirstNumber | extensions/erlach/src/com/mishiranu/dashchan/chan/erlach/ErlachPostsParser.java:141-142 | `\d+` with find: none exactly when the text has no digit; otherwise the maximal digit run at the first digit |
| JavaText.FirstNumberNonNegative | extensions/erlach/src/com/mishiranu/dashchan/chan/erlach/ErlachPostsParser.java:144-146 | a count read that way is never negative |
| JavaText.ParseDecimal | extensions/erlach/src/com/mishiranu/dashchan/chan/erlach/ErlachPostsParser.java:104-105 | a parsed number is in the type's range and comes from an optional sign and digits only; a negative one has a minus |
| JavaText.ParseDecimalRoundTrip | extensions/dollchan/src/com/mishiranu/dashchan/chan/dollchan/DollchanPostsParser.java:136 | parsing the decimal form of an in-range number gives it back |
| JavaText.ParseDecimalSigned | extensions/dollchan/src/com/mishiranu/dashchan/chan/dollchan/DollchanPostsParser.java:136 | an optional sign and digits parse to their signed value when it is in range and fail otherwise |
| JavaText.ParseInt | extensions/dollchan/src/com/mishiranu/dashchan/chan/dollchan/DollchanPostsParser.java:136 | Integer.parseInt: a parsed value is a Java int |
| JavaText.ParseLong | extensions/dollchan/src/com/mishiranu/dashchan/chan/dollchan/DollchanPostsParser.java:252 | Long.parseLong: a parsed value is a Java long |
| JavaText.ParseIntOrNull | extensions/erlach/src/com/mishiranu/dashchan/chan/erlach/ErlachPostsParser.java:104-105 | parseInt of null throws; a parsed value is a Java int |
| JavaText.IndexOfFrom | extensions/dollchan/src/com/mishiranu/dashchan/chan/dollchan/DollchanPostsParser.java:174 | -1 or an occurrence at or after the start, with no occurrence between the start and it |
| JavaText.Contains | extensions/dollchan/src/com/mishiranu/dashchan/chan/dollchan/DollchanPostsParser.java:174 | true exactly when the text occurs somewhere |
| JavaText.Trim | extensions/dollchan/src/com/mishiranu/dashchan/chan/dollchan/DollchanPostsParser.java:261 | the result is the text without a blank prefix and suffix, and starts and ends with a non-blank |
| JavaText.TrimIdempotent | extensions/dollchan/src/com/mishiranu/dashchan/chan/dollchan/DollchanPostsParser.java:264 | trimming twice is trimming once |
| JavaText.LastIndexOf | extensions/dollchan/src/com/mishiranu/dashchan/chan/dollchan/DollchanPostsParser.java:262 | -1 or an occurrence, with no occurrence after it |
| JavaText.WrapLong | extensions/dollchan/src/com/mishiranu/dashchan/chan/dollchan/DollchanPostsParser.java:252 | the long result is in range, congruent to the exact one modulo 2^64, and equal to it when it fits |
| JavaText.WrapInt | extensions/dollchan/src/com/mishiranu/dashchan/chan/dollchan/DollchanPostsParser.java:286 | the int result is in range, congruent to the exact one modulo 2^32, and equal to it when it fits |
| JavaText.ToLowerAscii | extensions/dollchan/src/com/mishiranu/dashchan/chan/dollchan/DollchanPostsParser.java:364 | same length, each letter lowered |
| ChanConfig.GetBool | extensions/fourchan/src/com/mishiranu/dashchan/chan/fourchan/FourchanChanConfiguration.java:57-58 | a stored boolean reads back; an unset key or a value of another type reads as the default |
| ChanConfig.GetInt | extensions/fourchan/src/com/mishiranu/dashchan/chan/fourchan/FourchanChanConfiguration.java:53 | a stored int reads back; an unset key or a value of another type reads as the default |
| ChanConfig.GetString | extensions/fourchan/src/com/mishiranu/dashchan/chan/fourchan/FourchanChanConfiguration.java:40 | a stored string reads back; an unset key or a value of another type reads as the default |
| ChanConfig.SetThenGet | extensions/fourchan/src/com/mishiranu/dashchan/chan/fourchan/FourchanChanConfiguration.java:125-140 | a value set under a key reads back through the get of its type, whatever the default, and every other key reads as before |
| Fourchan.KeysDistinct | extensions/fourchan/src/com/mishiranu/dashchan/chan/fourchan/FourchanChanConfiguration.java:15-20 | the six setting keys are different strings |
| Fourchan.ObtainBoardConfiguration | extensions/fourchan/src/com/mishiranu/dashchan/chan/fourchan/FourchanChanConfiguration.java:32-42 | catalog, search, archive, posting and deleting always allowed; reporting exactly when the stored report reasons are non-empty |
| Fourchan.ObtainPostingConfiguration | extensions/fourchan/src/com/mishiranu/dashchan/chan/fourchan/FourchanChanConfiguration.java:44-60 | name and tripcode allowed exactly off "b" and "soc"; subject exactly for a new thread there; e-mail and sage always; comment length, spoiler and flags as stored with defaults 2000, false, false; one attachment of `image/*` or `video/webm` |
| Fourchan.IsTagSupported | extensions/fourchan/src/com/mishiranu/dashchan/chan/fourchan/FourchanChanConfiguration.java:101-109 | only the spoiler and code tags can be supported, each exactly as its stored flag says |
| Fourchan.IsSafeForWork | extensions/fourchan/src/com/mishiranu/dashchan/chan/fourchan/FourchanChanConfiguration.java:115-117 | a board is safe for work exactly when a true mark is stored for it |
| Fourchan.Defaults | extensions/fourchan/src/com/mishiranu/dashchan/chan/fourchan/FourchanChanConfiguration.java:40-58 | with nothing stored: no reporting, 2000 characters, no spoilers, no flags, no tags, not safe for work |
| Fourchan.Processed | extensions/fourchan/src/com/mishiranu/dashchan/chan/fourchan/FourchanChanConfiguration.java:122-144 | the boards written are exactly those before the first decoding error |
| Fourchan.ApplyEntry | extensions/fourchan/src/com/mishiranu/dashchan/chan/fourchan/FourchanChanConfiguration.java:131-140 | one board entry never removes a setting, changes only its own board, and never touches report reasons |
| Fourchan.ApplyBumpLimit | extensions/fourchan/src/com/mishiranu/dashchan/chan/fourchan/FourchanChanConfiguration.java:134-136 | a zero bump limit leaves the limits as they were; a non-zero one is stored for the entry's board; no other board changes |
| Fourchan.ApplyEntries | extensions/fourchan/src/com/mishiranu/dashchan/chan/fourchan/FourchanChanConfiguration.java:122-141 | writing entries in order never removes a setting and touches neither site-wide settings nor report reasons |
| Fourchan.ApplyBumpLimits | extensions/fourchan/src/com/mishiranu/dashchan/chan/fourchan/FourchanChanConfiguration.java:122-141 | writing bump limits in order never removes one, and any limit that changes becomes non-zero |
| Fourchan.EntryStored | extensions/fourchan/src/com/mishiranu/dashchan/chan/fourchan/FourchanChanConfiguration.java:131-140 | after one board entry its four flags are stored as field ≠ 0, its comment length when positive and the old one otherwise, and its report reasons are untouched |
| Fourchan.EntryReflected | extensions/fourchan/src/com/mishiranu/dashchan/chan/fourchan/FourchanChanConfiguration.java:125-140 | after one board entry, isTagSupported, the posting configuration and isSafeForWork report its fields, and the board configuration is as before |
| Fourchan.OtherBoardUntouched | extensions/fourchan/src/com/mishiranu/dashchan/chan/fourchan/FourchanChanConfiguration.java:131-140 | an entry changes nothing read about any other board |
| Fourchan.UnnamedBoardUntouched | extensions/fourchan/src/com/mishiranu/dashchan/chan/fourchan/FourchanChanConfiguration.java:122-141 | a board no written entry names reads as before the update |
| Fourchan.LastEntryWins | extensions/fourchan/src/com/mishiranu/dashchan/chan/fourchan/FourchanChanConfiguration.java:122-141 | the last entry for a board decides its spoiler, code, flag and safe-for-work reads |
| Fourchan.ApplyEntriesSplit | extensions/fourchan/src/com/mishiranu/dashchan/chan/fourchan/FourchanChanConfiguration.java:122-141 | writing two runs of entries is writing the first and then the second |
| Fourchan.BumpLimitOnlyNonZero | extensions/fourchan/src/com/mishiranu/dashchan/chan/fourchan/FourchanChanConfiguration.java:134-136 | a board's bump limit changes only through an entry with a non-zero one |
| Fourchan.ErrorEndsUpdate | extensions/fourchan/src/com/mishiranu/dashchan/chan/fourchan/FourchanChanConfiguration.java:142-144 | nothing after a decoding error is written |
| Fourchan.ReportingReflected | extensions/fourchan/src/com/mishiranu/dashchan/chan/fourchan/FourchanChanConfiguration.java:147-149 | after storing report reasons the board is reportable exactly when they are non-empty |
| Fourchan.FourchanChanConfiguration.UpdateFromBoardsJson | extensions/fourchan/src/com/mishiranu/dashchan/chan/fourchan/FourchanChanConfiguration.java:119-145 | the store and the bump limits are those of the entries before the first error written in order |
| Fourchan.FourchanChanConfiguration.StoreEntry | extensions/fourchan/src/com/mishiranu/dashchan/chan/fourchan/FourchanChanConfiguration.java:125-140 | one loop step writes exactly the entry's settings and its bump limit |
| Fourchan.FourchanChanConfiguration.UpdateReportingConfiguration | extensions/fourchan/src/com/mishiranu/dashchan/chan/fourchan/FourchanChanConfiguration.java:147-149 | the board's report reasons are set, nothing else changes |
| Sojakparty.ObtainBoardConfiguration | extensions/sojakparty/src/com/mishiranu/dashchan/chan/sojakparty/SojakpartyChanConfiguration.java:18-26 | catalog, posting, deleting and reporting allowed, search and archive not |
| Sojakparty.ObtainPostingConfiguration | extensions/sojakparty/src/com/mishiranu/dashchan/chan/sojakparty/SojakpartyChanConfiguration.java:28-45 | name, tripcode, e-mail and sage are equal and false exactly for "layer"; subject and spoilers always; four attachments of pdf, audio, image, webm, mp4 in that order; no flags |
| Sojakparty.PostingUniform | extensions/sojakparty/src/com/mishiranu/dashchan/chan/sojakparty/SojakpartyChanConfiguration.java:29-44 | off "layer" the posting rules depend neither on the board nor on newThread |
| Sojakparty.BoardUniform | extensions/sojakparty/src/com/mishiranu/dashchan/chan/sojakparty/SojakpartyChanConfiguration.java:19-25 | the board capabilities do not depend on the board name |
| Sojakparty.ObtainCustomCaptchaConfiguration | extensions/sojakparty/src/com/mishiranu/dashchan/chan/sojakparty/SojakpartyChanConfiguration.java:64-81 | non-null exactly for "None", then titled "None" with any input and valid in the board |
| Sojakparty.ObtainCustomPreferenceConfiguration | extensions/sojakparty/src/com/mishiranu/dashchan/chan/sojakparty/SojakpartyChanConfiguration.java:83-86 | null for every key |
| Vichan.IsTagSupported | engines/vichan/src/chan/content/VichanChanMarkup.java:29-32 | supported exactly when the tag has no bit outside bold, italic, spoiler and quote |
| Vichan.SupportedTags | engines/vichan/src/chan/content/VichanChanMarkup.java:12 | the four tags and their union are supported |
| Vichan.SupportedClosed | engines/vichan/src/chan/content/VichanChanMarkup.java:30-32 | unions and parts of supported tags are supported |
| Vichan.ForeignBitUnsupported | engines/vichan/src/chan/content/VichanChanMarkup.java:30-32 | a tag with any other bit is unsupported, whatever it is combined with |
| Vichan.DotsEnd | engines/vichan/src/chan/content/VichanChanMarkup.java:34 | `.*` reaches up to the next line terminator or the end |
| Vichan.FragmentDigits | engines/vichan/src/chan/content/VichanChanMarkup.java:34 | a fragment found has digits and ends where `$` matches |
| Vichan.Tail | engines/vichan/src/chan/content/VichanChanMarkup.java:34 | a tail found is `#digits` or nothing, followed by `$` |
| Vichan.DotsThenHtml | engines/vichan/src/chan/content/VichanChanMarkup.java:34 | what `.*\.html` and the tail find lies in reach and is `.html` followed by a tail |
| Vichan.MatchFrom | engines/vichan/src/chan/content/VichanChanMarkup.java:34 | a match found at a start is a match of the whole pattern there |
| Vichan.Find | engines/vichan/src/chan/content/VichanChanMarkup.java:38-39 | a match found by find is a match at or after the start |
| Vichan.ObtainPostLinkThreadPostNumbers | engines/vichan/src/chan/content/VichanChanMarkup.java:36-43 | the thread number is a non-empty digit string, and so is the post number when present |
| Vichan.LinkFound | engines/vichan/src/chan/content/VichanChanMarkup.java:36-43 | whenever the link has a digit run followed on its line by `.html` (and optionally `#digits`) at the end, numbers are returned |
| Vichan.LinkShape | engines/vichan/src/chan/content/VichanChanMarkup.java:38-40 | what is returned comes from the leftmost match: the thread number is a whole digit run and the post number is the fragment or null |
| Vichan.FoundLeftmost | engines/vichan/src/chan/content/VichanChanMarkup.java:39 | no match starts before the one find returns |
| Vichan.FoundAfterNonDigit | engines/vichan/src/chan/content/VichanChanMarkup.java:34-39 | the match found does not start inside a digit run |
| Vichan.FoundWholeRun | engines/vichan/src/chan/content/VichanChanMarkup.java:34-39 | group 1 is the whole digit run at the match start |
| Vichan.ShorterRunFails | engines/vichan/src/chan/content/VichanChanMarkup.java:34 | when the full run fails, giving back digits fails too |
| Vichan.AtEndUnique | engines/vichan/src/chan/content/VichanChanMarkup.java:34 | `$` after a non-terminator matches at one place only |
| Vichan.FragmentOfMatch | engines/vichan/src/chan/content/VichanChanMarkup.java:34 | a match in a text ending in `.html#N` has N as its fragment |
| Vichan.NoFragmentInMatch | engines/vichan/src/chan/content/VichanChanMarkup.java:34 | a match in a text ending in `.html` has no fragment |
| Vichan.FragmentNamesPost | engines/vichan/src/chan/content/VichanChanMarkup.java:40 | a link ending in `.html#N` names post N |
| Vichan.NoFragmentNoPost | engines/vichan/src/chan/content/VichanChanMarkup.java:40 | a link ending in `.html` names no post |

## Left out

- The rule engine (`chan.text.TemplateParser`): tokenizing, matching tags to rules, and which of several matching rules fire. It is not part of this model. A parse is a given sequence of handler events, and the `capture` results handlers return are not fed back into it.
- `FoolFuukaChanPerformer`: HTTP plumbing outside the modelled core.
- Android `Uri` and the locator calls (`buildPath`, `getThreadNumber`, `convertToDecimalNumber`, `getFileUri`/`setFileUri`): uninterpreted function parameters of the holders. `getFileUri(...) == null` is read as "no file address set".
- `StringUtils.clearHtml`: an uninterpreted function parameter.
- Erlach.ErlachPostsParser.MessageComment: the two link rewrites `POST_REFERENCE` and `POST_LINK_WITH_ID` (ErlachPostsParser.java:27-29, :117-121) are one uninterpreted function parameter. Only the quote rewrite is modelled.
- `DATE_FORMAT`, `FILE_SIZE` and the `updateConfiguration` hook of Dollchan: unused or empty.
- The JSON library. `updateFromBoardsJson` takes the already-decoded board records. `optInt` gives 0 for a missing number, and a `None` record stands for a `JSONException` at that board. A missing `boards` array is the same as an error at the first board.
- `ReportReason.parse`/`serialize`: `updateReportingConfiguration` takes the serialized string.
- 4chan's `obtainDeletingConfiguration`, `obtainReportingConfiguration`, `obtainCaptchaPassConfiguration`, `obtainCustomPreferenceConfiguration` and `isMathTagsHandlingEnabled`, and Sojakparty's `obtainDeletingConfiguration` and `obtainReportingConfiguration`: constant records, or reads through `Resources` or `ReportReason`. They are outside the modelled core.
- The configuration constructors' registrations (`request`, `setDefaultName`, `setBumpLimit(300)`, `addCaptchaType`, `addCustomPreference`), and the `VichanChanMarkup` constructor and `obtainCommentEditor`: foreign setup.
- The persistence behind the configuration `get`/`set`/`storeBumpLimit`/`storePagesCount`/`storeBoardTitle` calls. It is an in-memory map, or a list of writes for the Dollchan holder.
- `ChanMarkup` tag values: the class is not part of this model. The `TAG_*` constants are distinct single bits, which is all the proofs rely on.
- Posts counters are unbounded integers: `addPostsCount` overflow past 2^31 is not modelled.
- Partial updates before an exception (an attachment list already extended when `post.setAttachments` then throws, a width set before the height fails): the parse is aborted, and the model leaves the holder as it was.
- `Post.setAttachments` and `Posts.setPosts` are taken to copy the list they are given (chan.content.model is not part of this model). Later changes to the holder's lists are therefore not seen by the post or thread.
- JavaText.ParseDecimal: accepts ASCII digits only. Java's Integer.parseInt and Long.parseLong read each digit with Character.digit, which also accepts other Unicode decimal digits (full-width, Arabic-Indic and the like). The model answers NumberFormatException for those, and the four handlers that parse attribute numbers follow that. The exact set of such digits depends on the Unicode version of the runtime.
- JavaText: a `string` here has one position per Unicode character, where Java counts UTF-16 units. On text with characters outside the Basic Multilingual Plane, Java's indices and lengths differ from the model's. Examples are `substring(5)` in the reply-cell handler, the `length() - 4` of the Erlach thumbnail path, and lastIndexOf.
- `new Posts()` is taken to start with both counters at zero (chan.content.model is not part of this model).
- Java's `\d` in the patterns is ASCII digits only, as in Java without `UNICODE_CHARACTER_CLASS`. `String.toLowerCase` is modelled for ASCII letters only.
