/** The Erlach posts parser (ErlachPostsParser.java): the holder the rule handlers update
    while the page's tags go by, and the two convert calls.

    As for the other parsers, the rule engine is not part of this model: a parse is a
    sequence of events, and a handler whose Java code would throw returns ok == false,
    which ends the parse with the holder left as it was.

    The image handler stores the very FileAttachment object it keeps in the holder into
    the post, and the canvas handler later sets that object's size. The model keeps both
    copies as values and records the sharing in `attachmentInPost`: while it holds, the
    canvas handler updates the post's copy as well. */
module Erlach {
  import opened Wrappers
  import opened JavaText
  import opened ChanModel
  import opened ErlachQuote

  const HEAD: string := "head"
  const SAGE: string := "sage"
  const THUMB_SUFFIX: string := "-R256.jpg"
  /** The label that tells the image count from the post count. */
  const IMAGES_LABEL: string := "<span class=\"en\">I: </span>"

  // ------------------------------------------------------------ pure pieces of the handlers

  /** The `data-id` block of the thread's opening post carries "head" in its class. */
  predicate IsHead(attributes: Attributes) {
    Contains(EmptyIfNull(Attr(attributes, "class")), HEAD)
  }

  predicate IsSage(attributes: Attributes) {
    Contains(EmptyIfNull(Attr(attributes, "class")), SAGE)
  }

  /** The thumbnail of an image: its path with the last four characters (the extension)
      replaced by "-R256.jpg". A path shorter than four characters makes substring throw. */
  function ThumbnailPath(src: string): (r: Option<string>)
    ensures r.Some? <==> |src| >= 4
    ensures r.Some? ==> |r.value| == |src| + 5 && EndsWith(r.value, THUMB_SUFFIX)
    ensures r.Some? ==> StartsWith(src, r.value[..|src| - 4])
  {
    if |src| < 4 then None else Some(src[..|src| - 4] + THUMB_SUFFIX)
  }

  /** An image path with a four-character extension gets its thumbnail next to it. */
  lemma ThumbnailOfExtension(base: string, extension: string)
    requires |extension| == 4
    ensures ThumbnailPath(base + extension) == Some(base + THUMB_SUFFIX)
  {
    assert (base + extension)[..|base|] == base;
  }

  /** What closeThread leaves in the thread: the holder's posts, and one more post counted
      (the opening post, which the page's counters leave out). */
  function Flush(thread: Posts, posts: seq<Post>): (t: Posts)
    ensures t.posts == posts && t.postsCount == thread.postsCount + 1
    ensures t.postsWithFilesCount == thread.postsWithFilesCount
  {
    thread.(posts := posts, postsCount := thread.postsCount + 1)
  }

  /** The image count carries its label; the post count does not. */
  predicate CountsImages(text: string) {
    Contains(text, IMAGES_LABEL)
  }

  /** A count added to the thread: to its posts with files, or to its posts. */
  function AddCount(thread: Posts, images: bool, count: int): (t: Posts)
    ensures t.posts == thread.posts
    ensures t.postsCount + t.postsWithFilesCount == thread.postsCount + thread.postsWithFilesCount + count
    ensures images ==> t.postsCount == thread.postsCount
    ensures !images ==> t.postsWithFilesCount == thread.postsWithFilesCount
  {
    if images then thread.(postsWithFilesCount := thread.postsWithFilesCount + count)
    else thread.(postsCount := thread.postsCount + count)
  }

  /** One handler firing, as decided by the rule engine. */
  datatype Event =
    | ContentTitleText(text: string)           // div class="content-title"
    | DataIdOpen(attributes: Attributes)       // div data-id
    | PostTopicText(text: string)              // a class="post-topic"
    | DataTsOpen(attributes: Attributes)       // div data-ts
    | MediaImageOpen(attributes: Attributes)   // img class*="media image"
    | CanvasOpen(attributes: Attributes)       // canvas
    | OmittedText(text: string)                // div class="omitted"
    | PostMessageText(text: string)            // div class="post-message"
    | PostHeaderOpen                           // div class="post-header"
    | InfoCountText(text: string)              // span class*="info-posts-count" / "info-images-count"

  class ErlachPostsParser {
    /** Uri.parse followed by the locator's conversion in setFileUri / setThumbnailUri. */
    const uriOf: string -> Uri
    /** locator.convertToDecimalNumber */
    const decimalNumber: Option<string> -> Option<string>
    /** StringUtils.clearHtml */
    const clearHtml: string -> string
    /** The two link rewrites (POST_REFERENCE, then POST_LINK_WITH_ID) of a message. */
    const fixLinks: string -> string

    var parent: Option<string>
    var thread: Option<Posts>
    var post: Option<Post>
    var attachment: Option<FileAttachment>
    /** The current post's attachment list is the holder's attachment, shared. */
    var attachmentInPost: bool
    /** None until convertThreads runs: None is posts mode, Some is thread mode. */
    var threads: Option<seq<Posts>>
    var posts: seq<Post>

    /** The shared attachment is the post's only attachment, an attachment belongs to a
        post, and the counters never go below zero (completed threads count at least
        their opening post). */
    ghost predicate Valid()
      reads this
    {
      && (attachment.Some? ==> post.Some?)
      && (attachmentInPost ==> attachment.Some? && post.Some? && post.value.attachments == [attachment])
      && (thread.Some? ==> thread.value.postsCount >= 0 && thread.value.postsWithFilesCount >= 0)
      && (threads.Some? ==>
           forall t :: t in threads.value ==> t.postsCount >= 1 && t.postsWithFilesCount >= 0)
    }

    /** What a parse may do to the holder: the mode stays, completed threads are never
        altered, and in posts mode completed posts are never altered. */
    ghost predicate Progress(threads0: Option<seq<Posts>>, posts0: seq<Post>)
      reads this
    {
      && threads.Some? == threads0.Some?
      && (threads0.Some? ==> threads0.value <= threads.value)
      && (threads0.None? ==> posts0 <= posts)
    }

    constructor (uriOf: string -> Uri, decimalNumber: Option<string> -> Option<string>,
                 clearHtml: string -> string, fixLinks: string -> string)
      ensures Valid()
      ensures this.uriOf == uriOf && this.decimalNumber == decimalNumber
      ensures this.clearHtml == clearHtml && this.fixLinks == fixLinks
      ensures parent.None? && thread.None? && post.None? && attachment.None? && !attachmentInPost
      ensures threads.None? && posts == []
    {
      this.uriOf := uriOf;
      this.decimalNumber := decimalNumber;
      this.clearHtml := clearHtml;
      this.fixLinks := fixLinks;
      parent, thread, post, attachment, attachmentInPost := None, None, None, None, false;
      threads, posts := None, [];
    }

    /** The comment stored for a message: links fixed, then every quote that does not
        already follow a `<br>` moved to a new line. */
    function MessageComment(text: string): (r: string)
      ensures forall j :: OccursAt(r, CITATE, j) ==> BreakBefore(r, BR, j)
      ensures InsertQuoteBreaks(r) == r
    {
      InsertQuoteBreaksIdempotent(fixLinks(text));
      InsertQuoteBreaks(fixLinks(text))
    }

    /** The image attachment for a path of at least four characters. */
    function ImageAttachment(src: string): (a: FileAttachment)
      requires |src| >= 4
      ensures a.fileUri == Some(uriOf(src))
      ensures a.thumbnailUri == Some(uriOf(ThumbnailPath(src).value))
      ensures a == NewFileAttachment.(fileUri := a.fileUri, thumbnailUri := a.thumbnailUri)
    {
      NewFileAttachment.(fileUri := Some(uriOf(src)),
                         thumbnailUri := Some(uriOf(ThumbnailPath(src).value)))
    }

    /** closeThread: with an open thread, give it the holder's posts, count the opening post
        in, append it to the completed threads and empty the posts; otherwise do nothing.
        In posts mode there is no list to append to, and threads.add throws. */
    method CloseThread() returns (ok: bool)
      modifies this`thread, this`threads, this`posts
      ensures ok <==> old(thread).None? || old(threads).Some?
      ensures ok && old(thread).Some? ==>
        var flushed := Flush(old(thread).value, old(posts));
        thread == Some(flushed) && threads == Some(old(threads).value + [flushed]) && posts == []
      ensures !(ok && old(thread).Some?) ==>
        thread == old(thread) && threads == old(threads) && posts == old(posts)
    {
      if thread.Some? {
        if threads.None? {
          return false;
        }
        var flushed := Flush(thread.value, posts);
        thread := Some(flushed);
        threads := Some(threads.value + [flushed]);
        posts := [];
      }
      ok := true;
    }

    method SetPost(p: Post)
      requires post.Some?
      modifies this`post
      ensures post == Some(p)
    {
      post := Some(p);
    }

    /** div class="content-title": in posts mode a new post whose subject is the trimmed,
        markup-free title; in thread mode nothing. */
    method OnContentTitleText(text: string)
      requires Valid()
      modifies this`post, this`attachmentInPost
      ensures Valid() && Progress(old(threads), old(posts))
      ensures threads.None? ==>
        post == Some(NewPost.(subject := Some(Trim(clearHtml(text))))) && !attachmentInPost
      ensures threads.Some? ==> post == old(post) && attachmentInPost == old(attachmentInPost)
    {
      if threads.None? {
        post := Some(NewPost.(subject := Some(Trim(clearHtml(text)))));
        attachmentInPost := false;
      }
    }

    /** div data-id: the current post (created if absent) is numbered by the decimal form
        of data-id and is sage when its class says so; a "head" block makes that number
        the parent, any other block takes the current parent as its parent. */
    method OnDataIdOpen(attributes: Attributes) returns (capture: bool)
      requires Valid()
      modifies this`post, this`parent
      ensures Valid() && Progress(old(threads), old(posts))
      ensures !capture
      ensures var id := decimalNumber(Attr(attributes, "data-id"));
        var base := old(post).GetOr(NewPost);
        && (IsHead(attributes) ==>
             parent == id && post == Some(base.(number := id, sage := IsSage(attributes))))
        && (!IsHead(attributes) ==>
             && parent == old(parent)
             && post == Some(base.(parentNumber := old(parent), number := id,
                                   sage := IsSage(attributes))))
    {
      var base := post.GetOr(NewPost);
      var id := decimalNumber(Attr(attributes, "data-id"));
      var sage := IsSage(attributes);
      if IsHead(attributes) {
        parent := id;
        post := Some(base.(number := id, sage := sage));
      } else {
        post := Some(base.(parentNumber := parent, number := id, sage := sage));
      }
      capture := false;
    }

    /** a class="post-topic": the subject of the current post, which must exist. */
    method OnPostTopicText(text: string) returns (ok: bool)
      requires Valid()
      modifies this`post
      ensures Valid() && Progress(old(threads), old(posts))
      ensures ok <==> old(post).Some?
      ensures ok ==> post == Some(old(post).value.(subject := Some(Trim(clearHtml(text)))))
      ensures !ok ==> post == old(post)
    {
      if post.None? {
        return false;
      }
      SetPost(post.value.(subject := Some(Trim(clearHtml(text)))));
      ok := true;
    }

    /** div data-ts: the timestamp of the current post is data-ts read by the strict
        Long.parseLong; a missing post, a missing attribute or a malformed number throws. */
    method OnDataTsOpen(attributes: Attributes) returns (ok: bool, capture: bool)
      requires Valid()
      modifies this`post
      ensures Valid() && Progress(old(threads), old(posts))
      ensures !capture
      ensures var ts := Attr(attributes, "data-ts");
        && (ok <==> old(post).Some? && ts.Some? && ParseLong(ts.value).Some?)
        && (ok ==> post == Some(old(post).value.(timestamp := ParseLong(ts.value).value)))
      ensures !ok ==> post == old(post)
    {
      capture := false;
      var ts := Attr(attributes, "data-ts");
      if ts.None? || ParseLong(ts.value).None? || post.None? {
        return false, capture;
      }
      SetPost(post.value.(timestamp := ParseLong(ts.value).value));
      ok := true;
    }

    /** img class*="media image": with a current post, a new attachment for src (a missing
        src is empty) and its thumbnail becomes both the holder's attachment and the post's
        only attachment. */
    method OnMediaImageOpen(attributes: Attributes) returns (ok: bool, capture: bool)
      requires Valid()
      modifies this`attachment, this`post, this`attachmentInPost
      ensures Valid() && Progress(old(threads), old(posts))
      ensures !capture
      ensures var src := EmptyIfNull(Attr(attributes, "src"));
        && (ok <==> old(post).None? || |src| >= 4)
        && (ok && old(post).Some? ==>
             && attachment == Some(ImageAttachment(src))
             && post == Some(old(post).value.(attachments := [attachment]))
             && attachmentInPost)
      ensures !(ok && old(post).Some?) ==>
        attachment == old(attachment) && post == old(post) && attachmentInPost == old(attachmentInPost)
    {
      capture := false;
      if post.Some? {
        var src := EmptyIfNull(Attr(attributes, "src"));
        if |src| < 4 {
          return false, capture;
        }
        attachment := Some(ImageAttachment(src));
        SetPost(post.value.(attachments := [attachment]));
        attachmentInPost := true;
      }
      ok := true;
    }

    /** canvas: the size of the holder's attachment, if any, from the width and height
        attributes read by the strict Integer.parseInt; a missing or malformed one throws.
        The post sees the new size while it shares the attachment. */
    method OnCanvasOpen(attributes: Attributes) returns (ok: bool, capture: bool)
      requires Valid()
      modifies this`attachment, this`post
      ensures Valid() && Progress(old(threads), old(posts))
      ensures !capture
      ensures var width := ParseIntOrNull(Attr(attributes, "width"));
        var height := ParseIntOrNull(Attr(attributes, "height"));
        && (ok <==> old(attachment).None? || (width.Some? && height.Some?))
        && (ok && old(attachment).Some? ==>
             && attachment == Some(old(attachment).value.(width := width.value, height := height.value))
             && (attachmentInPost ==> post == Some(old(post).value.(attachments := [attachment])))
             && (!attachmentInPost ==> post == old(post)))
      ensures !(ok && old(attachment).Some?) ==> attachment == old(attachment) && post == old(post)
    {
      capture := false;
      if attachment.Some? {
        var width := ParseIntOrNull(Attr(attributes, "width"));
        var height := ParseIntOrNull(Attr(attributes, "height"));
        if width.None? || height.None? {
          return false, capture;
        }
        attachment := Some(attachment.value.(width := width.value, height := height.value));
        if attachmentInPost {
          SetPost(post.value.(attachments := [attachment]));
        }
      }
      ok := true;
    }

    /** div class="post-message": the current post, if any, takes the rewritten message as
        its comment and is completed; the holder then has neither a post nor an attachment. */
    method OnPostMessageText(text: string)
      requires Valid()
      modifies this`post, this`posts, this`attachment, this`attachmentInPost
      ensures Valid() && Progress(old(threads), old(posts))
      ensures old(post).Some? ==>
        && posts == old(posts) + [old(post).value.(comment := Some(MessageComment(text)))]
        && post.None? && attachment.None? && !attachmentInPost
      ensures old(post).None? ==>
        && posts == old(posts) && post == old(post) && attachment == old(attachment)
        && attachmentInPost == old(attachmentInPost)
    {
      if post.Some? {
        posts := posts + [post.value.(comment := Some(MessageComment(text)))];
        attachment := None;
        attachmentInPost := false;
        post := None;
      }
    }

    /** div class="post-header": the open thread is closed and a new one opened; the
        current post, which must exist, loses its parent and its number becomes the
        parent. */
    method OnPostHeaderOpen() returns (ok: bool, capture: bool)
      requires Valid()
      modifies this`thread, this`threads, this`posts, this`post, this`parent
      ensures Valid() && Progress(old(threads), old(posts))
      ensures !capture
      ensures ok <==> (old(thread).None? || old(threads).Some?) && old(post).Some?
      ensures ok ==>
        && thread == Some(NewPosts)
        && post == Some(old(post).value.(parentNumber := None))
        && parent == old(post).value.number
        && (old(thread).Some? ==>
             threads == Some(old(threads).value + [Flush(old(thread).value, old(posts))])
             && posts == [])
        && (old(thread).None? ==> threads == old(threads) && posts == old(posts))
      ensures !ok ==>
        && thread == old(thread) && threads == old(threads) && posts == old(posts)
        && post == old(post) && parent == old(parent)
    {
      capture := false;
      if post.None? {
        return false, capture;
      }
      ok := CloseThread();
      if !ok {
        return;
      }
      thread := Some(NewPosts);
      SetPost(post.value.(parentNumber := None));
      parent := post.value.number;
    }

    /** span class*="info-posts-count" / "info-images-count": the first number in the text,
        if any, is added to the open thread's image count when the text carries the image
        label and to its post count otherwise. A number beyond int range or a missing
        thread throws. */
    method OnInfoCountText(text: string) returns (ok: bool)
      requires Valid()
      modifies this`thread
      ensures Valid() && Progress(old(threads), old(posts))
      ensures ok <==> FirstNumber(text).None? || (ParseInt(FirstNumber(text).value).Some? && old(thread).Some?)
      ensures ok && FirstNumber(text).Some? ==>
        thread == Some(AddCount(old(thread).value, CountsImages(text), ParseInt(FirstNumber(text).value).value))
      ensures !ok || FirstNumber(text).None? ==> thread == old(thread)
    {
      var number := FirstNumber(text);
      if number.None? {
        return true;
      }
      var count := ParseInt(number.value);
      if count.None? || thread.None? {
        return false;
      }
      FirstNumberNonNegative(text);
      thread := Some(AddCount(thread.value, CountsImages(text), count.value));
      ok := true;
    }

    /** One event: the handler it names, applied to the holder. */
    method Handle(event: Event) returns (ok: bool)
      requires Valid()
      modifies this
      ensures Valid()
      ensures Progress(old(threads), old(posts))
    {
      var capture := false;
      ok := true;
      match event
      case ContentTitleText(text) => OnContentTitleText(text);
      case DataIdOpen(attributes) => capture := OnDataIdOpen(attributes);
      case PostTopicText(text) => ok := OnPostTopicText(text);
      case DataTsOpen(attributes) => ok, capture := OnDataTsOpen(attributes);
      case MediaImageOpen(attributes) => ok, capture := OnMediaImageOpen(attributes);
      case CanvasOpen(attributes) => ok, capture := OnCanvasOpen(attributes);
      case OmittedText(text) =>
      case PostMessageText(text) => OnPostMessageText(text);
      case PostHeaderOpen => ok, capture := OnPostHeaderOpen();
      case InfoCountText(text) => ok := OnInfoCountText(text);
    }

    /** A whole parse: the events in order, stopping at the first handler that throws. */
    method Parse(events: seq<Event>) returns (ok: bool)
      requires Valid()
      modifies this
      ensures Valid()
      ensures Progress(old(threads), old(posts))
    {
      var i := 0;
      ok := true;
      while i < |events| && ok
        invariant 0 <= i <= |events|
        invariant Valid()
        invariant Progress(old(threads), old(posts))
      {
        ok := Handle(events[i]);
        i := i + 1;
      }
    }

    /** convertThreads: parse in thread mode, close the last thread and return the threads,
        possibly none. Every thread returned counts its opening post. */
    method ConvertThreads(events: seq<Event>) returns (result: ParseResult<seq<Posts>>)
      requires Valid()
      modifies this
      ensures Valid() && threads.Some?
      ensures result.Completed? ==>
        && result.value == threads.value
        && (forall t :: t in result.value ==> t.postsCount >= 1 && t.postsWithFilesCount >= 0)
        && (thread.Some? ==>
             |threads.value| > 0 && threads.value[|threads.value| - 1] == thread.value && posts == [])
    {
      threads := Some([]);
      var ok := Parse(events);
      if !ok {
        return Aborted;
      }
      ok := CloseThread();
      result := Completed(threads.value);
    }

    /** convertPosts: parse in the current mode and return the completed posts, possibly
        none. In posts mode a second post header throws, since it closes a thread with no
        list to put it in. */
    method ConvertPosts(events: seq<Event>) returns (result: ParseResult<seq<Post>>)
      requires Valid()
      modifies this
      ensures Valid()
      ensures old(threads).None? ==> old(posts) <= posts
      ensures result.Completed? ==> result.value == posts
    {
      var ok := Parse(events);
      if !ok {
        return Aborted;
      }
      result := Completed(posts);
    }
  }
}
