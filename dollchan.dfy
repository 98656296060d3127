/** The Dollchan posts parser (DollchanPostsParser.java): the holder whose fields the rule
    handlers update while the page's tags go by, and the two convert calls that run a
    parse and read the result off the holder.

    The rule engine that matches tags to rules is not part of this model: a parse is a
    sequence of events, each naming the handler the engine fired and what it was given.
    A handler whose Java code would throw (a null dereference, an unparsable number that
    is not caught, an out-of-range substring) returns ok == false; the exception ends the
    parse, so the model leaves the holder as it was. */
module Dollchan {
  import opened Wrappers
  import opened JavaText
  import opened ChanModel

  const ABBREV: string := "<div class=\"abbrev\">"
  const THUMB_PATH: string := "/thumb/"
  const SPOILER_ICON: string := "extras/icons/spoiler.png"
  const SAGE: string := "sage"

  // ------------------------------------------------------------ pure pieces of the handlers

  /** The comment the `message` handler stores: the trimmed text, cut before the last
      abbreviation block and trimmed again. */
  function MessageComment(text: string): (r: string)
    ensures StartsWith(Trim(text), r)
    ensures r == [] || (!IsTrimmable(r[0]) && !IsTrimmable(r[|r| - 1]))
    ensures LastIndexOf(Trim(text), ABBREV) == -1 ==> r == Trim(text)
    ensures LastIndexOf(Trim(text), ABBREV) >= 0 ==>
      var cut := LastIndexOf(Trim(text), ABBREV);
      |r| <= cut && AllTrimmable(Trim(text)[|r|..cut])
  {
    var t := Trim(text);
    var index := LastIndexOf(t, ABBREV);
    if index >= 0 then
      TrimmedHead(t, index);
      Trim(t[..index])
    else t
  }

  /** Trimming a prefix of an already trimmed string keeps a prefix of it, and what it
      drops before the cut is blank. */
  lemma TrimmedHead(t: string, index: nat)
    requires index <= |t| && (t == [] || !IsTrimmable(t[0]))
    ensures var r := Trim(t[..index]);
      StartsWith(t, r) && |r| <= index && AllTrimmable(t[|r|..index])
  {
    var head := t[..index];
    var r := Trim(head);
    var a :| TrimmedAt(head, r, a);
    if r == [] {
      assert t[|r|..index] == head;
    } else {
      assert head[0] == t[0];
      assert a == 0;
      assert t[..|r|] == head[..|r|];
      assert t[|r|..index] == head[|r|..];
    }
  }

  /** text.matches("\\\\d+") in the page-link handler: the Java literal is the regex \\d+,
      which matches a backslash followed by one or more letters 'd', not a number. */
  predicate PageLinkGuard(text: string) {
    |text| >= 2 && text[0] == '\\' && forall i :: 1 <= i < |text| ==> text[i] == 'd'
  }

  /** The page count the page-link handler derives from a link text, as written:
      Integer.parseInt(text) + 1 when the guard admits the text and the text parses. */
  function PagesCountHint(text: string): (r: Option<int>)
    ensures r.Some? ==> PageLinkGuard(text) && ParseInt(text).Some? && INT_MIN <= r.value <= INT_MAX
  {
    if PageLinkGuard(text) then
      match ParseInt(text)
      case Some(n) => Some(WrapInt(n + 1))
      case None => None
    else None
  }

  /** A page number written in digits never passes the guard. */
  lemma DigitLinkRejected(text: string)
    requires text != [] && AllDigits(text)
    ensures !PageLinkGuard(text)
  {
    assert IsDigit(text[0]);
  }

  /** Nothing the guard admits parses as an int, so no link text yields a page count. */
  lemma PagesCountHintNone(text: string)
    ensures PagesCountHint(text) == None
  {
    if PageLinkGuard(text) {
      assert !IsDigit(text[0]) && text[0] != '-' && text[0] != '+';
    }
  }

  /** A `nothumb` block keeps its pending attachment only when it has a size or dimension. */
  predicate NoThumbCommits(a: FileAttachment) {
    a.size > 0 || a.width > 0 || a.height > 0
  }

  /** setSage for an e-mail field: it mentions "sage" in any letter case. */
  predicate IsSageEmail(email: string) {
    Contains(ToLowerAscii(email), SAGE)
  }

  /** What closeThread leaves in the thread: the holder's posts, counted in. */
  function Flush(thread: Posts, posts: seq<Post>): (t: Posts)
    ensures t.posts == posts && t.postsCount == thread.postsCount + |posts|
    ensures t.postsWithFilesCount == thread.postsWithFilesCount
  {
    thread.(posts := posts, postsCount := thread.postsCount + |posts|)
  }

  predicate IsCheckbox(attributes: Attributes) {
    Attr(attributes, "type") == Some("checkbox")
  }

  /** The delete checkbox numbers the current post when there is none or it has no number. */
  predicate NumbersPost(post: Option<Post>, attributes: Attributes) {
    IsCheckbox(attributes) && (post.None? || post.value.number.None?)
  }

  /** One handler firing, as decided by the rule engine. `Open` events carry the tag's
      attributes, `Text` events the captured content. */
  datatype Event =
    | DeleteInputOpen(attributes: Attributes)   // input name="delete"
    | ReplyCellOpen(attributes: Attributes)     // td id^="reply"
    | FileSizeOpen                              // span class="filesize"
    | AnchorOpen(attributes: Attributes)        // a (file link)
    | AnchorText(text: string)                  // a, captured content
    | ThumbImageOpen(attributes: Attributes)    // img class^="thumb"
    | ThumbVideoOpen                            // video class^="thumb"
    | NoThumbOpen                               // div class="nothumb"
    | SubjectText(text: string)                 // span class="filetitle" / "replytitle"
    | CountryIconOpen(attributes: Attributes)   // img class="poster-country"
    | PosterUidText(text: string)               // span class="posteruid"
    | PosterNameText(text: string)              // span class^="postername"
    | AdminNameText(text: string)               // span class="postername postername-admin"
    | TripcodeText(text: string)                // span class="postertrip"
    | PostDateOpen(attributes: Attributes)      // span class="posterdate"
    | MessageText(text: string)                 // div class="message"
    | OmittedPostsText(text: string)            // div class="omittedposts"
    | LogoText(text: string)                    // div class="logo"
    | PageLinkText(text: string)                // a href$=".html"
    | LabelOpen                                 // label
    | ReflinkSpanOpen                           // span class="reflink"
    | ReflinkAnchorOpen(attributes: Attributes) // a (after a reflink span)
    | StickyIconOpen                            // img src$="/icons/sticky.png"
    | EndlessIconOpen                           // img src$="/icons/endless.png"

  class DollchanPostsParser {
    const boardName: string
    const originalNameFromLink: bool
    /** locator.buildPath */
    const buildPath: Option<string> -> Uri
    /** StringUtils.clearHtml */
    const clearHtml: string -> string
    /** locator.getThreadNumber(Uri.parse(href)) */
    const threadNumberOf: string -> Option<string>

    var parent: Option<string>
    var thread: Option<Posts>
    var post: Option<Post>
    var attachments: Option<seq<Option<FileAttachment>>>
    var attachment: Option<FileAttachment>
    /** None until convertThreads runs: None is posts mode, Some is thread mode. */
    var threads: Option<seq<Posts>>
    var posts: seq<Post>
    var maxNumberOfPages: int
    var headerHandling: bool
    var reflinkParsing: bool
    /** The calls made to the configuration (storePagesCount, storeBoardTitle). */
    var configurationWrites: seq<ConfigurationWrite>

    /** A thread is only ever opened in thread mode, its post count is never negative, and
        every completed thread counts at least the posts it holds. */
    ghost predicate Valid()
      reads this
    {
      && (threads.None? ==> thread.None?)
      && (thread.Some? ==> thread.value.postsCount >= 0)
      && (threads.Some? ==> forall t :: t in threads.value ==> t.postsCount >= |t.posts|)
    }

    /** What a parse may do to the holder, whatever the events: the mode stays, completed
        threads are never altered, in posts mode completed posts are never altered, the
        page count never moves, only board titles are written, and header handling,
        once on, stays on. */
    ghost predicate Progress(threads0: Option<seq<Posts>>, posts0: seq<Post>, max0: int,
                             writes0: seq<ConfigurationWrite>, header0: bool)
      reads this
    {
      && threads.Some? == threads0.Some?
      && (threads0.Some? ==> threads0.value <= threads.value)
      && (threads0.None? ==> posts0 <= posts)
      && maxNumberOfPages == max0
      && writes0 <= configurationWrites
      && (forall i :: |writes0| <= i < |configurationWrites| ==> configurationWrites[i].BoardTitle?)
      && (header0 ==> headerHandling)
    }

    constructor (boardName: string, buildPath: Option<string> -> Uri,
                 clearHtml: string -> string, threadNumberOf: string -> Option<string>)
      ensures Valid()
      ensures this.boardName == boardName && originalNameFromLink
      ensures this.buildPath == buildPath && this.clearHtml == clearHtml
      ensures this.threadNumberOf == threadNumberOf
      ensures parent.None? && thread.None? && post.None? && attachments.None? && attachment.None?
      ensures threads.None? && posts == [] && maxNumberOfPages == 0
      ensures !headerHandling && !reflinkParsing && configurationWrites == []
    {
      this.boardName := boardName;
      originalNameFromLink := true;
      this.buildPath := buildPath;
      this.clearHtml := clearHtml;
      this.threadNumberOf := threadNumberOf;
      parent, thread, post, attachments, attachment := None, None, None, None, None;
      threads, posts, maxNumberOfPages := None, [], 0;
      headerHandling, reflinkParsing, configurationWrites := false, false, [];
    }

    /** closeThread: with an open thread, give it the holder's posts, count them in,
        append it to the completed threads and empty the posts; otherwise do nothing.
        The holder keeps referring to the flushed thread. */
    method CloseThread()
      requires Valid()
      modifies this`thread, this`threads, this`posts
      ensures Valid()
      ensures old(thread).None? ==>
        thread == old(thread) && threads == old(threads) && posts == old(posts)
      ensures old(thread).Some? ==>
        var flushed := Flush(old(thread).value, old(posts));
        thread == Some(flushed) && threads == Some(old(threads).value + [flushed]) && posts == []
    {
      if thread.Some? {
        var flushed := Flush(thread.value, posts);
        thread := Some(flushed);
        threads := Some(threads.value + [flushed]);
        posts := [];
      }
    }

    /** input name="delete": a checkbox turns header handling on; when the current post is
        missing or unnumbered it numbers it (creating it if needed) and makes that number
        the parent, and in thread mode it also closes the open thread, opens a new one
        and forgets the attachment list. */
    method OnDeleteInputOpen(attributes: Attributes) returns (capture: bool)
      requires Valid()
      modifies this`headerHandling, this`post, this`parent, this`thread, this`threads
      modifies this`posts, this`attachments
      ensures Valid() && !capture
      ensures headerHandling == (old(headerHandling) || IsCheckbox(attributes))
      ensures NumbersPost(old(post), attributes) ==>
        && post == Some(old(post).GetOr(NewPost).(number := Attr(attributes, "value")))
        && parent == Attr(attributes, "value")
      ensures !NumbersPost(old(post), attributes) ==> post == old(post) && parent == old(parent)
      ensures NumbersPost(old(post), attributes) && old(threads).Some? ==>
        && thread == Some(NewPosts) && attachments.None?
        && (old(thread).None? ==> threads == old(threads) && posts == old(posts))
        && (old(thread).Some? ==>
             threads == Some(old(threads).value + [Flush(old(thread).value, old(posts))])
             && posts == [])
      ensures !(NumbersPost(old(post), attributes) && old(threads).Some?) ==>
        && thread == old(thread) && threads == old(threads) && posts == old(posts)
        && attachments == old(attachments)
      ensures Valid() && Progress(old(threads), old(posts), old(maxNumberOfPages),
                                  old(configurationWrites), old(headerHandling))
    {
      if IsCheckbox(attributes) {
        headerHandling := true;
        if post.None? || post.value.number.None? {
          var number := Attr(attributes, "value");
          post := Some(post.GetOr(NewPost).(number := number));
          parent := number;
          if threads.Some? {
            CloseThread();
            thread := Some(NewPosts);
            attachments := None;
          }
        }
      }
      capture := false;
    }

    /** td id^="reply": a new post numbered by the id after its first five characters,
        whose parent is the current parent; the attachment list is forgotten. An id
        shorter than five characters makes substring(5) throw. */
    method OnReplyCellOpen(attributes: Attributes) returns (ok: bool, capture: bool)
      modifies this`post, this`attachments
      ensures !capture
      ensures var id := EmptyIfNull(Attr(attributes, "id")); ok <==> |id| >= 5
      ensures ok ==>
        && post == Some(NewPost.(parentNumber := parent,
                                 number := Some(EmptyIfNull(Attr(attributes, "id"))[5..])))
        && attachments.None?
      ensures !ok ==> post == old(post) && attachments == old(attachments)
      requires Valid()
      ensures Valid() && Progress(old(threads), old(posts), old(maxNumberOfPages),
                                  old(configurationWrites), old(headerHandling))
    {
      var id := EmptyIfNull(Attr(attributes, "id"));
      capture := false;
      if |id| < 5 {
        return false, capture;
      }
      post := Some(NewPost.(parentNumber := parent, number := Some(id[5..])));
      attachments := None;
      ok := true;
    }

    /** span class="filesize": opens a new pending attachment. The post and the attachment
        list are created if absent, and a still-pending attachment is moved to the list. */
    method OnFileSizeOpen() returns (capture: bool)
      modifies this`post, this`attachments, this`attachment
      ensures !capture
      ensures post == Some(old(post).GetOr(NewPost))
      ensures attachments == Some(old(attachments).GetOr([]) +
                                  (if old(attachment).Some? then [old(attachment)] else []))
      ensures attachment == Some(NewFileAttachment)
      requires Valid()
      ensures Valid() && Progress(old(threads), old(posts), old(maxNumberOfPages),
                                  old(configurationWrites), old(headerHandling))
    {
      if post.None? {
        post := Some(NewPost);
      }
      var list := attachments.GetOr([]);
      if attachment.Some? {
        list := list + [attachment];
      }
      assert list == old(attachments).GetOr([]) + (if old(attachment).Some? then [old(attachment)] else []);
      attachments := Some(list);
      attachment := Some(NewFileAttachment);
      capture := false;
    }

    /** a (file link): the first link after a filesize span gives the pending attachment
        its file address, and its size and dimensions from data-size, data-width and
        data-height when they parse as ints (a value that does not parse is skipped);
        the link text is then captured when original names come from links. */
    method OnAnchorOpen(attributes: Attributes) returns (capture: bool)
      modifies this`attachment
      ensures var enriches := old(attachment).Some? && old(attachment).value.fileUri.None?;
        && (enriches ==>
             var a := old(attachment).value;
             && attachment == Some(a.(fileUri := Some(buildPath(Attr(attributes, "href"))),
                  size := ParseIntOrNull(Attr(attributes, "data-size")).GetOr(a.size),
                  width := ParseIntOrNull(Attr(attributes, "data-width")).GetOr(a.width),
                  height := ParseIntOrNull(Attr(attributes, "data-height")).GetOr(a.height)))
             && capture == originalNameFromLink)
        && (!enriches ==> attachment == old(attachment) && !capture)
      requires Valid()
      ensures Valid() && Progress(old(threads), old(posts), old(maxNumberOfPages),
                                  old(configurationWrites), old(headerHandling))
    {
      if attachment.Some? && attachment.value.fileUri.None? {
        var a := attachment.value.(fileUri := Some(buildPath(Attr(attributes, "href"))));
        var size := ParseIntOrNull(Attr(attributes, "data-size"));
        if size.Some? {
          a := a.(size := size.value);
        }
        var width := ParseIntOrNull(Attr(attributes, "data-width"));
        if width.Some? {
          a := a.(width := width.value);
        }
        var height := ParseIntOrNull(Attr(attributes, "data-height"));
        if height.Some? {
          a := a.(height := height.value);
        }
        attachment := Some(a);
        return originalNameFromLink;
      }
      capture := false;
    }

    /** The captured file-link text becomes the pending attachment's original name. */
    method OnAnchorText(text: string) returns (ok: bool)
      modifies this`attachment
      ensures ok <==> old(attachment).Some?
      ensures ok ==> attachment == Some(old(attachment).value.(originalName := Some(Trim(clearHtml(text)))))
      ensures !ok ==> attachment == old(attachment)
      requires Valid()
      ensures Valid() && Progress(old(threads), old(posts), old(maxNumberOfPages),
                                  old(configurationWrites), old(headerHandling))
    {
      if attachment.None? {
        return false;
      }
      attachment := Some(attachment.value.(originalName := Some(Trim(clearHtml(text)))));
      ok := true;
    }

    /** The shared end of the thumbnail handlers: commit `pending` (which may be None, the
        Java null) to the attachment list, give the post that list and clear the slot. */
    method CommitAttachment(pending: Option<FileAttachment>) returns (ok: bool)
      modifies this`attachments, this`post, this`attachment
      ensures ok <==> old(post).Some?
      ensures ok ==>
        && attachments == Some(old(attachments).GetOr([]) + [pending])
        && post == Some(old(post).value.(attachments := attachments.value))
        && attachment.None?
      ensures !ok ==>
        attachments == old(attachments) && post == old(post) && attachment == old(attachment)
    {
      if post.None? {
        return false;
      }
      var list := attachments.GetOr([]) + [pending];
      attachments := Some(list);
      post := Some(post.value.(attachments := list));
      attachment := None;
      ok := true;
    }

    /** img class^="thumb": a src containing "/thumb/" sets the pending attachment's
        thumbnail, one containing the spoiler icon marks it a spoiler; then the pending
        attachment is committed. With nothing pending, a src that needs it throws and any
        other src commits null. */
    method OnThumbImageOpen(attributes: Attributes) returns (ok: bool, capture: bool)
      modifies this`attachments, this`post, this`attachment
      ensures !capture
      ensures var src := Attr(attributes, "src");
        var thumb := src.Some? && Contains(src.value, THUMB_PATH);
        var spoiler := src.Some? && Contains(src.value, SPOILER_ICON);
        var pending :=
          if old(attachment).None? then None
          else
            var a := old(attachment).value;
            Some(a.(thumbnailUri := if thumb then Some(buildPath(src)) else a.thumbnailUri,
                    spoiler := a.spoiler || spoiler));
        && (ok <==> (old(attachment).Some? || (!thumb && !spoiler)) && old(post).Some?)
        && (ok ==>
             && attachments == Some(old(attachments).GetOr([]) + [pending])
             && post == Some(old(post).value.(attachments := attachments.value))
             && attachment.None?)
      ensures !ok ==>
        attachments == old(attachments) && post == old(post) && attachment == old(attachment)
      requires Valid()
      ensures Valid() && Progress(old(threads), old(posts), old(maxNumberOfPages),
                                  old(configurationWrites), old(headerHandling))
    {
      capture := false;
      var src := Attr(attributes, "src");
      var pending := attachment;
      if src.Some? {
        if Contains(src.value, THUMB_PATH) {
          if pending.None? {
            return false, capture;
          }
          pending := Some(pending.value.(thumbnailUri := Some(buildPath(src))));
        }
        if Contains(src.value, SPOILER_ICON) {
          if pending.None? {
            return false, capture;
          }
          pending := Some(pending.value.(spoiler := true));
        }
      }
      ok := CommitAttachment(pending);
    }

    /** video class^="thumb": commit the pending attachment (null when nothing is pending). */
    method OnThumbVideoOpen() returns (ok: bool, capture: bool)
      modifies this`attachments, this`post, this`attachment
      ensures !capture
      ensures ok <==> old(post).Some?
      ensures ok ==>
        && attachments == Some(old(attachments).GetOr([]) + [old(attachment)])
        && post == Some(old(post).value.(attachments := attachments.value))
        && attachment.None?
      ensures !ok ==>
        attachments == old(attachments) && post == old(post) && attachment == old(attachment)
      requires Valid()
      ensures Valid() && Progress(old(threads), old(posts), old(maxNumberOfPages),
                                  old(configurationWrites), old(headerHandling))
    {
      capture := false;
      ok := CommitAttachment(attachment);
    }

    /** div class="nothumb": the pending attachment is committed only when it has a size or
        a dimension above zero, and the pending slot is cleared either way. */
    method OnNoThumbOpen() returns (ok: bool, capture: bool)
      modifies this`attachments, this`post, this`attachment
      ensures !capture
      ensures ok <==> old(attachment).Some? && (NoThumbCommits(old(attachment).value) ==> old(post).Some?)
      ensures ok && NoThumbCommits(old(attachment).value) ==>
        && attachments == Some(old(attachments).GetOr([]) + [old(attachment)])
        && post == Some(old(post).value.(attachments := attachments.value))
      ensures ok && !NoThumbCommits(old(attachment).value) ==>
        attachments == old(attachments) && post == old(post)
      ensures ok ==> attachment.None?
      ensures !ok ==>
        attachments == old(attachments) && post == old(post) && attachment == old(attachment)
      requires Valid()
      ensures Valid() && Progress(old(threads), old(posts), old(maxNumberOfPages),
                                  old(configurationWrites), old(headerHandling))
    {
      capture := false;
      if attachment.None? {
        return false, capture;
      }
      if NoThumbCommits(attachment.value) {
        ok := CommitAttachment(attachment);
      } else {
        attachment := None;
        ok := true;
      }
    }

    /** The post-field content handlers all need a current post. */
    method SetPost(p: Post)
      requires post.Some?
      modifies this`post
      ensures post == Some(p)
    {
      post := Some(p);
    }

    /** span class="filetitle" / "replytitle": the subject, or null when it is blank. */
    method OnSubjectText(text: string) returns (ok: bool)
      modifies this`post
      ensures ok <==> old(post).Some?
      ensures ok ==> post == Some(old(post).value.(subject := NullIfEmpty(Trim(clearHtml(text)))))
      ensures !ok ==> post == old(post)
      requires Valid()
      ensures Valid() && Progress(old(threads), old(posts), old(maxNumberOfPages),
                                  old(configurationWrites), old(headerHandling))
    {
      if post.None? {
        return false;
      }
      SetPost(post.value.(subject := NullIfEmpty(Trim(clearHtml(text)))));
      ok := true;
    }

    /** img class="poster-country": with both a title and a src, the post's icons become
        that one flag icon. */
    method OnCountryIconOpen(attributes: Attributes) returns (ok: bool, capture: bool)
      modifies this`post
      ensures !capture
      ensures var title := Attr(attributes, "title");
        var src := Attr(attributes, "src");
        && (ok <==> title.None? || src.None? || old(post).Some?)
        && (ok && title.Some? && src.Some? ==>
             post == Some(old(post).value.(icons := [Icon(buildPath(src), title.value)])))
        && (!(ok && title.Some? && src.Some?) ==> post == old(post))
      requires Valid()
      ensures Valid() && Progress(old(threads), old(posts), old(maxNumberOfPages),
                                  old(configurationWrites), old(headerHandling))
    {
      capture := false;
      var title := Attr(attributes, "title");
      var src := Attr(attributes, "src");
      if title.Some? && src.Some? {
        if post.None? {
          return false, capture;
        }
        SetPost(post.value.(icons := [Icon(buildPath(src), title.value)]));
      }
      ok := true;
    }

    /** span class="posteruid": the poster identifier, markup removed. */
    method OnPosterUidText(text: string) returns (ok: bool)
      modifies this`post
      ensures ok <==> old(post).Some?
      ensures ok ==> post == Some(old(post).value.(identifier := Some(clearHtml(text))))
      ensures !ok ==> post == old(post)
      requires Valid()
      ensures Valid() && Progress(old(threads), old(posts), old(maxNumberOfPages),
                                  old(configurationWrites), old(headerHandling))
    {
      if post.None? {
        return false;
      }
      SetPost(post.value.(identifier := Some(clearHtml(text))));
      ok := true;
    }

    /** span class^="postername": the raw text, appended after a space to a name already set. */
    method OnPosterNameText(text: string) returns (ok: bool)
      modifies this`post
      ensures ok <==> old(post).Some?
      ensures ok ==>
        var p := old(post).value;
        post == Some(p.(name := Some(if p.name.Some? then p.name.value + " " + text else text)))
      ensures !ok ==> post == old(post)
      requires Valid()
      ensures Valid() && Progress(old(threads), old(posts), old(maxNumberOfPages),
                                  old(configurationWrites), old(headerHandling))
    {
      if post.None? {
        return false;
      }
      var p := post.value;
      SetPost(p.(name := Some(if p.name.Some? then p.name.value + " " + text else text)));
      ok := true;
    }

    /** span class="postername postername-admin": the capcode, markup removed. */
    method OnAdminNameText(text: string) returns (ok: bool)
      modifies this`post
      ensures ok <==> old(post).Some?
      ensures ok ==> post == Some(old(post).value.(capcode := Some(clearHtml(text))))
      ensures !ok ==> post == old(post)
      requires Valid()
      ensures Valid() && Progress(old(threads), old(posts), old(maxNumberOfPages),
                                  old(configurationWrites), old(headerHandling))
    {
      if post.None? {
        return false;
      }
      SetPost(post.value.(capcode := Some(clearHtml(text))));
      ok := true;
    }

    /** span class="postertrip": the tripcode, or null when it is blank. */
    method OnTripcodeText(text: string) returns (ok: bool)
      modifies this`post
      ensures ok <==> old(post).Some?
      ensures ok ==> post == Some(old(post).value.(tripcode := NullIfEmpty(Trim(clearHtml(text)))))
      ensures !ok ==> post == old(post)
      requires Valid()
      ensures Valid() && Progress(old(threads), old(posts), old(maxNumberOfPages),
                                  old(configurationWrites), old(headerHandling))
    {
      if post.None? {
        return false;
      }
      SetPost(post.value.(tripcode := NullIfEmpty(Trim(clearHtml(text)))));
      ok := true;
    }

    /** span class="posterdate": data-timestamp, in seconds, becomes the post's timestamp in
        milliseconds (long arithmetic) when it parses as a long; a missing or malformed
        value is skipped. Parsing comes before the post is dereferenced, so only a value
        that parses needs a post. The tag's content is captured (no handler reads it). */
    method OnPostDateOpen(attributes: Attributes) returns (ok: bool, capture: bool)
      modifies this`post
      ensures capture
      ensures var seconds := if Attr(attributes, "data-timestamp").Some?
                             then ParseLong(Attr(attributes, "data-timestamp").value) else None;
        && (ok <==> seconds.None? || old(post).Some?)
        && (ok && seconds.Some? ==>
             post == Some(old(post).value.(timestamp := WrapLong(seconds.value * 1000))))
        && (!(ok && seconds.Some?) ==> post == old(post))
      requires Valid()
      ensures Valid() && Progress(old(threads), old(posts), old(maxNumberOfPages),
                                  old(configurationWrites), old(headerHandling))
    {
      capture := true;
      var timestamp := Attr(attributes, "data-timestamp");
      if timestamp.Some? {
        var seconds := ParseLong(timestamp.value);
        if seconds.Some? {
          if post.None? {
            return false, capture;
          }
          SetPost(post.value.(timestamp := WrapLong(seconds.value * 1000)));
        }
      }
      ok := true;
    }

    /** div class="message": the post gets its comment and is completed; the slot is cleared. */
    method OnMessageText(text: string) returns (ok: bool)
      modifies this`post, this`posts
      ensures ok <==> old(post).Some?
      ensures ok ==>
        && posts == old(posts) + [old(post).value.(comment := Some(MessageComment(text)))]
        && post.None?
      ensures !ok ==> post == old(post) && posts == old(posts)
      requires Valid()
      ensures Valid() && Progress(old(threads), old(posts), old(maxNumberOfPages),
                                  old(configurationWrites), old(headerHandling))
    {
      if post.None? {
        return false;
      }
      posts := posts + [post.value.(comment := Some(MessageComment(text)))];
      post := None;
      ok := true;
    }

    /** div class="omittedposts": in thread mode the first number in the text is added to
        the open thread's post count. A number beyond int range, or no open thread, throws. */
    method OnOmittedPostsText(text: string) returns (ok: bool)
      modifies this`thread
      ensures var n := FirstNumber(text);
        var adds := old(threads).Some? && n.Some?;
        && (ok <==> !adds || (ParseInt(n.value).Some? && old(thread).Some?))
        && (ok && adds ==>
             thread == Some(old(thread).value.(postsCount :=
                              old(thread).value.postsCount + ParseInt(n.value).value)))
        && (!(ok && adds) ==> thread == old(thread))
      requires Valid()
      ensures Valid() && Progress(old(threads), old(posts), old(maxNumberOfPages),
                                  old(configurationWrites), old(headerHandling))
    {
      if threads.Some? {
        var n := FirstNumber(text);
        if n.Some? {
          var count := ParseInt(n.value);
          if count.None? || thread.None? {
            return false;
          }
          FirstNumberNonNegative(text);
          thread := Some(thread.value.(postsCount := thread.value.postsCount + count.value));
        }
      }
      ok := true;
    }

    /** storeBoardTitle: a non-empty title is written to the configuration. */
    method StoreBoardTitle(title: string)
      modifies this`configurationWrites
      ensures configurationWrites ==
        old(configurationWrites) + (if title != [] then [BoardTitle(boardName, title)] else [])
    {
      if title != [] {
        configurationWrites := configurationWrites + [BoardTitle(boardName, title)];
      }
    }

    /** div class="logo": the board title, markup removed and trimmed. */
    method OnLogoText(text: string)
      modifies this`configurationWrites
      ensures var title := Trim(clearHtml(text));
        configurationWrites ==
          old(configurationWrites) + (if title != [] then [BoardTitle(boardName, title)] else [])
      requires Valid()
      ensures Valid() && Progress(old(threads), old(posts), old(maxNumberOfPages),
                                  old(configurationWrites), old(headerHandling))
    {
      StoreBoardTitle(Trim(clearHtml(text)));
    }

    /** a href$=".html": a page count derived from the link text raises maxNumberOfPages and
        is stored only when it is larger. As written, no link text yields a count
        (PagesCountHintNone), so neither ever changes. */
    method OnPageLinkText(text: string)
      modifies this`maxNumberOfPages, this`configurationWrites
      ensures var hint := PagesCountHint(text);
        var grows := hint.Some? && old(maxNumberOfPages) < hint.value;
        && maxNumberOfPages == (if grows then hint.value else old(maxNumberOfPages))
        && configurationWrites == old(configurationWrites) +
             (if grows then [PagesCount(boardName, hint.value)] else [])
      ensures maxNumberOfPages == old(maxNumberOfPages)
      ensures configurationWrites == old(configurationWrites)
      requires Valid()
      ensures Valid() && Progress(old(threads), old(posts), old(maxNumberOfPages),
                                  old(configurationWrites), old(headerHandling))
    {
      var hint := PagesCountHint(text);
      PagesCountHintNone(text);
      var count := hint.GetOr(0);
      var grows := hint.Some? && maxNumberOfPages < count;
      maxNumberOfPages := if grows then count else maxNumberOfPages;
      configurationWrites := configurationWrites + (if grows then [PagesCount(boardName, count)] else []);
    }

    /** label: inside a post, header handling turns on. */
    method OnLabelOpen() returns (capture: bool)
      modifies this`headerHandling
      ensures !capture
      ensures headerHandling == (old(headerHandling) || post.Some?)
      requires Valid()
      ensures Valid() && Progress(old(threads), old(posts), old(maxNumberOfPages),
                                  old(configurationWrites), old(headerHandling))
    {
      if post.Some? {
        headerHandling := true;
      }
      capture := false;
    }

    /** span class="reflink": the next link is a reflink. */
    method OnReflinkSpanOpen() returns (capture: bool)
      modifies this`reflinkParsing
      ensures !capture && reflinkParsing
      requires Valid()
      ensures Valid() && Progress(old(threads), old(posts), old(maxNumberOfPages),
                                  old(configurationWrites), old(headerHandling))
    {
      reflinkParsing := true;
      capture := false;
    }

    /** a (after a reflink span): the reflink state is consumed; a current post without a
        parent takes the thread number of the link as parent unless that is its own number.
        Uri.parse of a missing href throws. */
    method OnReflinkAnchorOpen(attributes: Attributes) returns (ok: bool, capture: bool)
      modifies this`reflinkParsing, this`post
      ensures !capture
      ensures var href := Attr(attributes, "href");
        var resolves := old(reflinkParsing) && old(post).Some? && old(post).value.parentNumber.None?;
        && (ok <==> !resolves || href.Some?)
        && (ok ==> reflinkParsing == false)
        && (ok && resolves && threadNumberOf(href.value).Some?
               && threadNumberOf(href.value) != old(post).value.number ==>
             post == Some(old(post).value.(parentNumber := threadNumberOf(href.value))))
        && (!(ok && resolves && threadNumberOf(href.value).Some?
               && threadNumberOf(href.value) != old(post).value.number) ==>
             post == old(post))
        && (!ok ==> reflinkParsing == old(reflinkParsing))
      requires Valid()
      ensures Valid() && Progress(old(threads), old(posts), old(maxNumberOfPages),
                                  old(configurationWrites), old(headerHandling))
    {
      capture := false;
      if reflinkParsing {
        if post.Some? && post.value.parentNumber.None? {
          var href := Attr(attributes, "href");
          if href.None? {
            return false, capture;
          }
          var threadNumber := threadNumberOf(href.value);
          if threadNumber.Some? && threadNumber != post.value.number {
            SetPost(post.value.(parentNumber := threadNumber));
          }
        }
        reflinkParsing := false;
      }
      ok := true;
    }

    /** img src$="/icons/sticky.png": the current post, if any, is sticky. */
    method OnStickyIconOpen() returns (capture: bool)
      modifies this`post
      ensures !capture
      ensures post == if old(post).Some? then Some(old(post).value.(sticky := true)) else None
      requires Valid()
      ensures Valid() && Progress(old(threads), old(posts), old(maxNumberOfPages),
                                  old(configurationWrites), old(headerHandling))
    {
      if post.Some? {
        SetPost(post.value.(sticky := true));
      }
      capture := false;
    }

    /** img src$="/icons/endless.png": the current post, if any, is cyclical. */
    method OnEndlessIconOpen() returns (capture: bool)
      modifies this`post
      ensures !capture
      ensures post == if old(post).Some? then Some(old(post).value.(cyclical := true)) else None
      requires Valid()
      ensures Valid() && Progress(old(threads), old(posts), old(maxNumberOfPages),
                                  old(configurationWrites), old(headerHandling))
    {
      if post.Some? {
        SetPost(post.value.(cyclical := true));
      }
      capture := false;
    }

    /** setNameEmail: an e-mail mentioning "sage" marks the post as sage, any other e-mail
        is stored; the name is the markup-free trimmed text, or null when blank. */
    method SetNameEmail(nameHtml: string, email: Option<string>) returns (ok: bool)
      modifies this`post
      ensures ok <==> old(post).Some?
      ensures ok ==>
        var p := old(post).value;
        var sage := email.Some? && IsSageEmail(email.value);
        post == Some(p.(sage := p.sage || sage,
                        email := if email.Some? && !sage then email else p.email,
                        name := NullIfEmpty(Trim(clearHtml(nameHtml)))))
      ensures !ok ==> post == old(post)
    {
      if post.None? {
        return false;
      }
      var p := post.value;
      if email.Some? {
        if IsSageEmail(email.value) {
          p := p.(sage := true);
        } else {
          p := p.(email := email);
        }
      }
      SetPost(p.(name := NullIfEmpty(Trim(clearHtml(nameHtml)))));
      ok := true;
    }

    /** One event: the handler it names, applied to the holder. */
    method Handle(event: Event) returns (ok: bool)
      requires Valid()
      modifies this
      ensures Valid()
      ensures Progress(old(threads), old(posts), old(maxNumberOfPages),
                       old(configurationWrites), old(headerHandling))
    {
      var capture := false;
      ok := true;
      match event
      case DeleteInputOpen(attributes) => capture := OnDeleteInputOpen(attributes);
      case ReplyCellOpen(attributes) => ok, capture := OnReplyCellOpen(attributes);
      case FileSizeOpen => capture := OnFileSizeOpen();
      case AnchorOpen(attributes) => capture := OnAnchorOpen(attributes);
      case AnchorText(text) => ok := OnAnchorText(text);
      case ThumbImageOpen(attributes) => ok, capture := OnThumbImageOpen(attributes);
      case ThumbVideoOpen => ok, capture := OnThumbVideoOpen();
      case NoThumbOpen => ok, capture := OnNoThumbOpen();
      case SubjectText(text) => ok := OnSubjectText(text);
      case CountryIconOpen(attributes) => ok, capture := OnCountryIconOpen(attributes);
      case PosterUidText(text) => ok := OnPosterUidText(text);
      case PosterNameText(text) => ok := OnPosterNameText(text);
      case AdminNameText(text) => ok := OnAdminNameText(text);
      case TripcodeText(text) => ok := OnTripcodeText(text);
      case PostDateOpen(attributes) => ok, capture := OnPostDateOpen(attributes);
      case MessageText(text) => ok := OnMessageText(text);
      case OmittedPostsText(text) => ok := OnOmittedPostsText(text);
      case LogoText(text) => OnLogoText(text);
      case PageLinkText(text) => OnPageLinkText(text);
      case LabelOpen => capture := OnLabelOpen();
      case ReflinkSpanOpen => capture := OnReflinkSpanOpen();
      case ReflinkAnchorOpen(attributes) => ok, capture := OnReflinkAnchorOpen(attributes);
      case StickyIconOpen => capture := OnStickyIconOpen();
      case EndlessIconOpen => capture := OnEndlessIconOpen();
    }

    /** A whole parse: the events in order, stopping at the first handler that throws. */
    method Parse(events: seq<Event>) returns (ok: bool)
      requires Valid()
      modifies this
      ensures Valid()
      ensures Progress(old(threads), old(posts), old(maxNumberOfPages),
                       old(configurationWrites), old(headerHandling))
    {
      var i := 0;
      ok := true;
      while i < |events| && ok
        invariant 0 <= i <= |events|
        invariant Valid()
        invariant Progress(old(threads), old(posts), old(maxNumberOfPages),
                           old(configurationWrites), old(headerHandling))
      {
        ok := Handle(events[i]);
        i := i + 1;
      }
    }

    /** convertThreads: parse in thread mode, close the last thread, and return the threads,
        or null when there are none. */
    method ConvertThreads(events: seq<Event>) returns (result: ParseResult<Option<seq<Posts>>>)
      requires Valid()
      modifies this
      ensures Valid() && threads.Some?
      ensures maxNumberOfPages == old(maxNumberOfPages)
      ensures result.Completed? ==>
        && (result.value.None? <==> threads.value == [])
        && (result.value.Some? ==> forall t :: t in result.value.value ==> t.postsCount >= |t.posts|)
        && (result.value.Some? ==> result.value.value == threads.value)
        && (thread.Some? ==>
             |threads.value| > 0 && threads.value[|threads.value| - 1] == thread.value && posts == [])
    {
      threads := Some([]);
      var ok := Parse(events);
      if !ok {
        return Aborted;
      }
      CloseThread();
      if |threads.value| > 0 {
        result := Completed(Some(threads.value));
      } else {
        result := Completed(None);
      }
    }

    /** convertPosts: parse in the current mode and return the completed posts, or null
        when there are none. */
    method ConvertPosts(events: seq<Event>) returns (result: ParseResult<Option<seq<Post>>>)
      requires Valid()
      modifies this
      ensures Valid()
      ensures maxNumberOfPages == old(maxNumberOfPages)
      ensures old(threads).None? ==> old(posts) <= posts
      ensures result.Completed? ==>
        && (result.value.None? <==> posts == [])
        && (result.value.Some? ==> result.value.value == posts)
    {
      var ok := Parse(events);
      if !ok {
        return Aborted;
      }
      if |posts| > 0 {
        result := Completed(Some(posts));
      } else {
        result := Completed(None);
      }
    }
  }
}
