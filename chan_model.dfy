/** The domain records the parsers build (chan.content.model): posts, threads,
    file attachments and icons, as plain values. */
module ChanModel {
  import opened Wrappers

  /** An address as produced by the locator; kept as the text it was built from. */
  type Uri = string

  /** The attributes of an opening tag; a missing key is Java's null from attributes.get. */
  type Attributes = map<string, string>

  function Attr(attributes: Attributes, key: string): (r: Option<string>)
    ensures r.Some? <==> key in attributes
    ensures r.Some? ==> r.value == attributes[key]
  {
    if key in attributes then Some(attributes[key]) else None
  }

  datatype Icon = Icon(uri: Uri, title: string)

  datatype FileAttachment = FileAttachment(
    fileUri: Option<Uri>,
    thumbnailUri: Option<Uri>,
    originalName: Option<string>,
    size: int,
    width: int,
    height: int,
    spoiler: bool)

  /** new FileAttachment(): nothing set, numbers zero. */
  const NewFileAttachment: FileAttachment :=
    FileAttachment(None, None, None, 0, 0, 0, false)

  /** A post. Its attachment list holds Option values because the Java list may hold null. */
  datatype Post = Post(
    number: Option<string>,
    parentNumber: Option<string>,
    subject: Option<string>,
    comment: Option<string>,
    name: Option<string>,
    identifier: Option<string>,
    capcode: Option<string>,
    tripcode: Option<string>,
    email: Option<string>,
    timestamp: int,
    sage: bool,
    sticky: bool,
    cyclical: bool,
    icons: seq<Icon>,
    attachments: seq<Option<FileAttachment>>)

  /** new Post(): nothing set. */
  const NewPost: Post :=
    Post(None, None, None, None, None, None, None, None, None, 0, false, false, false, [], [])

  /** A thread (chan.content.model.Posts): its posts and its counters. */
  datatype Posts = Posts(posts: seq<Post>, postsCount: int, postsWithFilesCount: int)

  /** new Posts(): no posts, counters zero. */
  const NewPosts: Posts := Posts([], 0, 0)

  /** What a convert call ends with: a value, or an exception that aborted the parse. */
  datatype ParseResult<T> = Completed(value: T) | Aborted

  /** A write made to the site configuration as a side effect of parsing. */
  datatype ConfigurationWrite =
    | PagesCount(boardName: string, count: int)
    | BoardTitle(boardName: string, title: string)
}
