/** The records a site configuration hands out (chan.content.ChanConfiguration's nested
    Board, Posting, Deleting, Captcha and CustomPreference classes) and the key-value
    store behind its get and set calls. Each record starts from Java's field defaults:
    false, zero, an empty list. */
module ChanConfig {
  import opened Wrappers

  datatype Board = Board(
    allowCatalog: bool,
    allowCatalogSearch: bool,
    allowArchive: bool,
    allowPosting: bool,
    allowDeleting: bool,
    allowReporting: bool)

  const NewBoard: Board := Board(false, false, false, false, false, false)

  datatype Posting = Posting(
    allowName: bool,
    allowTripcode: bool,
    allowEmail: bool,
    allowSubject: bool,
    optionSage: bool,
    maxCommentLength: int,
    attachmentCount: int,
    attachmentMimeTypes: seq<string>,
    attachmentSpoiler: bool,
    hasCountryFlags: bool)

  const NewPosting: Posting := Posting(false, false, false, false, false, 0, 0, [], false, false)

  datatype CaptchaInput = All | Latin | Numeric
  datatype CaptchaValidity = ShortLifetime | InThread | InBoardSeparately | InBoard | LongLifetime

  datatype Captcha = Captcha(title: string, input: CaptchaInput, validity: CaptchaValidity)

  datatype CustomPreference = CustomPreference(title: string, summary: string)

  // ------------------------------------------------------------------------ the store

  /** A stored value; get reads it with the type of its default, and a value stored
      with another type reads as the default. */
  datatype Value = BoolValue(b: bool) | IntValue(i: int) | StringValue(s: string)

  /** A setting is addressed by board (null for site-wide settings) and key. */
  datatype StoreKey = StoreKey(boardName: Option<string>, key: string)

  type Store = map<StoreKey, Value>

  /** get(boardName, key, boolean default). */
  function GetBool(store: Store, boardName: Option<string>, key: string, default: bool): (r: bool)
    ensures StoreKey(boardName, key) !in store ==> r == default
    ensures var k := StoreKey(boardName, key); k in store && store[k].BoolValue? ==> r == store[k].b
    ensures var k := StoreKey(boardName, key); k in store && !store[k].BoolValue? ==> r == default
  {
    var k := StoreKey(boardName, key);
    if k in store && store[k].BoolValue? then store[k].b else default
  }

  /** get(boardName, key, int default). */
  function GetInt(store: Store, boardName: Option<string>, key: string, default: int): (r: int)
    ensures StoreKey(boardName, key) !in store ==> r == default
    ensures var k := StoreKey(boardName, key); k in store && store[k].IntValue? ==> r == store[k].i
    ensures var k := StoreKey(boardName, key); k in store && !store[k].IntValue? ==> r == default
  {
    var k := StoreKey(boardName, key);
    if k in store && store[k].IntValue? then store[k].i else default
  }

  /** get(boardName, key, String default). */
  function GetString(store: Store, boardName: Option<string>, key: string, default: string): (r: string)
    ensures StoreKey(boardName, key) !in store ==> r == default
    ensures var k := StoreKey(boardName, key); k in store && store[k].StringValue? ==> r == store[k].s
    ensures var k := StoreKey(boardName, key); k in store && !store[k].StringValue? ==> r == default
  {
    var k := StoreKey(boardName, key);
    if k in store && store[k].StringValue? then store[k].s else default
  }

  /** set then get: a value stored under a key reads back through the get of its type,
      whatever the default, and every other key reads as before. */
  lemma SetThenGet(store: Store, boardName: Option<string>, key: string, v: Value,
                   otherBoard: Option<string>, otherKey: string)
    ensures var r := store[StoreKey(boardName, key) := v];
      && (v.BoolValue? ==> forall d :: GetBool(r, boardName, key, d) == v.b)
      && (v.IntValue? ==> forall d :: GetInt(r, boardName, key, d) == v.i)
      && (v.StringValue? ==> forall d :: GetString(r, boardName, key, d) == v.s)
    ensures var r := store[StoreKey(boardName, key) := v];
      StoreKey(otherBoard, otherKey) != StoreKey(boardName, key) ==>
        && (forall d :: GetBool(r, otherBoard, otherKey, d) == GetBool(store, otherBoard, otherKey, d))
        && (forall d :: GetInt(r, otherBoard, otherKey, d) == GetInt(store, otherBoard, otherKey, d))
        && (forall d :: GetString(r, otherBoard, otherKey, d) == GetString(store, otherBoard, otherKey, d))
  {
  }
}
