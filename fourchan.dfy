/** The 4chan site configuration (FourchanChanConfiguration.java): board, posting and tag
    capabilities read from the configuration store with defaults, and the update that
    writes each board's settings from the decoded boards.json.

    The reads are functions of the store. The store itself belongs to the configuration
    object, which the two updates change in place. */
module Fourchan {
  import opened Wrappers
  import opened ChanConfig
  import opened ChanMarkup

  const KEY_FLAGS_ENABLED: string := "flags_enabled"
  const KEY_SPOILERS_ENABLED: string := "spoilers_enabled"
  const KEY_CODE_ENABLED: string := "code_enabled"
  const KEY_MAX_COMMENT_LENGTH: string := "max_comment_length"
  const KEY_SAFE_FOR_WORK: string := "safe_for_work"
  const KEY_REPORT_REASONS: string := "report_reasons"

  const DEFAULT_MAX_COMMENT_LENGTH: int := 2000
  const MIME_TYPES: seq<string> := ["image/*", "video/webm"]

  /** The setting keys are six different strings. */
  lemma KeysDistinct()
    ensures KEY_FLAGS_ENABLED != KEY_SPOILERS_ENABLED && KEY_FLAGS_ENABLED != KEY_CODE_ENABLED
    ensures KEY_FLAGS_ENABLED != KEY_MAX_COMMENT_LENGTH && KEY_FLAGS_ENABLED != KEY_SAFE_FOR_WORK
    ensures KEY_FLAGS_ENABLED != KEY_REPORT_REASONS
    ensures KEY_SPOILERS_ENABLED != KEY_CODE_ENABLED && KEY_SPOILERS_ENABLED != KEY_MAX_COMMENT_LENGTH
    ensures KEY_SPOILERS_ENABLED != KEY_SAFE_FOR_WORK && KEY_SPOILERS_ENABLED != KEY_REPORT_REASONS
    ensures KEY_CODE_ENABLED != KEY_MAX_COMMENT_LENGTH && KEY_CODE_ENABLED != KEY_SAFE_FOR_WORK
    ensures KEY_CODE_ENABLED != KEY_REPORT_REASONS
    ensures KEY_MAX_COMMENT_LENGTH != KEY_SAFE_FOR_WORK && KEY_MAX_COMMENT_LENGTH != KEY_REPORT_REASONS
    ensures KEY_SAFE_FOR_WORK != KEY_REPORT_REASONS
  {
    assert KEY_FLAGS_ENABLED[0] == 'f' && KEY_SPOILERS_ENABLED[0] == 's' && KEY_CODE_ENABLED[0] == 'c';
    assert KEY_MAX_COMMENT_LENGTH[0] == 'm' && KEY_SAFE_FOR_WORK[0] == 's' && KEY_REPORT_REASONS[0] == 'r';
    assert KEY_SPOILERS_ENABLED[1] == 'p' && KEY_SAFE_FOR_WORK[1] == 'a';
  }

  /** The boards where names and tripcodes are not accepted. */
  predicate IsCancerBoard(boardName: string) {
    boardName == "b" || boardName == "soc"
  }

  // ----------------------------------------------------------------------- the reads

  /** Every board can be browsed, searched, archived, posted to and deleted from; it can
      be reported to when report reasons are stored for it. */
  function ObtainBoardConfiguration(store: Store, boardName: string): (board: Board)
    ensures board.allowCatalog && board.allowCatalogSearch && board.allowArchive
    ensures board.allowPosting && board.allowDeleting
    ensures board.allowReporting <==> GetString(store, Some(boardName), KEY_REPORT_REASONS, "") != []
  {
    NewBoard.(allowCatalog := true, allowCatalogSearch := true, allowArchive := true,
              allowPosting := true, allowDeleting := true,
              allowReporting := GetString(store, Some(boardName), KEY_REPORT_REASONS, "") != [])
  }

  function ObtainPostingConfiguration(store: Store, boardName: string, newThread: bool): (posting: Posting)
    ensures posting.allowName == posting.allowTripcode == !IsCancerBoard(boardName)
    ensures posting.allowEmail && posting.optionSage
    ensures posting.allowSubject <==> newThread && !IsCancerBoard(boardName)
    ensures posting.maxCommentLength ==
      GetInt(store, Some(boardName), KEY_MAX_COMMENT_LENGTH, DEFAULT_MAX_COMMENT_LENGTH)
    ensures posting.attachmentCount == 1 && posting.attachmentMimeTypes == MIME_TYPES
    ensures posting.attachmentSpoiler == GetBool(store, Some(boardName), KEY_SPOILERS_ENABLED, false)
    ensures posting.hasCountryFlags == GetBool(store, Some(boardName), KEY_FLAGS_ENABLED, false)
  {
    var cancer := IsCancerBoard(boardName);
    NewPosting.(
      allowName := !cancer,
      allowTripcode := !cancer,
      allowEmail := true,
      allowSubject := newThread && !cancer,
      optionSage := true,
      maxCommentLength := GetInt(store, Some(boardName), KEY_MAX_COMMENT_LENGTH, DEFAULT_MAX_COMMENT_LENGTH),
      attachmentCount := 1,
      attachmentMimeTypes := MIME_TYPES,
      attachmentSpoiler := GetBool(store, Some(boardName), KEY_SPOILERS_ENABLED, false),
      hasCountryFlags := GetBool(store, Some(boardName), KEY_FLAGS_ENABLED, false))
  }

  /** Only the spoiler and code tags can be supported, each as its stored flag says. */
  function IsTagSupported(store: Store, boardName: string, tag: bv32): (r: bool)
    ensures r ==> tag == TAG_SPOILER || tag == TAG_CODE
    ensures tag == TAG_SPOILER ==> r == GetBool(store, Some(boardName), KEY_SPOILERS_ENABLED, false)
    ensures tag == TAG_CODE ==> r == GetBool(store, Some(boardName), KEY_CODE_ENABLED, false)
  {
    if tag == TAG_SPOILER then GetBool(store, Some(boardName), KEY_SPOILERS_ENABLED, false)
    else if tag == TAG_CODE then GetBool(store, Some(boardName), KEY_CODE_ENABLED, false)
    else false
  }

  /** A board is safe for work exactly when a true mark is stored for it. */
  function IsSafeForWork(store: Store, boardName: string): (r: bool)
    ensures var k := StoreKey(Some(boardName), KEY_SAFE_FOR_WORK);
      r <==> k in store && store[k] == BoolValue(true)
  {
    GetBool(store, Some(boardName), KEY_SAFE_FOR_WORK, false)
  }

  /** With nothing stored, a board cannot be reported to, comments may be 2000 characters
      long, and spoilers, flags, tags and the safe-for-work mark are all off. */
  lemma Defaults(boardName: string, newThread: bool, tag: bv32)
    ensures !ObtainBoardConfiguration(map[], boardName).allowReporting
    ensures var posting := ObtainPostingConfiguration(map[], boardName, newThread);
      && posting.maxCommentLength == DEFAULT_MAX_COMMENT_LENGTH
      && !posting.attachmentSpoiler && !posting.hasCountryFlags
    ensures !IsTagSupported(map[], boardName, tag)
    ensures !IsSafeForWork(map[], boardName)
  {
  }

  // ------------------------------------------------------------------ boards.json

  /** One element of the "boards" array, with optInt's zero for a missing number. */
  datatype BoardEntry = BoardEntry(
    board: string,
    spoilers: int,
    codeTags: int,
    countryFlags: int,
    bumpLimit: int,
    maxCommentChars: int,
    wsBoard: int)

  /** A key whose setting is the same, or as absent, in both stores. */
  predicate Kept(store: Store, store': Store, k: StoreKey) {
    (k in store' <==> k in store) && (k in store' ==> store'[k] == store[k])
  }

  /** The settings one entry writes: the three flags, the comment length when positive,
      and the safe-for-work mark. Nothing is removed, and only the entry's board
      changes, its report reasons excepted. */
  function ApplyEntry(store: Store, e: BoardEntry): (r: Store)
    ensures store.Keys <= r.Keys
    ensures forall k: StoreKey :: k.boardName != Some(e.board) ==> Kept(store, r, k)
    ensures forall k: StoreKey :: k.key == KEY_REPORT_REASONS ==> Kept(store, r, k)
  {
    KeysDistinct();
    var b := Some(e.board);
    var flagged := store[StoreKey(b, KEY_SPOILERS_ENABLED) := BoolValue(e.spoilers != 0)]
                        [StoreKey(b, KEY_CODE_ENABLED) := BoolValue(e.codeTags != 0)]
                        [StoreKey(b, KEY_FLAGS_ENABLED) := BoolValue(e.countryFlags != 0)];
    var sized := if e.maxCommentChars > 0
      then flagged[StoreKey(b, KEY_MAX_COMMENT_LENGTH) := IntValue(e.maxCommentChars)]
      else flagged;
    sized[StoreKey(b, KEY_SAFE_FOR_WORK) := BoolValue(e.wsBoard != 0)]
  }

  /** storeBumpLimit, called only for a non-zero bump limit. */
  function ApplyBumpLimit(bumpLimits: map<string, int>, e: BoardEntry): (r: map<string, int>)
    ensures e.bumpLimit == 0 ==> r == bumpLimits
    ensures e.bumpLimit != 0 ==> e.board in r && r[e.board] == e.bumpLimit
    ensures forall x :: x != e.board ==> (x in r <==> x in bumpLimits) && (x in r ==> r[x] == bumpLimits[x])
  {
    if e.bumpLimit != 0 then bumpLimits[e.board := e.bumpLimit] else bumpLimits
  }

  predicate AllDecoded(entries: seq<Option<BoardEntry>>) {
    forall k :: 0 <= k < |entries| ==> entries[k].Some?
  }

  /** How many entries are written before the first one whose decoding throws. */
  function Processed(entries: seq<Option<BoardEntry>>): (n: nat)
    ensures n <= |entries| && AllDecoded(entries[..n])
    ensures forall k :: 0 <= k < n ==> entries[k].Some?
    ensures n < |entries| ==> entries[n].None?
  {
    if entries == [] || entries[0].None? then 0
    else
      var n := 1 + Processed(entries[1..]);
      assert forall k :: 1 <= k < n ==> entries[k] == entries[1..][k - 1];
      assert entries[..n] == entries[..1] + entries[1..][..n - 1];
      n
  }

  /** The entries written in order. Nothing is removed, and neither site-wide settings
      nor report reasons are touched. */
  function ApplyEntries(store: Store, entries: seq<Option<BoardEntry>>): (r: Store)
    requires AllDecoded(entries)
    ensures store.Keys <= r.Keys
    ensures forall k: StoreKey :: k.boardName.None? ==> Kept(store, r, k)
    ensures forall k: StoreKey :: k.key == KEY_REPORT_REASONS ==> Kept(store, r, k)
  {
    if entries == [] then store
    else ApplyEntry(ApplyEntries(store, entries[..|entries| - 1]), entries[|entries| - 1].value)
  }

  /** The bump limits written in order: none is removed, and a limit that changes
      changes to a non-zero one. */
  function ApplyBumpLimits(bumpLimits: map<string, int>, entries: seq<Option<BoardEntry>>): (r: map<string, int>)
    requires AllDecoded(entries)
    ensures bumpLimits.Keys <= r.Keys
    ensures forall x :: x in r ==> (x in bumpLimits && r[x] == bumpLimits[x]) || r[x] != 0
  {
    if entries == [] then bumpLimits
    else ApplyBumpLimit(ApplyBumpLimits(bumpLimits, entries[..|entries| - 1]), entries[|entries| - 1].value)
  }

  /** Everything read about a board. */
  ghost predicate SameReads(store: Store, store': Store, boardName: string) {
    && ObtainBoardConfiguration(store', boardName) == ObtainBoardConfiguration(store, boardName)
    && (forall newThread: bool ::
          ObtainPostingConfiguration(store', boardName, newThread)
          == ObtainPostingConfiguration(store, boardName, newThread))
    && (forall tag: bv32 :: IsTagSupported(store', boardName, tag) == IsTagSupported(store, boardName, tag))
    && IsSafeForWork(store', boardName) == IsSafeForWork(store, boardName)
  }

  /** After an entry is written, the reads for its board follow it: spoilers, code tags,
      flags and the safe-for-work mark are its fields tested against zero, the comment
      length is its own when positive and what it was otherwise, and reporting is as
      before. */
  lemma EntryReflected(store: Store, e: BoardEntry, newThread: bool)
    ensures var r := ApplyEntry(store, e);
      var posting := ObtainPostingConfiguration(r, e.board, newThread);
      && IsTagSupported(r, e.board, TAG_SPOILER) == (e.spoilers != 0)
      && IsTagSupported(r, e.board, TAG_CODE) == (e.codeTags != 0)
      && posting.attachmentSpoiler == (e.spoilers != 0)
      && posting.hasCountryFlags == (e.countryFlags != 0)
      && IsSafeForWork(r, e.board) == (e.wsBoard != 0)
      && posting.maxCommentLength == (if e.maxCommentChars > 0 then e.maxCommentChars
                                      else ObtainPostingConfiguration(store, e.board, newThread).maxCommentLength)
      && ObtainBoardConfiguration(r, e.board) == ObtainBoardConfiguration(store, e.board)
  {
    EntryStored(store, e);
  }

  /** The stored settings of an entry's board once it is written. */
  lemma EntryStored(store: Store, e: BoardEntry)
    ensures var r := ApplyEntry(store, e);
      var b := Some(e.board);
      && GetBool(r, b, KEY_SPOILERS_ENABLED, false) == (e.spoilers != 0)
      && GetBool(r, b, KEY_CODE_ENABLED, false) == (e.codeTags != 0)
      && GetBool(r, b, KEY_FLAGS_ENABLED, false) == (e.countryFlags != 0)
      && GetBool(r, b, KEY_SAFE_FOR_WORK, false) == (e.wsBoard != 0)
      && GetInt(r, b, KEY_MAX_COMMENT_LENGTH, DEFAULT_MAX_COMMENT_LENGTH) ==
           (if e.maxCommentChars > 0 then e.maxCommentChars
            else GetInt(store, b, KEY_MAX_COMMENT_LENGTH, DEFAULT_MAX_COMMENT_LENGTH))
      && GetString(r, b, KEY_REPORT_REASONS, "") == GetString(store, b, KEY_REPORT_REASONS, "")
  {
    KeysDistinct();
  }

  /** Writing an entry changes nothing read about any other board. */
  lemma OtherBoardUntouched(store: Store, e: BoardEntry, boardName: string)
    requires boardName != e.board
    ensures SameReads(store, ApplyEntry(store, e), boardName)
  {
    var r := ApplyEntry(store, e);
    assert forall key :: GetBool(r, Some(boardName), key, false) == GetBool(store, Some(boardName), key, false);
    assert forall key, d :: GetInt(r, Some(boardName), key, d) == GetInt(store, Some(boardName), key, d);
    assert forall key, d :: GetString(r, Some(boardName), key, d) == GetString(store, Some(boardName), key, d);
  }

  /** A board no written entry names reads as it did before the update. */
  lemma {:induction false} UnnamedBoardUntouched(store: Store, entries: seq<Option<BoardEntry>>, boardName: string)
    requires AllDecoded(entries)
    requires forall k :: 0 <= k < |entries| ==> entries[k].value.board != boardName
    ensures SameReads(store, ApplyEntries(store, entries), boardName)
  {
    if entries != [] {
      var prefix := entries[..|entries| - 1];
      UnnamedBoardUntouched(store, prefix, boardName);
      OtherBoardUntouched(ApplyEntries(store, prefix), entries[|entries| - 1].value, boardName);
    }
  }

  /** The last written entry for a board decides its flags. */
  lemma LastEntryWins(store: Store, entries: seq<Option<BoardEntry>>, i: nat)
    requires AllDecoded(entries) && i < |entries|
    requires forall k :: i < k < |entries| ==> entries[k].value.board != entries[i].value.board
    ensures var r := ApplyEntries(store, entries);
      var e := entries[i].value;
      && IsTagSupported(r, e.board, TAG_SPOILER) == (e.spoilers != 0)
      && IsTagSupported(r, e.board, TAG_CODE) == (e.codeTags != 0)
      && ObtainPostingConfiguration(r, e.board, false).hasCountryFlags == (e.countryFlags != 0)
      && IsSafeForWork(r, e.board) == (e.wsBoard != 0)
  {
    var e := entries[i].value;
    var upTo, rest := entries[..i + 1], entries[i + 1..];
    SplitAfter(entries, i);
    var middle := ApplyEntries(store, upTo);
    assert middle == ApplyEntry(ApplyEntries(store, entries[..i]), e);
    EntryReflected(ApplyEntries(store, entries[..i]), e, false);
    UnnamedBoardUntouched(middle, rest, e.board);
    ApplyEntriesSplit(store, upTo, rest);
    FlagsCarried(middle, ApplyEntries(store, entries), e);
  }

  /** The entries up to i and the ones after it: both decoded, the first ending with
      entry i, the second not naming its board when no later entry does. */
  lemma SplitAfter(entries: seq<Option<BoardEntry>>, i: nat)
    requires AllDecoded(entries) && i < |entries|
    requires forall k :: i < k < |entries| ==> entries[k].value.board != entries[i].value.board
    ensures var upTo, rest := entries[..i + 1], entries[i + 1..];
      && upTo + rest == entries && AllDecoded(upTo) && AllDecoded(rest)
      && upTo[..i] == entries[..i] && upTo[i] == entries[i]
      && forall k :: 0 <= k < |rest| ==> rest[k].value.board != entries[i].value.board
  {
    var rest := entries[i + 1..];
    assert entries[..i + 1] + rest == entries;
    forall k | 0 <= k < |rest| ensures rest[k].value.board != entries[i].value.board {
      assert rest[k] == entries[i + 1 + k];
    }
  }

  /** The flags read for an entry's board carry over to a store that reads the same. */
  lemma FlagsCarried(store: Store, store': Store, e: BoardEntry)
    requires SameReads(store, store', e.board)
    requires IsTagSupported(store, e.board, TAG_SPOILER) == (e.spoilers != 0)
    requires IsTagSupported(store, e.board, TAG_CODE) == (e.codeTags != 0)
    requires ObtainPostingConfiguration(store, e.board, false).hasCountryFlags == (e.countryFlags != 0)
    requires IsSafeForWork(store, e.board) == (e.wsBoard != 0)
    ensures IsTagSupported(store', e.board, TAG_SPOILER) == (e.spoilers != 0)
    ensures IsTagSupported(store', e.board, TAG_CODE) == (e.codeTags != 0)
    ensures ObtainPostingConfiguration(store', e.board, false).hasCountryFlags == (e.countryFlags != 0)
    ensures IsSafeForWork(store', e.board) == (e.wsBoard != 0)
  {
    assert IsTagSupported(store', e.board, TAG_SPOILER) == IsTagSupported(store, e.board, TAG_SPOILER);
    assert IsTagSupported(store', e.board, TAG_CODE) == IsTagSupported(store, e.board, TAG_CODE);
    assert ObtainPostingConfiguration(store', e.board, false) == ObtainPostingConfiguration(store, e.board, false);
  }

  /** Writing two runs of entries is writing the first, then the second. */
  lemma {:induction false} ApplyEntriesSplit(store: Store, first: seq<Option<BoardEntry>>, second: seq<Option<BoardEntry>>)
    requires AllDecoded(first) && AllDecoded(second)
    ensures AllDecoded(first + second)
    ensures ApplyEntries(store, first + second) == ApplyEntries(ApplyEntries(store, first), second)
  {
    var all := first + second;
    if second == [] {
      assert all == first;
    } else {
      assert all[..|all| - 1] == first + second[..|second| - 1];
      assert all[|all| - 1] == second[|second| - 1];
      ApplyEntriesSplit(store, first, second[..|second| - 1]);
    }
  }

  /** The bump limit of a board changes only through an entry with a non-zero one. */
  lemma {:induction false} BumpLimitOnlyNonZero(bumpLimits: map<string, int>, entries: seq<Option<BoardEntry>>,
                                                boardName: string)
    requires AllDecoded(entries)
    requires forall k :: 0 <= k < |entries| && entries[k].value.board == boardName ==>
      entries[k].value.bumpLimit == 0
    ensures var r := ApplyBumpLimits(bumpLimits, entries);
      (boardName in r <==> boardName in bumpLimits) && (boardName in r ==> r[boardName] == bumpLimits[boardName])
  {
    if entries != [] {
      BumpLimitOnlyNonZero(bumpLimits, entries[..|entries| - 1], boardName);
    }
  }

  /** A decoding error ends the update: what follows it is never written. */
  lemma {:induction false} ErrorEndsUpdate(entries: seq<Option<BoardEntry>>, i: nat)
    requires i < |entries| && entries[i].None?
    ensures Processed(entries) == Processed(entries[..i]) <= i
  {
    if entries[0].Some? {
      assert entries[1..][..i - 1] == entries[..i][1..];
      ErrorEndsUpdate(entries[1..], i - 1);
    }
  }

  /** A report-reasons string makes a board reportable exactly when it is not empty. */
  lemma ReportingReflected(store: Store, boardName: string, serialized: string)
    ensures var r := store[StoreKey(Some(boardName), KEY_REPORT_REASONS) := StringValue(serialized)];
      ObtainBoardConfiguration(r, boardName).allowReporting <==> serialized != []
  {
  }

  /** The entries up to a decoded one below the error are all decoded, and writing them
      is writing the ones before and then that one. */
  lemma DecodedStep(entries: seq<Option<BoardEntry>>, i: nat)
    requires i < Processed(entries) || (i <= Processed(entries) && i < |entries| && entries[i].Some?)
    ensures i + 1 <= Processed(entries)
    ensures AllDecoded(entries[..i + 1]) && entries[..i + 1][..i] == entries[..i]
    ensures entries[..i + 1][i] == entries[i]
  {
  }

  /** An error at i stops the update there. */
  lemma DecodedStop(entries: seq<Option<BoardEntry>>, i: nat)
    requires i <= Processed(entries) && i < |entries| && entries[i].None?
    ensures i == Processed(entries)
  {
  }

  class FourchanChanConfiguration {
    /** The settings stored through set. */
    var values: Store
    /** The bump limits stored through storeBumpLimit. */
    var bumpLimits: map<string, int>

    constructor ()
      ensures values == map[] && bumpLimits == map[]
    {
      values := map[];
      bumpLimits := map[];
    }

    /** updateFromBoardsJson: each entry's settings in turn, until an entry whose decoding
        throws, which ends the update silently and keeps what was written. */
    method UpdateFromBoardsJson(entries: seq<Option<BoardEntry>>)
      modifies this
      ensures values == ApplyEntries(old(values), entries[..Processed(entries)])
      ensures bumpLimits == ApplyBumpLimits(old(bumpLimits), entries[..Processed(entries)])
    {
      var i := 0;
      while i < |entries| && entries[i].Some?
        invariant 0 <= i <= Processed(entries)
        invariant values == ApplyEntries(old(values), entries[..i])
        invariant bumpLimits == ApplyBumpLimits(old(bumpLimits), entries[..i])
      {
        StoreEntry(entries[i].value);
        DecodedStep(entries, i);
        i := i + 1;
      }
      if i < |entries| {
        DecodedStop(entries, i);
      }
    }

    /** The body of the update loop for one decoded board. */
    method StoreEntry(e: BoardEntry)
      modifies this
      ensures values == ApplyEntry(old(values), e)
      ensures bumpLimits == ApplyBumpLimit(old(bumpLimits), e)
    {
      var b := Some(e.board);
      values := values[StoreKey(b, KEY_SPOILERS_ENABLED) := BoolValue(e.spoilers != 0)];
      values := values[StoreKey(b, KEY_CODE_ENABLED) := BoolValue(e.codeTags != 0)];
      values := values[StoreKey(b, KEY_FLAGS_ENABLED) := BoolValue(e.countryFlags != 0)];
      if e.bumpLimit != 0 {
        bumpLimits := bumpLimits[e.board := e.bumpLimit];
      }
      if e.maxCommentChars > 0 {
        values := values[StoreKey(b, KEY_MAX_COMMENT_LENGTH) := IntValue(e.maxCommentChars)];
      }
      values := values[StoreKey(b, KEY_SAFE_FOR_WORK) := BoolValue(e.wsBoard != 0)];
    }

    /** updateReportingConfiguration: the serialized report reasons of a board. */
    method UpdateReportingConfiguration(boardName: string, serialized: string)
      modifies this`values
      ensures values == old(values)[StoreKey(Some(boardName), KEY_REPORT_REASONS) := StringValue(serialized)]
    {
      values := values[StoreKey(Some(boardName), KEY_REPORT_REASONS) := StringValue(serialized)];
    }
  }
}
