/** The Sojakparty site configuration (SojakpartyChanConfiguration.java): fixed capability
    tables, one exception for the "layer" board, and the captcha switch. Nothing is read
    from the store. */
module Sojakparty {
  import opened Wrappers
  import opened ChanConfig

  const CAPTCHA_TYPE_NONE: string := "None"
  const MIME_TYPES: seq<string> :=
    ["application/pdf", "audio/*", "image/*", "video/webm", "video/mp4"]

  /** The board where names, tripcodes, e-mails and sage are not accepted. */
  predicate IsLayer(boardName: string) {
    boardName == "layer"
  }

  /** Every board can be browsed, posted to, deleted from and reported to. */
  function ObtainBoardConfiguration(boardName: string): (board: Board)
    ensures board.allowCatalog && board.allowPosting && board.allowDeleting && board.allowReporting
    ensures !board.allowCatalogSearch && !board.allowArchive
  {
    NewBoard.(allowCatalog := true, allowPosting := true, allowDeleting := true, allowReporting := true)
  }

  function ObtainPostingConfiguration(boardName: string, newThread: bool): (posting: Posting)
    ensures posting.allowName == posting.allowTripcode == posting.allowEmail == posting.optionSage
    ensures posting.allowName <==> !IsLayer(boardName)
    ensures posting.allowSubject && posting.attachmentSpoiler && !posting.hasCountryFlags
    ensures posting.attachmentCount == 4 && posting.attachmentMimeTypes == MIME_TYPES
    ensures posting.maxCommentLength == NewPosting.maxCommentLength
  {
    var namesAndEmails := !IsLayer(boardName);
    NewPosting.(
      allowName := namesAndEmails,
      allowTripcode := namesAndEmails,
      allowEmail := namesAndEmails,
      allowSubject := true,
      optionSage := namesAndEmails,
      attachmentCount := 4,
      attachmentMimeTypes := MIME_TYPES,
      attachmentSpoiler := true)
  }

  /** Only the "None" captcha is described here: titled "None", any input, valid for the
      whole board. Any other type gets null. */
  function ObtainCustomCaptchaConfiguration(captchaType: string): (r: Option<Captcha>)
    ensures r.Some? <==> captchaType == CAPTCHA_TYPE_NONE
    ensures r.Some? ==> r.value.title == captchaType && r.value.input == All && r.value.validity == InBoard
  {
    match captchaType
    case "None" => Some(Captcha(CAPTCHA_TYPE_NONE, All, InBoard))
    case _ => None
  }

  /** No custom preference exists. */
  function ObtainCustomPreferenceConfiguration(key: string): (r: Option<CustomPreference>)
    ensures r.None?
  {
    None
  }

  /** The posting rules do not depend on whether a thread is being started, and every
      board other than "layer" gets the same ones. */
  lemma PostingUniform(a: string, b: string, newThread: bool, newThread': bool)
    requires !IsLayer(a) && !IsLayer(b)
    ensures ObtainPostingConfiguration(a, newThread) == ObtainPostingConfiguration(b, newThread')
  {
  }

  /** The capabilities of a board do not depend on its name. */
  lemma BoardUniform(a: string, b: string)
    ensures ObtainBoardConfiguration(a) == ObtainBoardConfiguration(b)
  {
  }
}
