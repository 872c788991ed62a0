/** The enable flags of the Previous, Inbox and Next thumbnail buttons. */
module Buttons {
  import opened Connection
  import opened Cursor

  datatype ButtonFlags = ButtonFlags(prev: bool, inbox: bool, next: bool)

  /** UpdateThumbButtonsStatus: the flags as a function of status, Unread and the index. */
  function ThumbButtonStatus(status: Status, unread: int, index: int): ButtonFlags {
    ButtonFlags(index != 0, status == OK, index < PageSize(unread) - 1)
  }

  /**
   * The flags UpdateMailPreview leaves: those of UpdateThumbButtonsStatus, with
   * Previous and Next switched off again when the status is not OK.
   */
  function PreviewButtons(status: Status, unread: int, index: int): (b: ButtonFlags)
    ensures status != OK ==> !b.prev && !b.inbox && !b.next
    ensures status == OK ==> b.inbox && (b.prev <==> index != 0) && (b.next <==> index + 1 < PageSize(unread))
  {
    var flags := ThumbButtonStatus(status, unread, index);
    if status == OK then flags else flags.(prev := false, next := false)
  }

  /** An enabled Next button always lands on an existing entry of the page. */
  lemma EnabledNextStaysOnPage(status: Status, unread: int, index: int)
    requires 0 <= index && ThumbButtonStatus(status, unread, index).next
    ensures Next(index, unread) == index + 1 <= PageSize(unread) - 1
  {
  }

  /** An enabled Previous button always moves the index, and never below 0. */
  lemma EnabledPrevMoves(status: Status, unread: int, index: int)
    requires 0 <= index && ThumbButtonStatus(status, unread, index).prev
    ensures Prev(index) == index - 1 >= 0
  {
  }

  /**
   * The two bounds disagree at exactly one index, the last entry of the page: there
   * the Next button is disabled, yet the click handler would still advance, to the
   * slot one past the last entry. Everywhere else in range they agree.
   */
  lemma NextBoundsDisagreeAtLastEntry(status: Status, unread: int, index: int)
    requires 0 <= index
    ensures index == PageSize(unread) - 1 ==>
              !ThumbButtonStatus(status, unread, index).next && Next(index, unread) == PageSize(unread)
    ensures index != PageSize(unread) - 1 ==>
              (ThumbButtonStatus(status, unread, index).next <==> Next(index, unread) == index + 1)
  {
  }
}
