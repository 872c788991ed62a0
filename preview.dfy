/**
 * What UpdateMailPreview derives from the state before it touches any label: which
 * view to show and, for an OK account with unread mail, the current entry's subject,
 * summary, timestamp, page label, sender and link.
 */
module Preview {
  import opened Wrappers
  import opened Connection
  import opened Cursor
  import opened Feed

  /** A URL produced by the account's URL builder: never empty. */
  type Url = s: string | s != [] witness "/"

  /** UrlHelper.BuildMailUrl and UrlHelper.BuildInboxUrl, whose code is not part of this model. */
  datatype Links = Links(mail: (string, nat) -> Url, inbox: nat -> Url)

  /** The "i/N" label: the 1-based position of the entry and the page size. */
  datatype PageLabel = PageLabel(position: int, total: int)

  datatype MailPreview = MailPreview(
    title: string, message: string, stamp: string, page: PageLabel, sender: string, url: Url)

  /** What the form shows; BlankView is the designer's state before any update. */
  datatype View =
    | BlankView | CheckingView | NoMailView | WarningView | OfflineView
    | MailView(mail: MailPreview)

  /**
   * Why UpdateMailPreview throws a NullReferenceException: the current entry is
   * missing (no entry list, or the index is past its end), an entry has no child at
   * the position read, or its link child has no href attribute.
   */
  datatype Fault = NoEntry | NoChild(position: int) | NoHref

  /** XmlMail[_MailIndex]: null when there is no list or the index is out of range. */
  function EntryAt(mail: Option<seq<XmlNode>>, index: int): (e: Option<XmlNode>)
    ensures e.Some? <==> mail.Some? && 0 <= index < |mail.value|
    ensures e.Some? ==> e.value == mail.value[index]
  {
    match mail
    case None => None
    case Some(entries) => Item(entries, index)
  }

  /** An entry UpdateMailPreview can read without throwing. */
  ghost predicate Readable(entry: XmlNode) {
    |entry.childNodes| >= 4 && entry.childNodes[2].href.Some?
  }

  /** The subject line, with the locale's no-subject text standing in for an empty one. */
  function Title(subject: string, noSubject: string): (t: string)
    ensures noSubject != [] ==> t != []
  {
    if subject == [] then noSubject else subject
  }

  /**
   * The sender: the text of child 1 of child 6, and empty whenever
   * either is missing.
   */
  function Sender(entry: XmlNode): (s: string)
    ensures |entry.childNodes| <= 6 || |entry.childNodes[6].childNodes| <= 1 ==> s == []
    ensures |entry.childNodes| > 6 && |entry.childNodes[6].childNodes| > 1 ==>
              s == entry.childNodes[6].childNodes[1].innerText
  {
    match Item(entry.childNodes, 6)
    case None => []
    case Some(child6) =>
      match Item(child6.childNodes, 1)
      case None => []
      case Some(node) => node.innerText
  }

  /**
   * The preview of one entry, reading its children in the order the form does:
   * child 3 (the timestamp), child 0 (the subject), child 1 (the summary), then the
   * href of child 2 (the link).
   */
  function Compose(entry: XmlNode, index: int, unread: int, account: nat, links: Links, noSubject: string)
    : (r: Result<MailPreview, Fault>)
    ensures r.Returned? <==> Readable(entry)
    ensures r.Threw? ==> r.error == (if |entry.childNodes| < 4 then NoChild(3) else NoHref)
    ensures r.Returned? ==>
              var m := r.value;
              && m.title == Title(entry.childNodes[0].innerText, noSubject)
              && m.message == entry.childNodes[1].innerText
              && m.stamp == NormalizeTimestamp(entry.childNodes[3].innerText)
              && m.page == PageLabel(index + 1, PageSize(unread))
              && m.sender == Sender(entry)
              && m.url == links.mail(entry.childNodes[2].href.value, account)
  {
    var children := entry.childNodes;
    match Item(children, 3)
    case None => Threw(NoChild(3))
    case Some(stampNode) =>
      match Item(children, 0)
      case None => Threw(NoChild(0))
      case Some(subject) =>
        match Item(children, 1)
        case None => Threw(NoChild(1))
        case Some(summary) =>
          match Item(children, 2)
          case None => Threw(NoChild(2))
          case Some(link) =>
            match link.href
            case None => Threw(NoHref)
            case Some(href) =>
              Returned(MailPreview(
                Title(subject.innerText, noSubject), summary.innerText,
                NormalizeTimestamp(stampNode.innerText), PageLabel(index + 1, PageSize(unread)),
                Sender(entry), links.mail(href, account)))
  }

  /** The mail URL the preview leaves behind: the entry's link, or empty. */
  function ShownUrl(v: View): string {
    if v.MailView? then v.mail.url else []
  }

  /**
   * The view for a status: the warning for a failed login, the offline view, and for
   * OK the current entry when there is unread mail or the no-mail view otherwise.
   */
  function Render(status: Status, unread: int, index: int, mail: Option<seq<XmlNode>>,
                  account: nat, links: Links, noSubject: string): (r: Result<View, Fault>)
    ensures r.Threw? <==>
              status == OK && unread > 0 && (EntryAt(mail, index).None? || !Readable(EntryAt(mail, index).value))
    ensures r.Threw? && EntryAt(mail, index).None? ==> r.error == NoEntry
    ensures r.Returned? ==> (ShownUrl(r.value) != [] <==> status == OK && unread > 0)
    ensures r.Returned? ==> (r.value == WarningView <==> status == AuthenticationFailed)
    ensures r.Returned? ==> (r.value == OfflineView <==> status == Offline)
    ensures r.Returned? ==> (r.value == NoMailView <==> status == OK && unread <= 0)
    ensures r.Returned? && r.value.MailView? ==>
              && EntryAt(mail, index).Some?
              && Compose(EntryAt(mail, index).value, index, unread, account, links, noSubject) == Returned(r.value.mail)
    ensures r.Returned? && r.value.MailView? ==>
              var subject := EntryAt(mail, index).value.childNodes[0].innerText;
              r.value.mail.title == if subject == [] then noSubject else subject
    ensures r.Returned? && r.value.MailView? ==>
              var page := r.value.mail.page;
              && page == PageLabel(index + 1, PageSize(unread))
              && 1 <= page.total <= FeedMax
              && (index >= 0 ==> page.position >= 1)
              && page.position <= |mail.value|
  {
    match status
    case AuthenticationFailed => Returned(WarningView)
    case Offline => Returned(OfflineView)
    case OK =>
      if unread <= 0 then Returned(NoMailView)
      else
        match EntryAt(mail, index)
        case None => Threw(NoEntry)
        case Some(entry) =>
          match Compose(entry, index, unread, account, links, noSubject)
          case Threw(e) => Threw(e)
          case Returned(m) => Returned(MailView(m))
  }

  /**
   * The overshoot of the Next handler, one past the last entry of the page: when the
   * feed lists no more entries than the page holds, the preview finds no entry and
   * throws; when it lists more, the next entry is shown with a position one above
   * the label's total.
   */
  lemma OvershootDependsOnFeedLength(unread: int, mail: seq<XmlNode>, account: nat, links: Links, noSubject: string)
    requires unread > 0
    ensures |mail| <= PageSize(unread) ==>
              Render(OK, unread, PageSize(unread), Some(mail), account, links, noSubject) == Threw(NoEntry)
    ensures |mail| > PageSize(unread) && Readable(mail[PageSize(unread)]) ==>
              var r := Render(OK, unread, PageSize(unread), Some(mail), account, links, noSubject);
              && r.Returned? && r.value.MailView?
              && r.value.mail.page == PageLabel(PageSize(unread) + 1, PageSize(unread))
  {
  }
}
