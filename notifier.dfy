/**
 * The notifier form of one account, with its window, taskbar and WebClient glue taken
 * away: what is left is the mail-status state machine behind it.
 */
module Forms {
  import opened Wrappers
  import opened Connection
  import opened Cursor
  import opened Buttons
  import opened Feed
  import opened Preview

  class Notifier {
    const accountIndex: nat
    /**
     * XmlDocument.LoadXml, the /feed/fullcount and /feed/entry queries and
     * Convert.ToInt32 together: None when LoadXml throws, /feed/fullcount is
     * missing (its InnerText then throws), or Convert.ToInt32 throws.
     */
    const parse: string -> Option<FeedDocument>
    const links: Links
    /** The locale's text for a mail without a subject. */
    const noSubject: string

    var connectionStatus: Status
    var unread: int
    var mailIndex: int
    var mailUrl: string
    var xmlMail: Option<seq<XmlNode>>
    /** WebClient.IsBusy: a download is in flight. */
    var busy: bool
    var view: View
    var buttons: ButtonFlags

    /** Downloads started, downloads completed, and each CheckMailFinished with the status it saw. */
    ghost var fetchesIssued: nat
    ghost var completions: nat
    ghost var notifications: seq<Status>

    /** Everything Valid asks except the tie of the mail URL to the status, which a preview update restores. */
    ghost predicate Settled()
      reads this
    {
      && InRange(mailIndex, unread)
      && (xmlMail.None? ==> unread == 0 && mailIndex == 0)
      && fetchesIssued == completions + (if busy then 1 else 0)
      && |notifications| <= completions
    }

    /**
     * The object invariant: the index stays within min(Unread, 20); before the first
     * feed there is no unread mail; at most one download is in flight; at most one
     * notification per completed download; a mail URL is kept only for an OK
     * account with unread mail; and an enabled button is never stale: Previous only
     * off the first entry, Next only before the last entry of the page, Inbox only
     * when OK.
     */
    ghost predicate Valid()
      reads this
    {
      && Settled()
      && (mailUrl != [] ==> connectionStatus == OK && unread > 0)
      && (buttons.prev ==> mailIndex != 0)
      && (buttons.next ==> mailIndex + 1 < PageSize(unread))
      && (buttons.inbox ==> connectionStatus == OK)
    }

    /** The view, the URL and the fault the current state calls for. */
    function CurrentPreview(): Result<View, Fault>
      reads this
    {
      Render(connectionStatus, unread, mailIndex, xmlMail, accountIndex, links, noSubject)
    }

    /** The state UpdateMailPreview leaves, given the view it started from. */
    ghost predicate Refreshed(fault: Option<Fault>, before: View)
      reads this
    {
      var r := CurrentPreview();
      && buttons == PreviewButtons(connectionStatus, unread, mailIndex)
      && fault == (if r.Threw? then Some(r.error) else None)
      && mailUrl == (if r.Returned? then ShownUrl(r.value) else [])
      && view == (if r.Returned? then r.value else before)
    }

    /** The parsed feed a completion carries, after the root-tag rewrite. */
    function FeedOf(outcome: Completion): Option<FeedDocument> {
      match outcome
      case Downloaded(xml) => parse(NormalizeRoot(xml))
      case Failed(_) => None
    }

    /**
     * A new form: status OK (the enum's default), no unread mail, no entries, no
     * download, and the flags Notifier_Shown sets from that state.
     */
    constructor (accountIndex: nat, parse: string -> Option<FeedDocument>, links: Links, noSubject: string)
      ensures Valid()
      ensures this.accountIndex == accountIndex && this.parse == parse
      ensures this.links == links && this.noSubject == noSubject
      ensures connectionStatus == OK && unread == 0 && mailIndex == 0 && mailUrl == []
      ensures xmlMail == None && !busy && view == BlankView
      ensures buttons == ThumbButtonStatus(OK, 0, 0)
      ensures fetchesIssued == 0 && completions == 0 && notifications == []
    {
      this.accountIndex := accountIndex;
      this.parse := parse;
      this.links := links;
      this.noSubject := noSubject;
      connectionStatus := OK;
      unread := 0;
      mailIndex := 0;
      mailUrl := [];
      xmlMail := None;
      busy := false;
      view := BlankView;
      buttons := ThumbButtonStatus(OK, 0, 0);
      fetchesIssued := 0;
      completions := 0;
      notifications := [];
    }

    /**
     * UpdateMailPreview: clears the mail URL, sets the button flags, then shows the
     * view the state calls for, or throws while reading the current entry.
     */
    method UpdateMailPreview() returns (fault: Option<Fault>)
      requires Settled()
      modifies this`mailUrl, this`view, this`buttons
      ensures Valid()
      ensures Refreshed(fault, old(view))
    {
      mailUrl := [];
      buttons := ThumbButtonStatus(connectionStatus, unread, mailIndex);
      var r := Render(connectionStatus, unread, mailIndex, xmlMail, accountIndex, links, noSubject);
      match r
      case Threw(e) =>
        fault := Some(e);
      case Returned(v) =>
        view := v;
        mailUrl := ShownUrl(v);
        fault := None;
        if connectionStatus != OK {
          buttons := buttons.(prev := false, next := false);
        }
    }

    /** _ButtonPrev_Click: one entry back and a preview update, or nothing at the first entry. */
    method PrevClick() returns (fault: Option<Fault>)
      requires Valid()
      modifies this`mailIndex, this`mailUrl, this`view, this`buttons
      ensures Valid()
      ensures mailIndex == Prev(old(mailIndex))
      ensures old(mailIndex) == 0 ==> fault == None && unchanged(this)
      ensures old(mailIndex) != 0 ==> Refreshed(fault, old(view))
    {
      fault := None;
      if mailIndex > 0 {
        mailIndex := mailIndex - 1;
        fault := UpdateMailPreview();
      }
    }

    /**
     * _ButtonNext_Click: one entry forward and a preview update while the index is
     * below min(Unread, 20), nothing otherwise.
     */
    method NextClick() returns (fault: Option<Fault>)
      requires Valid()
      modifies this`mailIndex, this`mailUrl, this`view, this`buttons
      ensures Valid()
      ensures mailIndex == Next(old(mailIndex), unread)
      ensures mailIndex == old(mailIndex) ==> fault == None && unchanged(this)
      ensures mailIndex != old(mailIndex) ==> Refreshed(fault, old(view))
    {
      fault := None;
      var num := PageSize(unread);
      if mailIndex < num {
        mailIndex := mailIndex + 1;
        fault := UpdateMailPreview();
      }
    }

    /**
     * CheckMail: nothing while a download is in flight; otherwise builds the
     * credential and the feed URI and starts the download. requestBuilt is false when
     * building them throws; the exception is swallowed and nothing changes. The
     * "connecting" text goes to the status label, which a shown mail preview hides,
     * so only a status view turns into the checking view.
     */
    method CheckMail(requestBuilt: bool) returns (issued: bool)
      requires Valid()
      modifies this`busy, this`view, this`fetchesIssued
      ensures Valid()
      ensures issued <==> !old(busy) && requestBuilt
      ensures busy <==> old(busy) || issued
      ensures fetchesIssued == old(fetchesIssued) + (if issued then 1 else 0)
      ensures view == (if issued && !old(view).MailView? then CheckingView else old(view))
    {
      issued := false;
      if busy {
        return;
      }
      if requestBuilt {
        busy := true;
        fetchesIssued := fetchesIssued + 1;
        issued := true;
        if !view.MailView? {
          view := CheckingView;
        }
      }
    }

    /**
     * _WebClient_DownloadDataCompleted. A download that arrived sets OK first; a feed
     * that parses replaces Unread and the entries and rewinds the index, while one
     * that does not parse throws before anything else changes. A failed download
     * sets the classified status and keeps Unread, the entries and the index. Unless
     * the handler has thrown, the preview is updated and CheckMailFinished is raised,
     * once, after the status is set.
     */
    method DownloadDataCompleted(outcome: Completion) returns (malformed: bool, fault: Option<Fault>)
      requires Valid() && busy
      modifies this
      ensures Valid()
      ensures !busy && completions == old(completions) + 1 && fetchesIssued == old(fetchesIssued)
      ensures connectionStatus == (if outcome.Downloaded? then OK else Classify(outcome.error))
      ensures FeedOf(outcome).Some? ==>
                && unread == FeedOf(outcome).value.fullcount
                && xmlMail == Some(FeedOf(outcome).value.entries)
                && mailIndex == 0
      ensures FeedOf(outcome).None? ==>
                unread == old(unread) && xmlMail == old(xmlMail) && mailIndex == old(mailIndex)
      ensures malformed <==> outcome.Downloaded? && FeedOf(outcome).None?
      ensures malformed ==>
                && fault == None && mailUrl == old(mailUrl) && view == old(view)
                && buttons == old(buttons) && notifications == old(notifications)
      ensures !malformed ==>
                && Refreshed(fault, old(view))
                && notifications == old(notifications) + (if fault == None then [connectionStatus] else [])
    {
      malformed := Receive(outcome);
      fault := None;
      if !malformed {
        fault := UpdateMailPreview();
        if fault == None {
          notifications := notifications + [connectionStatus];
        }
      }
    }

    /**
     * The part of the handler before the preview update: the download is over, and
     * the status, Unread, the entries and the index take what the outcome brings.
     */
    method Receive(outcome: Completion) returns (malformed: bool)
      requires Valid() && busy
      modifies this`busy, this`completions, this`connectionStatus, this`unread, this`xmlMail, this`mailIndex
      ensures Settled() && (malformed ==> Valid())
      ensures !busy && completions == old(completions) + 1
      ensures connectionStatus == (if outcome.Downloaded? then OK else Classify(outcome.error))
      ensures FeedOf(outcome).Some? ==>
                && unread == FeedOf(outcome).value.fullcount
                && xmlMail == Some(FeedOf(outcome).value.entries)
                && mailIndex == 0
      ensures FeedOf(outcome).None? ==>
                unread == old(unread) && xmlMail == old(xmlMail) && mailIndex == old(mailIndex)
      ensures malformed <==> outcome.Downloaded? && FeedOf(outcome).None?
    {
      busy := false;
      completions := completions + 1;
      malformed := false;
      match outcome {
        case Downloaded(xml) =>
          connectionStatus := OK;
          var doc := parse(NormalizeRoot(xml));
          if doc.None? {
            malformed := true;
            return;
          }
          unread := doc.value.fullcount;
          xmlMail := Some(doc.value.entries);
          mailIndex := 0;
        case Failed(error) =>
          connectionStatus := Classify(error);
      }
    }

    /**
     * OpenCurrentMail's choice of page: the current mail's URL when there is one, the
     * account's inbox otherwise, and always the inbox unless the account is OK with
     * unread mail.
     */
    method OpenCurrentMail() returns (target: Url)
      requires Valid()
      ensures mailUrl != [] ==> target == mailUrl
      ensures mailUrl == [] ==> target == links.inbox(accountIndex)
      ensures connectionStatus != OK || unread <= 0 ==> target == links.inbox(accountIndex)
    {
      if mailUrl == [] {
        target := links.inbox(accountIndex);
      } else {
        target := mailUrl;
      }
    }
  }
}
