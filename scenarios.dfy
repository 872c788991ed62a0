/**
 * Client runs of the notifier: what a caller can conclude from the contracts of
 * Forms.Notifier alone, for a three-mail feed and for the failure outcomes.
 */
module Scenarios {
  import opened Wrappers
  import Text
  import opened Connection
  import opened Feed
  import opened Preview
  import opened Forms

  const TestLinks: Links := Links((href, account) => "https://mail.example/" + href, account => "https://mail.example/inbox")

  /**
   * An entry whose children 0 to 3 are the subject, the summary, the link and the
   * timestamp, and whose child 6 holds the sender's name as its child 1.
   */
  function Entry(subject: string, href: string): XmlNode {
    XmlNode([], None, [
      XmlNode(subject, None, []),
      XmlNode("summary", None, []),
      XmlNode([], Some(href), []),
      XmlNode(EndOfDay, None, []),
      XmlNode([], None, []),
      XmlNode([], None, []),
      XmlNode([], None, [XmlNode([], None, []), XmlNode("Ann", None, [])])])
  }

  /** A timestamp in the end-of-day form, hour 24. */
  const EndOfDay: string := "2010-05-01" + "T24:" + "10:00:00Z"

  /** The end-of-day timestamp is shown as hour 00 of the same date. */
  lemma EndOfDayShownAsMidnight()
    ensures NormalizeTimestamp(EndOfDay) == "2010-05-01" + "T00:" + "10:00:00Z"
  {
    var date, clock := "2010-05-01", "10:00:00Z";
    assert Text.Lacks(date, 'T') && Text.Lacks(clock, 'T');
    HourTwentyFourBecomesMidnight(date, clock);
  }

  const ThreeMails: FeedDocument := FeedDocument(3, [Entry("a", "1"), Entry("", "2"), Entry("c", "3")])

  /** Two CheckMail calls before the first download completes start one download. */
  method RapidChecksStartOneDownload() returns (first: bool, second: bool)
    ensures first && !second
  {
    var n := new Notifier(0, _ => None, TestLinks, "(no subject)");
    first := n.CheckMail(true);
    second := n.CheckMail(true);
  }

  /** A request that cannot be built is dropped: no download, no busy flag, status kept. */
  method UnbuildableRequestIsDropped() returns (issued: bool, busy: bool, status: Status)
    ensures !issued && !busy && status == OK
  {
    var n := new Notifier(0, _ => None, TestLinks, "(no subject)");
    issued := n.CheckMail(false);
    busy := n.busy;
    status := n.connectionStatus;
  }

  /** The "i/N" page labels after each of two Next clicks from the first of three mails. */
  method ForwardWalk(n: Notifier) returns (pages: seq<PageLabel>, title: string, stamp: string)
    requires n.Valid() && n.connectionStatus == OK && n.unread == 3
    requires n.xmlMail == Some(ThreeMails.entries) && n.mailIndex == 0
    modifies n
    ensures n.Valid() && n.mailIndex == 2 && n.unread == 3 && n.connectionStatus == OK
    ensures n.xmlMail == Some(ThreeMails.entries)
    ensures pages == [PageLabel(2, 3), PageLabel(3, 3)] && !n.buttons.next
    ensures title == n.noSubject && stamp == "2010-05-01" + "T00:" + "10:00:00Z"
  {
    var fault := n.NextClick();
    assert Readable(ThreeMails.entries[1]);
    assert n.view.MailView?;
    pages := [n.view.mail.page];
    title := n.view.mail.title;
    EndOfDayShownAsMidnight();
    stamp := n.view.mail.stamp;
    fault := n.NextClick();
    assert Readable(ThreeMails.entries[2]);
    assert n.view.MailView?;
    pages := pages + [n.view.mail.page];
  }

  /** A new notifier for an account with three unread mails, checked once: page 1/3. */
  method CheckedThreeMails() returns (n: Notifier, page: PageLabel)
    ensures fresh(n) && n.Valid() && n.connectionStatus == OK && n.unread == 3
    ensures n.xmlMail == Some(ThreeMails.entries) && n.mailIndex == 0
    ensures n.noSubject == "(no subject)" && n.notifications == [OK]
    ensures page == PageLabel(1, 3)
  {
    n := new Notifier(0, _ => Some(ThreeMails), TestLinks, "(no subject)");
    var issued := n.CheckMail(true);
    var malformed, fault := n.DownloadDataCompleted(Downloaded("<feed/>"));
    assert Readable(ThreeMails.entries[0]);
    assert n.view.MailView?;
    page := n.view.mail.page;
  }

  /** Two Previous clicks from the third mail: page labels 2/3 and 1/3, back at index 0. */
  method BackwardWalk(n: Notifier) returns (pages: seq<PageLabel>)
    requires n.Valid() && n.connectionStatus == OK && n.unread == 3
    requires n.xmlMail == Some(ThreeMails.entries) && n.mailIndex == 2
    modifies n
    ensures n.unread == 3 && n.mailIndex == 0
    ensures pages == [PageLabel(2, 3), PageLabel(1, 3)]
  {
    var fault := n.PrevClick();
    assert Readable(ThreeMails.entries[1]);
    assert n.view.MailView?;
    pages := [n.view.mail.page];
    fault := n.PrevClick();
    assert Readable(ThreeMails.entries[0]);
    assert n.view.MailView?;
    pages := pages + [n.view.mail.page];
  }

  /**
   * Three unread mails: the pages read 1/3, 2/3, 3/3 going forward and 2/3, 1/3
   * coming back; the second mail's empty subject shows the no-subject text, and the
   * hour 24 of its timestamp is shown as hour 00.
   */
  method ThreeMailWalk() returns (pages: seq<PageLabel>, title: string, stamp: string, ghost notified: seq<Status>)
    ensures pages == [PageLabel(1, 3), PageLabel(2, 3), PageLabel(3, 3), PageLabel(2, 3), PageLabel(1, 3)]
    ensures title == "(no subject)" && stamp == "2010-05-01" + "T00:" + "10:00:00Z"
    ensures notified == [OK]
  {
    var n, first := CheckedThreeMails();
    notified := n.notifications;
    var forward, backward;
    forward, title, stamp := ForwardWalk(n);
    backward := BackwardWalk(n);
    pages := [first] + forward + backward;
  }

  /**
   * At the last of three mails the Next button is disabled, yet a click still
   * advances to index 3, where the preview update finds no entry and throws.
   */
  method NextPastLastEntry() returns (nextEnabled: bool, index: int, fault: Option<Fault>)
    ensures !nextEnabled && index == 3 && fault == Some(NoEntry)
  {
    var n, page := CheckedThreeMails();
    var pages, title, stamp := ForwardWalk(n);
    nextEnabled := n.buttons.next;
    fault := n.NextClick();
    index := n.mailIndex;
  }

  /**
   * A rejected login after a good check: the status is AuthenticationFailed, the
   * warning is shown, the Inbox button is disabled (OpenCurrentMail would choose
   * the inbox, as no mail URL is kept), and the unread count of the earlier check
   * is kept.
   */
  method RejectedLoginAfterMail() returns (status: Status, view: View, unread: int, inboxEnabled: bool, target: Url)
    ensures status == AuthenticationFailed && view == WarningView && unread == 3
    ensures !inboxEnabled
    ensures target == TestLinks.inbox(0)
  {
    var n := new Notifier(0, _ => Some(ThreeMails), TestLinks, "(no subject)");
    var issued := n.CheckMail(true);
    var malformed, fault := n.DownloadDataCompleted(Downloaded("<feed/>"));
    issued := n.CheckMail(true);
    malformed, fault := n.DownloadDataCompleted(Failed(ProtocolError));
    status, view, unread, inboxEnabled := n.connectionStatus, n.view, n.unread, n.buttons.inbox;
    target := n.OpenCurrentMail();
  }

  /** A refused connection gives Offline; a feed that does not parse leaves OK and raises nothing. */
  method OfflineAndMalformed() returns (offline: Status, afterMalformed: Status, ghost notified: seq<Status>)
    ensures offline == Offline && afterMalformed == OK && notified == [Offline]
  {
    var n := new Notifier(0, _ => None, TestLinks, "(no subject)");
    var issued := n.CheckMail(true);
    var malformed, fault := n.DownloadDataCompleted(Failed(ConnectFailure));
    offline := n.connectionStatus;
    issued := n.CheckMail(true);
    malformed, fault := n.DownloadDataCompleted(Downloaded("not xml"));
    afterMalformed := n.connectionStatus;
    notified := n.notifications;
  }
}
