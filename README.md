# Gmail Notifier Plus: the per-account mail-status state machine

Each configured account in Gmail Notifier Plus gets a `Notifier` form. The form
polls the account's unread-mail Atom feed and keeps a connection status (`OK`,
`AuthenticationFailed`, `Offline`), the unread count, the entries of the last feed
and a cursor over the first `min(Unread, 20)` of them. The Previous, Inbox and Next
thumbnail buttons drive the cursor. This project models that state machine in
Dafny, without the window, the taskbar or the network:

- `Text` — ordinal, left-to-right, non-overlapping `String.Replace`. It proves that
  a self-separating pattern/replacement pair leaves no occurrence behind, that the
  rewrite is idempotent, and that text free of the pattern is unchanged.
- `Feed` — entry nodes with positional children, `ChildNodes.Item` (null past the
  end), the Atom 0.3 root-tag shim, and the `"T24:"` → `"T00:"` timestamp rewrite.
  Hour 24 is ISO 8601's end-of-day form. It lies outside the 00–23 `time-hour` of
  section 5.6 of RFC 3339.
- `Connection` — the status enum, `WebExceptionStatus`, and how a failed download
  is classified.
- `Cursor` — `min(Unread, 20)`, the Previous and Next steps, and what any series of
  clicks can reach.
- `Buttons` — the enable flags of `UpdateThumbButtonsStatus` and of
  `UpdateMailPreview`. The lemmas expose the two Next bounds: the handler advances
  while `index < num`, the button is enabled while `index < num - 1`.
- `Preview` — the pure part of `UpdateMailPreview`: the view, the "i/N" page, the
  subject fallback, the guarded sender, the rewritten timestamp, the mail URL, and
  the null dereferences the method can hit.
- `Forms` — class `Notifier`. Its fields are the form's state. Its methods are
  `CheckMail`, the download-completed handler, the two click handlers,
  `UpdateMailPreview` and the URL choice of `OpenCurrentMail`. `Valid()` is the
  object invariant:
  - the index stays in `[0, max(0, min(Unread, 20))]`;
  - at most one download is in flight;
  - at most one notification is raised per completed download;
  - a mail URL is kept only for an `OK` account with unread mail;
  - an enabled button is never stale: Previous only off the first entry, Next
    only before the last entry of the page, Inbox only when `OK`.
- `Scenarios` — client runs that use only the class contracts: two rapid checks,
  a three-mail walk, the overshoot past the last mail, a rejected login, and an
  offline or malformed download.

Collaborators whose code is not in this model are constant fields of the class:
- the XML parser (`parse`: `None` when `LoadXml` throws, `/feed/fullcount` is missing, or `Convert.ToInt32` throws);
- the URL builders (`links`: `UrlHelper.BuildMailUrl` and `UrlHelper.BuildInboxUrl`, assumed never empty);
- the locale's no-subject text (`noSubject`).

`WebClient.IsBusy` is the field `busy`. Whether building the credential and the
feed URI throws is the `requestBuilt` argument of `CheckMail`. A download's result
is a `Completion` value. Ghost counters record downloads started, downloads
completed, and each `CheckMailFinished` together with the status it reports.

The code as written:
- A downloaded feed that fails to parse does not give `Offline`. Line 118 sets
  `OK` before `LoadXml`. The handler then throws, and there is no preview update
  and no `CheckMailFinished`.
- The index is rewound to 0 only when a feed is installed. A failed download keeps
  the index, the unread count and the entries.
- The Next handler's bound is `index < min(Unread, 20)`, not `min(Unread, 20) - 1`.
  So the index can reach one past the last entry of the page. When the feed lists
  no more than min(Unread, 20) entries, as Gmail's feed does, a preview update there
  finds no entry and throws (`Scenarios.NextPastLastEntry`). A feed with more entries
  would show the next one, labelled one above its total
  (`Preview.OvershootDependsOnFeedLength`). The Next button is always
  disabled at that point: `Forms.Notifier.Valid()` keeps an enabled Next only
  while `index + 1 < min(Unread, 20)`, and `Buttons.NextBoundsDisagreeAtLastEntry`
  shows that the two bounds differ there and nowhere else.
- The status has no `Idle` or `Checking` value. A new form starts at `OK`, the
  enum's default. "Checking" exists only as `busy` and the checking view.

## Model

| member | source | states |
|---|---|---|
| `Text.ReplaceAllIdentity` | Application/Forms/Notifier.cs:120 | text that holds no occurrence of the pattern comes back from Replace unchanged |
| `Text.ReplaceAllAtPattern` | Application/Forms/Notifier.cs:120 | a leading occurrence is replaced, and scanning resumes right after it |
| `Text.ReplaceAllAround` | Application/Forms/Notifier.cs:120 | an occurrence after any prefix is replaced, and the prefix and the remainder are rewritten on their own, when the pattern's first character does not recur inside it |
| `Text.ReplaceAllSkips` | Application/Forms/Notifier.cs:258 | a prefix without the pattern's first character is copied through, and the rest is rewritten on its own |
| `Text.ReplaceAllKeepsLength` | Application/Forms/Notifier.cs:258 | a same-length replacement keeps the text's length |
| `Text.ReplaceAllRemoves` | Application/Forms/Notifier.cs:120 | for a self-separating pair, the result contains no occurrence of the pattern |
| `Text.ReplaceAllIdempotent` | Application/Forms/Notifier.cs:120 | for a self-separating pair, rewriting twice equals rewriting once |
| `Feed.Item` | Application/Forms/Notifier.cs:265 | `ChildNodes.Item(i)` is the i-th child when i is in range and null otherwise |
| `Feed.NormalizeRootRemovesAtomRoot` | Application/Forms/Notifier.cs:120 | no namespaced Atom 0.3 root is left in the text handed to the parser |
| `Feed.NormalizeRootBehaviour` | Application/Forms/Notifier.cs:120 | a namespaced root becomes `<feed>` wherever it stands, at the start or after any prefix such as the XML declaration, and a prefix holding no namespaced root is kept; text without it is unchanged; the shim is idempotent |
| `Feed.HourTwentyFourBecomesMidnight` | Application/Forms/Notifier.cs:258 | `dateT24:rest` becomes `dateT00:rest`, keeping the same date and the same minutes, seconds and zone |
| `Feed.NormalizeTimestampBehaviour` | Application/Forms/Notifier.cs:258 | the rewrite keeps the length and leaves no `T24:`; a stamp without `T24:` is unchanged |
| `Connection.Classify` | Application/Forms/Notifier.cs:131-139 | a failed download gives AuthenticationFailed iff its status is ProtocolError, otherwise Offline; never OK |
| `Cursor.PageSize` | Application/Forms/Notifier.cs:99 | the page size is at most 20 and at most Unread, and equals one of the two |
| `Cursor.Prev` | Application/Forms/Notifier.cs:87-92 | Previous moves back exactly one step when the index is positive and is a no-op at 0, so it never goes negative |
| `Cursor.Next` | Application/Forms/Notifier.cs:98-104 | Next moves forward exactly one step iff the index is below min(Unread, 20), so it never passes min(Unread, 20) |
| `Cursor.NavigateStaysInRange` | Application/Forms/Notifier.cs:87-104 | no series of clicks takes the index out of [0, max(0, min(Unread, 20))] |
| `Cursor.RepeatedNextSaturates` | Application/Forms/Notifier.cs:98-104 | n Next clicks from the first entry stop at min(n, min(Unread, 20)), one past the last entry |
| `Cursor.PrevNextInverse` | Application/Forms/Notifier.cs:87-104 | Previous undoes a Next that moved, and Next undoes a Previous that moved |
| `Buttons.PreviewButtons` | Application/Forms/Notifier.cs:287-311 | after a preview update: Inbox is enabled iff OK; Previous iff OK and index ≠ 0; Next iff OK and index + 1 < min(Unread, 20) |
| `Buttons.EnabledNextStaysOnPage` | Application/Forms/Notifier.cs:293-298 | a click on an enabled Next leaves the index at most min(Unread, 20) - 1 |
| `Buttons.EnabledPrevMoves` | Application/Forms/Notifier.cs:297 | a click on an enabled Previous always moves the index back one, and never below 0 |
| `Buttons.NextBoundsDisagreeAtLastEntry` | Application/Forms/Notifier.cs:295-298 | at the last entry, Next is disabled but the handler would move to one past it; everywhere else the flag and the handler agree |
| `Preview.EntryAt` | Application/Forms/Notifier.cs:257 | `XmlMail[_MailIndex]` exists iff there is an entry list and the index is inside it, and then it is that list's entry at the index |
| `Preview.Sender` | Application/Forms/Notifier.cs:265-270 | the sender is the text of child 1 of child 6, and empty when child 6 or its child 1 is missing |
| `Preview.Compose` | Application/Forms/Notifier.cs:257-272 | an entry previews iff it has children 0–3 and its link has an href; the preview holds the subject, summary, rewritten timestamp, page (index+1)/min(Unread,20), sender and mail URL |
| `Preview.Render` | Application/Forms/Notifier.cs:239-291 | the view matches the status; a mail view is the `Compose` preview of the current entry, showing the no-subject text exactly when that entry's subject is empty; a URL is kept iff OK with Unread > 0; the label is (index+1)/min(Unread,20), with a total between 1 and 20 and a position between 1 and the number of entries; it throws exactly when that entry is missing or unreadable |
| `Preview.OvershootDependsOnFeedLength` | Application/Forms/Notifier.cs:257-263 | at index min(Unread,20) the preview throws for lack of an entry when the feed lists at most min(Unread,20) entries, and otherwise shows the next entry labelled (min(Unread,20)+1)/min(Unread,20) |
| `Forms.Notifier.constructor` | Application/Forms/Notifier.cs:42-56 | a new form is OK, with no unread mail, no entries, index 0, no URL, no download, and Shown's button flags |
| `Forms.Notifier.UpdateMailPreview` | Application/Forms/Notifier.cs:239-291 | clears the URL, sets the flags, then shows the rendered view or throws; the invariant is restored |
| `Forms.Notifier.PrevClick` | Application/Forms/Notifier.cs:87-92 | the index becomes Prev(index); at 0 nothing changes; otherwise the preview is refreshed |
| `Forms.Notifier.NextClick` | Application/Forms/Notifier.cs:98-104 | the index becomes Next(index, Unread); when it does not move nothing changes; otherwise the preview is refreshed |
| `Forms.Notifier.CheckMail` | Application/Forms/Notifier.cs:149-161 | a download starts iff none is in flight and the request could be built; a started download turns a status view into the checking view and leaves a shown mail preview in place; a busy or failed call changes nothing else |
| `Forms.Notifier.DownloadDataCompleted` | Application/Forms/Notifier.cs:116-143 | success gives OK, the new Unread and entries, and index 0; failure gives the classified status and keeps the rest; the preview is refreshed and CheckMailFinished is raised once with the new status unless the handler threw |
| `Forms.Notifier.Receive` | Application/Forms/Notifier.cs:116-139 | the handler's first part: the download is over; a downloaded feed sets OK and, when it parses, installs the new Unread and entries at index 0; a failure sets the classified status and keeps the rest |
| `Forms.Notifier.OpenCurrentMail` | Application/Forms/Notifier.cs:320-323 | opens the current mail's URL when there is one and the inbox otherwise, so always the inbox unless OK with unread mail |
| `Scenarios.RapidChecksStartOneDownload` | Application/Forms/Notifier.cs:149-153 | two checks before the first download completes start one download |
| `Scenarios.UnbuildableRequestIsDropped` | Application/Forms/Notifier.cs:154-160 | a request that throws while being built is dropped: no download, not busy, and the status is kept |
| `Scenarios.EndOfDayShownAsMidnight` | Application/Forms/Notifier.cs:258 | `2010-05-01T24:10:00Z` is shown as `2010-05-01T00:10:00Z` |
| `Scenarios.CheckedThreeMails` | Application/Forms/Notifier.cs:116-130 | a feed with three mails gives OK, Unread 3, the page label 1/3 and one notification |
| `Scenarios.ForwardWalk` | Application/Forms/Notifier.cs:98-104 | two Next clicks show the page labels 2/3 and 3/3, disable Next, and show the no-subject text for an empty subject |
| `Scenarios.BackwardWalk` | Application/Forms/Notifier.cs:87-92 | two Previous clicks from 3/3 show the page labels 2/3 and 1/3 and end at index 0 with Unread 3 |
| `Scenarios.ThreeMailWalk` | Application/Forms/Notifier.cs:263 | the three-mail walk shows the page labels 1/3, 2/3, 3/3, 2/3, 1/3 |
| `Scenarios.NextPastLastEntry` | Application/Forms/Notifier.cs:98-104 | at 3/3 Next is disabled, yet the handler moves to index 3, where the preview throws for lack of an entry |
| `Scenarios.RejectedLoginAfterMail` | Application/Forms/Notifier.cs:131-139 | a ProtocolError after a good check gives AuthenticationFailed and the warning view and keeps Unread; the Inbox button is disabled, and OpenCurrentMail would choose the inbox |
| `Scenarios.OfflineAndMalformed` | Application/Forms/Notifier.cs:116-139 | a refused connection gives Offline and one notification; an unparsable feed gives OK and no notification |

## Left out

- Rendering is abstract. `SetCheckingPreview`, `SetNoMailPreview`, `SetOfflinePreview`, `SetWarningPreview`, `ShowMails` and `ShowStatus` become a `View` value; label geometry, colours and images are not modelled.
- Forms.Notifier.UpdateMailPreview: when it throws after writing some labels, the model keeps the previous view and does not model the half-written labels.
- Taskbar glue is out: thumbnail button creation, icons, tooltips and `InvalidatePreview` are Windows API Code Pack calls. Only the enable flags are kept.
- `WebClient` and `NetworkCredential` are out. The asynchronous download becomes the `busy` flag plus a `Completion` value; UTF-8 decoding of the bytes is not modelled.
- The XML parser (`XmlDocument.LoadXml`, the `/feed/fullcount` and `/feed/entry` queries, `Convert.ToInt32`) is the `parse` collaborator. Its Int32 range is not modelled. Entries are nodes with positional children.
- `DateTime.Parse` and the short date and time formatting are culture-dependent library code. The preview holds the rewritten timestamp text, and a parse failure there is not modelled.
- The "i/N" label is the pair (position, total). Formatting the two integers as text is not modelled.
- The URL builders `UrlHelper.BuildMailUrl` and `UrlHelper.BuildInboxUrl` are assumed to return non-empty URLs (the `Url` type). Their code is not part of this model. The "URL kept only if OK with unread mail" direction holds without the assumption; the converse relies on it.
- `Config.Current`, `Locale.Current`, `UrlHelper`, `ResourceHelper` and `Help.ShowHelp` are singletons and helpers outside this model. The URL builders and the no-subject text are constant fields; `OpenCurrentMail` returns the page it would open.
- The `CheckMailFinished` call at line 142 throws when nothing is subscribed. The model assumes the application's subscriber is present.
- The cast `(WebException)e.Error` is taken to succeed: a download error is always described by its `WebExceptionStatus`.
- `OnMailReceived` (lines 314-318) is dead code. The live path raises the event at line 142.
- `_Config_Saved`, `Notifier_Activated` and `_ButtonInbox_Click` are not modelled. They only re-run the button update, refresh the window, or call `OpenCurrentMail`.
- Forms.Notifier.constructor: it also performs the flag update of `Notifier_Shown`. Reading the account from the configuration is left out.
