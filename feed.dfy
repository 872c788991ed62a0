/**
 * The feed as the notifier sees it: the text it downloads, the root-tag rewrite it
 * applies before handing that text to the XML parser, and the entry nodes it later
 * reads by child position.
 */
module Feed {
  import opened Wrappers
  import opened Text

  /**
   * An XML node reduced to what the notifier reads: its InnerText, the value of its
   * href attribute when it has one, and its child nodes in document order.
   */
  datatype XmlNode = XmlNode(innerText: string, href: Option<string>, childNodes: seq<XmlNode>)

  /** What the parser extracts: /feed/fullcount as an Int32 and the /feed/entry nodes. */
  datatype FeedDocument = FeedDocument(fullcount: int, entries: seq<XmlNode>)

  /** XmlNodeList.Item(i): the i-th node, or null when i is out of range. */
  function Item(nodes: seq<XmlNode>, i: int): (r: Option<XmlNode>)
    ensures r.Some? <==> 0 <= i < |nodes|
    ensures r.Some? ==> r.value == nodes[i]
  {
    if 0 <= i < |nodes| then Some(nodes[i]) else None
  }

  /**
   * The root tag an Atom 0.3 feed carries, with its version and namespace, spelt in
   * two pieces (the version, then the namespace) so that each literal stays short.
   */
  const AtomVersion: string := "<feed version=\"0.3\" "
  const AtomNamespace: string := "xmlns=\"http://purl.org/atom/ns#\">"
  const AtomRoot: string := AtomVersion + AtomNamespace

  /** The bare root the notifier's XPath queries (/feed/...) expect. */
  const BareRoot: string := "<feed>"

  /** The compatibility shim applied to the downloaded text before parsing. */
  function NormalizeRoot(xml: string): string {
    ReplaceAll(xml, AtomRoot, BareRoot)
  }

  /** The rewrite applied to the text of an entry's child 3, the timestamp, before DateTime.Parse. */
  function NormalizeTimestamp(stamp: string): string {
    ReplaceAll(stamp, "T24:", "T00:")
  }

  lemma RootPairSeparated()
    ensures Separated(AtomRoot, BareRoot)
  {
    assert AtomRoot[1..] == AtomVersion[1..] + AtomNamespace;
    assert Lacks(AtomVersion[1..], '<') && Lacks(AtomNamespace, '<');
    assert BareRoot[5] != AtomRoot[5];
  }

  lemma HourPairSeparated()
    ensures Separated("T24:", "T00:")
  {
    assert "T00:"[1] != "T24:"[1];
  }

  /** No namespaced Atom 0.3 root survives the shim. */
  lemma NormalizeRootRemovesAtomRoot(xml: string)
    ensures !Contains(NormalizeRoot(xml), AtomRoot)
  {
    RootPairSeparated();
    ReplaceAllRemoves(xml, AtomRoot, BareRoot);
  }

  /**
   * The namespaced root becomes the bare root wherever it stands: after any prefix
   * (such as the XML declaration) the prefix and the rest are rewritten on their own,
   * and a prefix that holds no namespaced root is kept as it is. A document without
   * the namespaced root passes through unchanged; applying the shim twice is the same
   * as applying it once.
   */
  lemma NormalizeRootBehaviour(pre: string, body: string, plain: string)
    ensures NormalizeRoot(AtomRoot + body) == BareRoot + NormalizeRoot(body)
    ensures NormalizeRoot(pre + AtomRoot + body) == NormalizeRoot(pre) + BareRoot + NormalizeRoot(body)
    ensures !Contains(pre, AtomRoot) ==> NormalizeRoot(pre + AtomRoot + body) == pre + BareRoot + NormalizeRoot(body)
    ensures !Contains(plain, AtomRoot) ==> NormalizeRoot(plain) == plain
    ensures NormalizeRoot(NormalizeRoot(plain)) == NormalizeRoot(plain)
  {
    ReplaceAllAtPattern(AtomRoot, BareRoot, body);
    ReplaceAllIdentity(plain, AtomRoot, BareRoot);
    RootPairSeparated();
    ReplaceAllAround(pre, AtomRoot, BareRoot, body);
    ReplaceAllIdentity(pre, AtomRoot, BareRoot);
    ReplaceAllIdempotent(plain, AtomRoot, BareRoot);
  }

  /**
   * The end-of-day hour 24 of a timestamp becomes hour 00 of the same date: the date
   * before the "T" and the minutes, seconds and zone after the hour are kept.
   */
  lemma {:induction false} HourTwentyFourBecomesMidnight(date: string, clock: string)
    requires Lacks(date, 'T') && Lacks(clock, 'T')
    ensures NormalizeTimestamp(date + "T24:" + clock) == date + "T00:" + clock
  {
    var pat, rep := "T24:", "T00:";
    assert pat[0] == 'T';
    assert date + pat + clock == date + (pat + clock);
    ReplaceAllSkips(date, pat + clock, pat, rep);
    ReplaceAllAtPattern(pat, rep, clock);
    assert !Contains(clock, pat) by {
      forall k: nat | OccursAt(clock, pat, k) ensures clock[k] == 'T' {
        assert clock[k..k + |pat|][0] == pat[0];
      }
    }
    ReplaceAllIdentity(clock, pat, rep);
  }

  /**
   * The rewrite keeps the timestamp's length, leaves no hour 24 behind (RFC 3339,
   * section 5.6, allows time-hour 00 to 23 only) and changes nothing when there is
   * no "T24:" in the text.
   */
  lemma NormalizeTimestampBehaviour(stamp: string)
    ensures |NormalizeTimestamp(stamp)| == |stamp|
    ensures !Contains(NormalizeTimestamp(stamp), "T24:")
    ensures !Contains(stamp, "T24:") ==> NormalizeTimestamp(stamp) == stamp
  {
    ReplaceAllKeepsLength(stamp, "T24:", "T00:");
    HourPairSeparated();
    ReplaceAllRemoves(stamp, "T24:", "T00:");
    ReplaceAllIdentity(stamp, "T24:", "T00:");
  }
}
