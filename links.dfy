/** The strings the plug-in builds: the copied note's name, the path of an
    event's datastore record, and the embeddable viewer URL derived from a
    stored share link. */
module NoteLinks {
  import opened BoxTypes

  const NoteSuffix: string := ".boxnote"
  const EventsPrefix: string := "/api/v1/schedule/events/"
  const DatastoreInfix: string := "/datastore/"

  /** The name given to a copied note: the event subject, whole, followed by
      the note extension. */
  function NoteName(subject: string): (name: string)
    ensures |name| == |subject| + |NoteSuffix|
    ensures name[..|subject|] == subject && name[|subject|..] == NoteSuffix
  {
    subject + NoteSuffix
  }

  /** The REST path of an event's record under the plug-in's datastore key:
      the events collection, the event id, and the key under `/datastore/`. */
  function DatastorePath(eventId: string): (path: string)
    ensures |path| == |EventsPrefix| + |eventId| + |DatastoreInfix + DatastoreKey|
    ensures path[..|EventsPrefix|] == EventsPrefix
    ensures path[|EventsPrefix|..|EventsPrefix| + |eventId|] == eventId
    ensures path[|EventsPrefix| + |eventId|..] == DatastoreInfix + DatastoreKey
  {
    EventsPrefix + eventId + DatastoreInfix + DatastoreKey
  }

  /** Distinct events have distinct record paths, so one event's record never
      overwrites another's. */
  lemma DatastorePathInjective(a: string, b: string)
    requires DatastorePath(a) == DatastorePath(b)
    ensures a == b
  {
    var n := |EventsPrefix|;
    assert |a| == |b|;
    assert a == DatastorePath(a)[n..n + |a|];
    assert b == DatastorePath(b)[n..n + |b|];
  }

  /** Storing a share link on an event: a POST of `{ sharedLink }` to its
      record path, which is the path of no other event. */
  function SaveLink(eventId: string, sharedLink: string): (c: Call)
    ensures c.SaveRecord? && c.record == LinkRecord(sharedLink)
    ensures c.path == DatastorePath(eventId)
    ensures forall other :: other != eventId ==> c.path != DatastorePath(other)
  {
    var c := SaveRecord(DatastorePath(eventId), LinkRecord(sharedLink));
    forall other | other != eventId
      ensures c.path != DatastorePath(other)
    {
      if c.path == DatastorePath(other) {
        DatastorePathInjective(other, eventId);
      }
    }
    c
  }

  /** Disconnecting a note: a DELETE of the event's record path, which is the
      path of no other event. */
  function ClearLink(eventId: string): (c: Call)
    ensures c.DeleteRecord? && c.path == DatastorePath(eventId)
    ensures forall other :: other != eventId ==> c.path != DatastorePath(other)
  {
    var c := DeleteRecord(DatastorePath(eventId));
    forall other | other != eventId
      ensures c.path != DatastorePath(other)
    {
      if c.path == DatastorePath(other) {
        DatastorePathInjective(other, eventId);
      }
    }
    c
  }

  const HttpsScheme: string := "https://"
  const ShareMarker: string := ".box.com/s/"
  const EmbedPrefix: string := "https://app.box.com/embed/s/"
  const EmbedQuery: string := "?showParentPath=false"

  /** The characters a regular-expression `.` does not match. */
  predicate IsLineTerminator(c: char)
  {
    c == '\n' || c == '\r' || c == '\U{2028}' || c == '\U{2029}'
  }

  /** Whether `link[..k]` is matched by the anchored pattern
      `https://` then one or more non-line-terminators then `.box.com/s/`. */
  predicate PrefixMatches(link: string, k: int)
  {
    |HttpsScheme| + 1 + |ShareMarker| <= k <= |link|
    && link[..|HttpsScheme|] == HttpsScheme
    && link[k - |ShareMarker|..k] == ShareMarker
    && forall i :: |HttpsScheme| <= i < k - |ShareMarker| ==> !IsLineTerminator(link[i])
  }

  /** `k` is the end of the longest prefix the pattern matches; a greedy `.+`
      backtracks from the longest candidate, so this is the match it finds. */
  ghost predicate IsLongestMatch(link: string, k: int)
  {
    PrefixMatches(link, k) && forall j :: k < j <= |link| ==> !PrefixMatches(link, j)
  }

  /** The largest `j <= k` at which the pattern matches, if any. */
  function LongestMatchUpTo(link: string, k: nat): (m: Option<nat>)
    requires k <= |link|
    ensures m.Some? ==> m.value <= k && PrefixMatches(link, m.value)
    ensures m.Some? ==> forall j :: m.value < j <= k ==> !PrefixMatches(link, j)
    ensures m.None? ==> forall j :: 0 <= j <= k ==> !PrefixMatches(link, j)
    decreases k
  {
    if PrefixMatches(link, k) then Some(k)
    else if k == 0 then None
    else LongestMatchUpTo(link, k - 1)
  }

  /** The share code: the link without its longest `https://….box.com/s/`
      prefix, or the whole link when no prefix matches. */
  function StripSharePrefix(link: string): (code: string)
    ensures forall k :: IsLongestMatch(link, k) ==> code == link[k..]
    ensures (forall k :: 0 <= k <= |link| ==> !PrefixMatches(link, k)) ==> code == link
    ensures |code| <= |link| && code == link[|link| - |code|..]
  {
    match LongestMatchUpTo(link, |link|)
    case Some(k) => link[k..]
    case None => link
  }

  /** The viewer URL: the embed base, the share code and the fixed query. A
      link that no prefix of the pattern matches is embedded whole. */
  function EmbedUrl(sharedLink: string): (url: string)
    ensures |url| == |EmbedPrefix| + |StripSharePrefix(sharedLink)| + |EmbedQuery|
    ensures url[..|EmbedPrefix|] == EmbedPrefix && url[|url| - |EmbedQuery|..] == EmbedQuery
    ensures url[|EmbedPrefix|..|url| - |EmbedQuery|] == StripSharePrefix(sharedLink)
    ensures (forall k :: 0 <= k <= |sharedLink| ==> !PrefixMatches(sharedLink, k)) ==>
              url[|EmbedPrefix|..|url| - |EmbedQuery|] == sharedLink
  {
    EmbedPrefix + StripSharePrefix(sharedLink) + EmbedQuery
  }

  /** A share link `https://<host>.box.com/s/<code>` gives back exactly its code,
      whenever the host is non-empty and on one line and the code holds no `/`. */
  lemma StripShareLink(host: string, code: string)
    requires host != [] && forall i :: 0 <= i < |host| ==> !IsLineTerminator(host[i])
    requires forall i :: 0 <= i < |code| ==> code[i] != '/'
    ensures StripSharePrefix(HttpsScheme + host + ShareMarker + code) == code
  {
    var link := HttpsScheme + host + ShareMarker + code;
    var n := |HttpsScheme|;
    var k := n + |host| + |ShareMarker|;
    assert link[..n] == HttpsScheme;
    assert link[k - |ShareMarker|..k] == ShareMarker;
    assert forall i :: n <= i < k - |ShareMarker| ==> link[i] == host[i - n];
    assert PrefixMatches(link, k);
    forall j | k < j <= |link|
      ensures !PrefixMatches(link, j)
    {
      assert link[j - 1] == code[j - 1 - k];
      assert ShareMarker[|ShareMarker| - 1] == '/';
    }
    assert IsLongestMatch(link, k);
    assert link[k..] == code;
  }

  /** The viewer URL of such a link is the embed base, its code and the query. */
  lemma EmbedUrlOfShareLink(host: string, code: string)
    requires host != [] && forall i :: 0 <= i < |host| ==> !IsLineTerminator(host[i])
    requires forall i :: 0 <= i < |code| ==> code[i] != '/'
    ensures EmbedUrl(HttpsScheme + host + ShareMarker + code)
            == "https://app.box.com/embed/s/" + code + "?showParentPath=false"
  {
    StripShareLink(host, code);
  }

  /** An example: the share code of `https://foo.box.com/s/abc123`. */
  lemma StripSharePrefixExample(link: string)
    requires link == "https://foo.box.com/s/abc123"
    ensures StripSharePrefix(link) == "abc123"
  {
    assert link == HttpsScheme + "foo" + ShareMarker + "abc123";
    StripShareLink("foo", "abc123");
  }

  /** An example: the viewer URL of `https://foo.box.com/s/abc123`. */
  lemma EmbedUrlExample(link: string)
    requires link == "https://foo.box.com/s/abc123"
    ensures EmbedUrl(link) == "https://app.box.com/embed/s/abc123?showParentPath=false"
  {
    StripSharePrefixExample(link);
    ExampleViewerUrl(EmbedUrl(link), StripSharePrefix(link));
  }

  /** The viewer URL built from the example's code, spelled out. */
  lemma ExampleViewerUrl(url: string, code: string)
    requires url == EmbedPrefix + code + EmbedQuery
    requires code == "abc123"
    ensures url == "https://app.box.com/embed/s/abc123?showParentPath=false"
  {
  }
}
