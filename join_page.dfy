/**
 * The landing page's join handler: it normalises the typed user name and
 * builds the meeting URL "/meeting/<meeting id>?name=<encoded name>" that the
 * router navigates to (meetpilot/app/page.js, handleJoin).
 */
module JoinPage {
  import opened Wrappers
  import opened UriComponent

  const DefaultName := "anonymous"
  const MeetingPath := "/meeting/"
  const NameQuery := "?name="

  /**
   * The characters String.prototype.trim removes: ECMAScript WhiteSpace
   * (TAB, VT, FF, ZWNBSP and the Unicode category Zs) and LineTerminator
   * (LF, CR, LS, PS).
   */
  predicate IsWhiteSpace(c: char)
  {
    // WhiteSpace: TAB, VT, FF, ZWNBSP
    c == '\U{9}' || c == '\U{B}' || c == '\U{C}' || c == '\U{FEFF}' ||
    // Zs: SPACE, NO-BREAK SPACE, OGHAM SPACE MARK, EN QUAD .. HAIR SPACE,
    // NARROW NO-BREAK SPACE, MEDIUM MATHEMATICAL SPACE, IDEOGRAPHIC SPACE
    c == ' ' || c == '\U{A0}' || c == '\U{1680}' || ('\U{2000}' <= c <= '\U{200A}') ||
    c == '\U{202F}' || c == '\U{205F}' || c == '\U{3000}' ||
    // LineTerminator: LF, CR, LINE SEPARATOR, PARAGRAPH SEPARATOR
    c == '\n' || c == '\r' || c == '\U{2028}' || c == '\U{2029}'
  }

  /** Every character of s is white space. */
  predicate AllWhiteSpace(s: string)
  {
    s == [] || (IsWhiteSpace(s[0]) && AllWhiteSpace(s[1..]))
  }

  lemma {:induction false} AllWhiteSpaceSnoc(s: string, c: char)
    requires AllWhiteSpace(s) && IsWhiteSpace(c)
    ensures AllWhiteSpace(s + [c])
  {
    if s != [] {
      assert (s + [c])[1..] == s[1..] + [c];
      AllWhiteSpaceSnoc(s[1..], c);
    }
  }

  /** Neither the first nor the last character is white space. */
  predicate IsTrimmed(s: string)
  {
    s == [] || (!IsWhiteSpace(s[0]) && !IsWhiteSpace(s[|s| - 1]))
  }

  /** Leading white space removed: a suffix of s, all that was dropped is white space. */
  function TrimStart(s: string): (r: string)
    ensures |r| <= |s| && r == s[|s| - |r|..]
    ensures AllWhiteSpace(s[..|s| - |r|])
    ensures r == [] || !IsWhiteSpace(r[0])
  {
    if s != [] && IsWhiteSpace(s[0]) then
      var r := TrimStart(s[1..]);
      DroppedLeading(s, r);
      r
    else s
  }

  lemma DroppedLeading(s: string, r: string)
    requires s != [] && IsWhiteSpace(s[0])
    requires |r| <= |s| - 1 && r == s[1..][|s| - 1 - |r|..]
    requires AllWhiteSpace(s[1..][..|s| - 1 - |r|])
    ensures r == s[|s| - |r|..] && AllWhiteSpace(s[..|s| - |r|])
  {
    var k := |s| - |r|;
    assert s[..k][1..] == s[1..][..k - 1];
  }

  /** Trailing white space removed: a prefix of s, all that was dropped is white space. */
  function TrimEnd(s: string): (r: string)
    ensures |r| <= |s| && r == s[..|r|]
    ensures AllWhiteSpace(s[|r|..])
    ensures r == [] || !IsWhiteSpace(r[|r| - 1])
  {
    if s != [] && IsWhiteSpace(s[|s| - 1]) then
      var r := TrimEnd(s[..|s| - 1]);
      DroppedTrailing(s, r);
      r
    else s
  }

  lemma DroppedTrailing(s: string, r: string)
    requires s != [] && IsWhiteSpace(s[|s| - 1])
    requires |r| <= |s| - 1 && r == s[..|s| - 1][..|r|]
    requires AllWhiteSpace(s[..|s| - 1][|r|..])
    ensures r == s[..|r|] && AllWhiteSpace(s[|r|..])
  {
    AllWhiteSpaceSnoc(s[..|s| - 1][|r|..], s[|s| - 1]);
    assert s[|r|..] == s[..|s| - 1][|r|..] + [s[|s| - 1]];
  }

  /** String.prototype.trim: the longest slice of s between white-space margins. */
  function Trim(s: string): string
  {
    TrimEnd(TrimStart(s))
  }

  /**
   * Trim keeps a contiguous slice s[i..j] of its input and drops only white
   * space around it.
   */
  lemma TrimSlice(s: string)
    ensures exists i, j :: (0 <= i <= j <= |s| && Trim(s) == s[i..j] &&
      AllWhiteSpace(s[..i]) && AllWhiteSpace(s[j..]))
  {
    var t := TrimStart(s);
    var r := TrimEnd(t);
    var i := |s| - |t|;
    var j := i + |r|;
    assert r == s[i..j];
    assert s[j..] == t[|r|..];
    assert AllWhiteSpace(s[..i]) && AllWhiteSpace(s[j..]);
  }

  /** Trim leaves no white space at either end. */
  lemma TrimIsTrimmed(s: string)
    ensures IsTrimmed(Trim(s))
  {
    var t := TrimStart(s);
    var r := TrimEnd(t);
    if r != [] {
      assert r[0] == t[0];
    }
  }

  /** A string without white space at its ends is left as it is by trim. */
  lemma TrimTrimmed(s: string)
    requires IsTrimmed(s)
    ensures Trim(s) == s
  {
  }

  /** trim is idempotent. */
  lemma TrimIdempotent(s: string)
    ensures Trim(Trim(s)) == Trim(s)
  {
    TrimIsTrimmed(s);
    TrimTrimmed(Trim(s));
  }

  lemma DefaultNameTrimmed()
    ensures DefaultName != [] && IsTrimmed(DefaultName)
  {
    assert DefaultName[0] == 'a' && DefaultName[|DefaultName| - 1] == 's';
  }

  /** The name handleJoin puts in the URL: the trimmed input, or "anonymous" if that is empty. */
  function ChooseName(username: string): (name: string)
    ensures name != [] && IsTrimmed(name)
    ensures Trim(username) != [] ==> name == Trim(username)
    ensures Trim(username) == [] ==> name == DefaultName
  {
    var trimmed := Trim(username);
    TrimIsTrimmed(username);
    DefaultNameTrimmed();
    if |trimmed| == 0 then DefaultName else trimmed
  }

  /** Normalising a chosen name again leaves it unchanged. */
  lemma ChooseNameIdempotent(username: string)
    ensures ChooseName(ChooseName(username)) == ChooseName(username)
  {
    var name := ChooseName(username);
    TrimTrimmed(name);
  }

  /** A template literal renders an absent (undefined) environment value as "undefined". */
  function TemplateText(v: Option<string>): string
  {
    match v
    case Some(s) => s
    case None => "undefined"
  }

  /** The URL handleJoin navigates to. */
  function JoinTarget(username: string, meetingId: Option<string>): string
  {
    MeetingPath + TemplateText(meetingId) + NameQuery + Encode(ChooseName(username))
  }

  // ---------------------------------------------------------------------
  // Reading the URL back, as the meeting page does with its query string.

  /** Position of the first c in s, or |s| if there is none. */
  function IndexOf(s: string, c: char): (i: nat)
    ensures i <= |s|
    ensures i < |s| ==> s[i] == c
    ensures forall k :: 0 <= k < i ==> s[k] != c
  {
    if s == [] then 0 else if s[0] == c then 0 else 1 + IndexOf(s[1..], c)
  }

  /** The part of a URL before the query string. */
  function PathOf(url: string): string
  {
    url[..IndexOf(url, '?')]
  }

  /**
   * The decoded value of a query string that starts with the "name" field:
   * the text after "?name=" up to the next '&', passed through
   * decodeURIComponent.
   */
  function NameParam(url: string): Option<string>
  {
    var q := IndexOf(url, '?');
    if q + |NameQuery| <= |url| && url[q..q + |NameQuery|] == NameQuery then
      var value := url[q + |NameQuery|..];
      Decode(value[..IndexOf(value, '&')])
    else None
  }

  /** In the target, every '?' stands at or before the one that opens "?name=". */
  lemma QuestionMarkOnlyFromPath(username: string, meetingId: Option<string>)
    ensures forall i :: (0 <= i < |JoinTarget(username, meetingId)| &&
      JoinTarget(username, meetingId)[i] == '?') ==>
      i <= |MeetingPath + TemplateText(meetingId)|
  {
    var head := MeetingPath + TemplateText(meetingId);
    var enc := Encode(ChooseName(username));
    EncodeHasNoDelimiters(ChooseName(username));
    NoQuestionMarkAfter(head, enc);
  }

  lemma NoQuestionMarkAfter(head: string, enc: string)
    requires '?' !in enc
    ensures forall i :: |head| < i < |head + NameQuery + enc| ==> (head + NameQuery + enc)[i] != '?'
  {
    var url := head + NameQuery + enc;
    forall i | |head| < i < |url| ensures url[i] != '?' {
      if i < |head| + |NameQuery| {
        assert url[i] == NameQuery[i - |head|];
      } else {
        assert url[i] == enc[i - |head| - |NameQuery|];
      }
    }
  }

  lemma IndexOfAbsent(s: string, c: char)
    requires c !in s
    ensures IndexOf(s, c) == |s|
  {
  }

  lemma IndexOfAfter(a: string, b: string, c: char)
    requires c !in a && b != [] && b[0] == c
    ensures IndexOf(a + b, c) == |a|
  {
    assert (a + b)[|a|] == c;
  }

  /** A URL "<head>?name=<value>" with no '?' in head and no '&' in value splits back into its parts. */
  lemma SplitNameQuery(head: string, value: string)
    requires '?' !in head && '&' !in value
    ensures PathOf(head + NameQuery + value) == head
    ensures NameParam(head + NameQuery + value) == Decode(value)
  {
    var url := head + NameQuery + value;
    assert url == head + (NameQuery + value);
    IndexOfAfter(head, NameQuery + value, '?');
    assert url[|head|..|head| + |NameQuery|] == NameQuery;
    assert url[|head| + |NameQuery|..] == value;
    IndexOfAbsent(value, '&');
    assert value[..|value|] == value;
  }

  lemma PathHasNoQuestionMark(meetingId: string)
    requires '?' !in meetingId
    ensures '?' !in MeetingPath + meetingId
  {
    assert forall i :: 0 <= i < |MeetingPath| ==> MeetingPath[i] != '?';
  }

  /**
   * A meeting id without '?' is read back from the path unencoded, and the
   * name field decodes to exactly the chosen name. The id is inserted into
   * the URL unencoded, so a '#' in it would start the fragment for a
   * browser's URL parser and hide the query; such ids are excluded too.
   */
  lemma JoinTargetReadBack(username: string, meetingId: string)
    requires '?' !in meetingId && '#' !in meetingId
    ensures PathOf(JoinTarget(username, Some(meetingId))) == MeetingPath + meetingId
    ensures NameParam(JoinTarget(username, Some(meetingId))) == Some(ChooseName(username))
  {
    var name := ChooseName(username);
    var head := MeetingPath + meetingId;
    assert JoinTarget(username, Some(meetingId)) == head + NameQuery + Encode(name);
    PathHasNoQuestionMark(meetingId);
    EncodeHasNoDelimiters(name);
    SplitNameQuery(head, Encode(name));
    DecodeEncode(name);
  }
}
