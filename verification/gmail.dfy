/**
  The back end's normaliser from a Gmail API message to the flat e-mail
  record the front end scores: case-insensitive header lookup, the split of
  the `From` header by the regular expression `(.*?)\s*<(.+?)>`, and flags
  derived from the label list. The date fields are not modelled.
 */
module Gmail {
  import opened Wrappers
  import opened Text

  datatype Header = Header(name: string, value: string)

  /** The fields of a Gmail API message the normaliser reads; `None` is a missing field. */
  datatype GmailMessage = GmailMessage(
    id: string,
    threadId: string,
    headers: seq<Header>,
    snippet: Option<string>,
    labelIds: Option<seq<string>>)

  /** The normalised e-mail record, without `date` and `timestamp`. */
  datatype ParsedEmail = ParsedEmail(
    id: string,
    threadId: string,
    sender: string,
    senderEmail: string,
    subject: string,
    snippet: string,
    isUnread: bool,
    isImportant: bool,
    labels: seq<string>,
    content: string,
    kind: string)

  // ---------------------------------------------------------------------
  // Header lookup
  // ---------------------------------------------------------------------

  predicate NameMatches(h: Header, name: string) {
    Lower(h.name) == Lower(name)
  }

  /** The index of the first header named `name` ignoring case, or -1. */
  function FindHeader(headers: seq<Header>, name: string, from: nat): (r: int)
    requires from <= |headers|
    ensures r == -1 || (from <= r < |headers| && NameMatches(headers[r], name))
    ensures r == -1 ==> forall i :: from <= i < |headers| ==> !NameMatches(headers[i], name)
    ensures r != -1 ==> forall i :: from <= i < r ==> !NameMatches(headers[i], name)
    decreases |headers| - from
  {
    if from == |headers| then -1
    else if NameMatches(headers[from], name) then from
    else FindHeader(headers, name, from + 1)
  }

  /** The value of the first header named `name` ignoring case, or the empty string. */
  function GetHeader(headers: seq<Header>, name: string): (r: string)
    ensures (forall i :: 0 <= i < |headers| ==> !NameMatches(headers[i], name)) ==> r == ""
    ensures forall i :: 0 <= i < |headers| && NameMatches(headers[i], name)
                     && (forall j :: 0 <= j < i ==> !NameMatches(headers[j], name))
                     ==> r == headers[i].value
  {
    var i := FindHeader(headers, name, 0);
    if i == -1 then "" else headers[i].value
  }

  /** A header whose name differs from the one asked for only in letter case is a match. */
  lemma NameMatchesUpToCase(h: Header, name: string)
    requires SameUpToCase(h.name, name)
    ensures NameMatches(h, name)
  {
    SameUpToCaseLower(h.name, name);
  }

  /** The lookup does not depend on the case of the name asked for. */
  lemma GetHeaderCaseInsensitive(headers: seq<Header>, name: string, name': string)
    requires SameUpToCase(name, name')
    ensures GetHeader(headers, name) == GetHeader(headers, name')
  {
    SameUpToCaseLower(name, name');
    var a, b := FindHeader(headers, name, 0), FindHeader(headers, name', 0);
    forall i | 0 <= i < |headers|
      ensures NameMatches(headers[i], name) <==> NameMatches(headers[i], name')
    {
    }
    assert a == b;
  }

  /** Headers after the first match never change the result. */
  lemma GetHeaderFirstWins(headers: seq<Header>, more: seq<Header>, name: string)
    requires exists i :: 0 <= i < |headers| && NameMatches(headers[i], name)
    ensures GetHeader(headers + more, name) == GetHeader(headers, name)
  {
    var i := FindHeader(headers, name, 0);
    assert (headers + more)[i] == headers[i];
  }

  // ---------------------------------------------------------------------
  // The `From` regular expression
  // ---------------------------------------------------------------------

  /**
    Positions of one match of `(.*?)\s*<(.+?)>` in `f`: group 1 is
    `f[start..nameEnd]`, the `\s*` run `f[nameEnd..open]`, `<` sits at
    `open`, group 2 is `f[open + 1..close]` and `>` sits at `close`.
   */
  datatype Span = Span(start: nat, nameEnd: nat, open: nat, close: nat)

  /** `m` is a match, with group 2 as short as the lazy quantifier makes it. */
  predicate IsMatch(f: string, m: Span) {
    && m.start <= m.nameEnd <= m.open
    && m.open + 2 <= m.close < |f|
    && NoLineTerminator(f[m.start..m.nameEnd])
    && AllSpace(f[m.nameEnd..m.open])
    && f[m.open] == '<'
    && NoLineTerminator(f[m.open + 1..m.close])
    && f[m.close] == '>'
    && '>' !in f[m.open + 2..m.close]
  }

  /** The regular-expression engine's preference: leftmost start, then shortest group 1. */
  predicate Precedes(a: Span, b: Span) {
    a.start < b.start || (a.start == b.start && a.nameEnd <= b.nameEnd)
  }

  /** The first index at or after `i` that is not white space. */
  function SkipSpace(f: string, i: nat): (j: nat)
    requires i <= |f|
    ensures i <= j <= |f| && AllSpace(f[i..j])
    ensures j == |f| || !IsSpace(f[j])
    decreases |f| - i
  {
    if i == |f| || !IsSpace(f[i]) then i else SkipSpace(f, i + 1)
  }

  /** The first `>` at or after `i`, provided no line terminator comes before it. */
  function FindClose(f: string, i: nat): (r: Option<nat>)
    requires i <= |f|
    ensures r.Some? ==> i <= r.value < |f| && f[r.value] == '>'
                        && NoLineTerminator(f[i..r.value]) && '>' !in f[i..r.value]
    ensures r.None? ==> forall c :: i <= c < |f| && f[c] == '>' ==> !NoLineTerminator(f[i..c])
    decreases |f| - i
  {
    if i == |f| then None
    else if f[i] == '>' then Some(i)
    else if IsLineTerminator(f[i]) then None
    else
      var r := FindClose(f, i + 1);
      assert r.Some? ==> f[i..r.value] == [f[i]] + f[i + 1..r.value];
      assert forall c :: i + 1 <= c < |f| ==> f[i..c] == [f[i]] + f[i + 1..c];
      r
  }

  /** A match is fixed by where group 1 starts and ends. */
  lemma {:induction false} MatchDeterminedByGroupOne(f: string, a: Span, b: Span)
    requires IsMatch(f, a) && IsMatch(f, b)
    requires a.start == b.start && a.nameEnd == b.nameEnd
    ensures a == b
  {
  }

  /** The match whose group 1 starts at `s` and ends as early as possible at or after `p`. */
  function MatchAt(f: string, s: nat, p: nat): (r: Option<Span>)
    requires s <= p <= |f|
    requires NoLineTerminator(f[s..p])
    ensures r.Some? ==> IsMatch(f, r.value) && r.value.start == s && p <= r.value.nameEnd
    ensures r.Some? ==> forall m :: IsMatch(f, m) && m.start == s && p <= m.nameEnd ==> r.value.nameEnd <= m.nameEnd
    ensures r.None? ==> forall m :: IsMatch(f, m) && m.start == s ==> m.nameEnd < p
    decreases |f| - p
  {
    var q := SkipSpace(f, p);
    var close := if q + 2 <= |f| && f[q] == '<' && !IsLineTerminator(f[q + 1]) then FindClose(f, q + 2) else None;
    if close.Some? then
      var m := Span(s, p, q, close.value);
      assert f[q + 1..close.value] == [f[q + 1]] + f[q + 2..close.value];
      assert IsMatch(f, m);
      forall m' | IsMatch(f, m') && m'.start == s && p <= m'.nameEnd
        ensures m.nameEnd <= m'.nameEnd
      {
      }
      Some(m)
    else
      assert forall m :: IsMatch(f, m) && m.start == s ==> m.nameEnd != p by {
        forall m | IsMatch(f, m) && m.start == s && m.nameEnd == p
          ensures false
        {
          NoMatchMissedAt(f, m, q);
        }
      }
      if p < |f| && !IsLineTerminator(f[p]) then
        assert f[s..p + 1] == f[s..p] + [f[p]];
        MatchAt(f, s, p + 1)
      else
        assert forall m :: IsMatch(f, m) && m.start == s ==> m.nameEnd <= p by {
          forall m | IsMatch(f, m) && m.start == s && p < m.nameEnd
            ensures false
          {
            if p < |f| {
              GroupOneHasNoLineTerminator(f, m, p);
            }
          }
        }
        None
  }

  /** A white-space run, stated index by index. */
  lemma SpaceRunIndices(f: string, lo: nat, hi: nat)
    requires lo <= hi <= |f| && AllSpace(f[lo..hi])
    ensures forall i :: lo <= i < hi ==> IsSpace(f[i])
  {
    assert forall i :: lo <= i < hi ==> f[i] == f[lo..hi][i - lo];
  }

  /** Group 1 never spans a line terminator. */
  lemma GroupOneHasNoLineTerminator(f: string, m: Span, i: nat)
    requires IsMatch(f, m) && m.start <= i < m.nameEnd
    ensures !IsLineTerminator(f[i])
  {
    assert f[m.start..m.nameEnd][i - m.start] == f[i];
  }

  /** When group 1 ends at `m.nameEnd`, the white-space skip lands on `m`'s `<` and finds its `>`. */
  lemma {:induction false} NoMatchMissedAt(f: string, m: Span, q: nat)
    requires IsMatch(f, m)
    requires m.nameEnd <= q <= |f| && AllSpace(f[m.nameEnd..q]) && (q == |f| || !IsSpace(f[q]))
    ensures q == m.open && q + 2 <= |f| && !IsLineTerminator(f[q + 1]) && FindClose(f, q + 2).Some?
  {
    assert f[q + 1..m.close][0] == f[q + 1];
  }

  /** The leftmost match starting at or after `s`. */
  function SearchFrom(f: string, s: nat): (r: Option<Span>)
    requires s <= |f|
    ensures r.Some? ==> IsMatch(f, r.value) && s <= r.value.start
    ensures r.Some? ==> forall m :: IsMatch(f, m) && s <= m.start ==> Precedes(r.value, m)
    ensures r.None? ==> forall m :: IsMatch(f, m) ==> m.start < s
    decreases |f| - s
  {
    match MatchAt(f, s, s)
    case Some(m) => Some(m)
    case None => if s == |f| then None else SearchFrom(f, s + 1)
  }

  /** `from.match(/(.*?)\s*<(.+?)>/)`: the match the engine reports, if any. */
  function MatchFrom(f: string): (r: Option<Span>)
    ensures r.Some? ==> IsMatch(f, r.value)
    ensures r.Some? ==> forall m :: IsMatch(f, m) ==> Precedes(r.value, m)
    ensures r.None? ==> forall m :: !IsMatch(f, m)
  {
    SearchFrom(f, 0)
  }

  // ---------------------------------------------------------------------
  // Splitting the sender
  // ---------------------------------------------------------------------

  datatype Sender = Sender(name: string, email: string)

  /** Groups 1 and 2 of the match, or the whole value twice when nothing matches. */
  function FromGroups(from: string): (g: (string, string))
    ensures MatchFrom(from).None? ==> g == (from, from)
    ensures MatchFrom(from).Some? ==>
              var m := MatchFrom(from).value;
              g == (from[m.start..m.nameEnd], from[m.open + 1..m.close]) && g.1 != []
  {
    match MatchFrom(from)
    case Some(m) => (from[m.start..m.nameEnd], from[m.open + 1..m.close])
    case None => (from, from)
  }

  /**
    Lines two and three of the split: group 1 cleaned of quotes and white
    space is the name unless group 1 is empty; group 2 is the address unless
    it is empty.
   */
  function SenderOf(g1: string, g2: string, from: string): (r: Sender)
    ensures g1 == [] ==> r.name == g2
    ensures g2 != [] ==> r.email == g2
    ensures g2 == [] ==> r.email == from
  {
    Sender(if g1 != [] then Trim(RemoveAll(g1, '"')) else g2, if g2 != [] then g2 else from)
  }

  /**
    Display name and address from a `From` header value, in terms of the
    engine's match: group 2 is the address and group 1, cleaned, the name,
    with the address standing in for an empty group 1; without a match the
    whole value is the address and its cleaned text the name.
   */
  function ParseFrom(from: string): (r: Sender)
    ensures MatchFrom(from).Some? ==>
              var m := MatchFrom(from).value;
              && r.email == from[m.open + 1..m.close]
              && r.name == (if m.start == m.nameEnd then from[m.open + 1..m.close]
                            else Trim(RemoveAll(from[m.start..m.nameEnd], '"')))
    ensures MatchFrom(from).None? ==> r == Sender(Trim(RemoveAll(from, '"')), from)
    ensures r.email != "" || from == ""
  {
    var g := FromGroups(from);
    SenderOf(g.0, g.1, from)
  }

  /** Quotes and surrounding white space go; trailing white space first or last makes no difference. */
  lemma {:induction false} CleanNameIgnoresTrailingSpace(name: string)
    ensures Trim(RemoveAll(TrimEnd(name), '"')) == Trim(RemoveAll(name, '"'))
  {
    var e := TrimEnd(name);
    var w := name[|e|..];
    assert name == e + w;
    RemoveAllAppend(e, w, '"');
    assert '"' !in w by {
      assert forall i :: 0 <= i < |w| ==> IsSpace(w[i]);
    }
    TrimIgnoresSpaceTail(RemoveAll(e, '"'), w);
  }

  /** In `Name <addr>`, group 1 from the start to the name's trailing white space gives a match. */
  lemma {:induction false} NamedSpanMatches(name: string, addr: string, rest: string)
    requires '<' !in name && NoLineTerminator(name)
    requires addr != [] && '>' !in addr && NoLineTerminator(addr)
    ensures IsMatch(name + "<" + addr + ">" + rest, Span(0, |TrimEnd(name)|, |name|, |name| + 1 + |addr|))
  {
    var f := name + "<" + addr + ">" + rest;
    var e := TrimEnd(name);
    var close := |name| + 1 + |addr|;
    assert f[|name|] == '<' && f[close] == '>';
    assert f[0..|e|] == e;
    assert f[|e|..|name|] == name[|e|..];
    assert f[|name| + 1..close] == addr;
    assert f[|name| + 2..close] == addr[1..];
  }

  /** In `Name <addr>`, the engine's match is that one: no earlier `<` and no shorter group 1. */
  lemma {:induction false} NamedMatch(f: string, name: string, addr: string, rest: string)
    requires f == name + "<" + addr + ">" + rest
    requires '<' !in name && NoLineTerminator(name)
    requires addr != [] && '>' !in addr && NoLineTerminator(addr)
    ensures MatchFrom(f) == Some(Span(0, |TrimEnd(name)|, |name|, |name| + 1 + |addr|))
  {
    var e := TrimEnd(name);
    var w := Span(0, |e|, |name|, |name| + 1 + |addr|);
    NamedSpanMatches(name, addr, rest);
    var m := MatchFrom(f).value;
    assert forall i :: 0 <= i < |name| ==> f[i] == name[i];
    assert m.start == 0;
    assert m.open >= |name|;
    assert e != [] ==> !IsSpace(f[|e| - 1]);
    SpaceRunIndices(f, m.nameEnd, m.open);
    assert m.nameEnd >= |e|;
    MatchDeterminedByGroupOne(f, m, w);
  }

  /**
    `Name <addr>`: the address is what the angle brackets hold and the name is
    the text before them without quotes and surrounding white space; a name
    of only white space falls back to the address.
   */
  lemma {:induction false} ParseFromNamed(f: string, name: string, addr: string, rest: string)
    requires f == name + "<" + addr + ">" + rest
    requires '<' !in name && NoLineTerminator(name)
    requires addr != [] && '>' !in addr && NoLineTerminator(addr)
    ensures ParseFrom(f) == Sender(if AllSpace(name) then addr else Trim(RemoveAll(name, '"')), addr)
  {
    NamedGroups(f, name, addr, rest);
    CleanNameIgnoresTrailingSpace(name);
    TrimEndEmptyIffAllSpace(name);
  }

  /** In `Name <addr>`, group 1 is the name without trailing white space and group 2 the address. */
  lemma {:induction false} NamedGroups(f: string, name: string, addr: string, rest: string)
    requires f == name + "<" + addr + ">" + rest
    requires '<' !in name && NoLineTerminator(name)
    requires addr != [] && '>' !in addr && NoLineTerminator(addr)
    ensures FromGroups(f) == (TrimEnd(name), addr)
  {
    var e := TrimEnd(name);
    NamedMatch(f, name, addr, rest);
    assert f[0..|e|] == e;
    assert f[|name| + 1..|name| + 1 + |addr|] == addr;
  }

  /** `<addr>` alone: the name falls back to the address. */
  lemma {:induction false} ParseFromAngleOnly(f: string, addr: string, rest: string)
    requires f == "<" + addr + ">" + rest
    requires addr != [] && '>' !in addr && NoLineTerminator(addr)
    ensures ParseFrom(f) == Sender(addr, addr)
  {
    assert f == [] + "<" + addr + ">" + rest;
    ParseFromNamed(f, [], addr, rest);
  }

  /** A `From` without `<` is all address, and its cleaned text is the name. */
  lemma {:induction false} ParseFromBare(from: string)
    requires '<' !in from
    ensures ParseFrom(from) == Sender(Trim(RemoveAll(from, '"')), from)
  {
    assert forall m :: IsMatch(from, m) ==> from[m.open] == '<';
  }

  // ---------------------------------------------------------------------
  // The whole message
  // ---------------------------------------------------------------------

  /** The normaliser (`parseGmailMessage`), without the date fields. */
  function ParseGmailMessage(msg: GmailMessage): (r: ParsedEmail)
    ensures r.kind == "email"
    ensures r.subject == GetHeader(msg.headers, "Subject")
    ensures Sender(r.sender, r.senderEmail) == ParseFrom(GetHeader(msg.headers, "From"))
    ensures r.id == msg.id && r.threadId == msg.threadId
    ensures r.labels == (if msg.labelIds.Some? then msg.labelIds.value else [])
    ensures r.isImportant <==> msg.labelIds.Some? && "IMPORTANT" in msg.labelIds.value
    ensures r.isUnread <==> msg.labelIds.Some? && "UNREAD" in msg.labelIds.value
    ensures msg.snippet.None? ==> r.snippet == ""
    ensures msg.snippet.Some? ==> r.snippet == msg.snippet.value
    ensures r.content == r.subject + " " + r.snippet
  {
    var from := GetHeader(msg.headers, "From");
    var subject := GetHeader(msg.headers, "Subject");
    var sender := ParseFrom(from);
    var snippet := msg.snippet.GetOr("");
    var labels := msg.labelIds.GetOr([]);
    ParsedEmail(
      msg.id, msg.threadId, sender.name, sender.email, subject, snippet,
      "UNREAD" in labels, "IMPORTANT" in labels, labels,
      subject + " " + snippet, "email")
  }
}
