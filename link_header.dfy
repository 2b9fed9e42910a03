/**
 * `extractNextPageUrl`: the target of the first `rel="next"` entry of a `Link` header,
 * a simplified reading of the header format of section 3 of RFC 8288.
 */
module LinkHeader {
  import opened Wrappers
  import opened JsString

  const NextRel := "rel=\"next\""

  /** The TypeError raised by `rel.trim()` when an entry has no `;` and `rel` is undefined. */
  const MissingRelMessage := "Cannot read properties of undefined (reading 'trim')"

  /** `url` in `const [url, rel] = link.split(';')` */
  function UrlPart(entry: string): string {
    Split(entry, ';')[0]
  }

  /** `rel` in `const [url, rel] = link.split(';')`: None (undefined) when the entry has no `;` */
  function RelPart(entry: string): Option<string> {
    var parts := Split(entry, ';');
    if |parts| >= 2 then Some(parts[1]) else None
  }

  /** The entry names the next page: its trimmed `rel` part is exactly `rel="next"`. */
  predicate IsNext(entry: string) {
    RelPart(entry).Some? && Trim(RelPart(entry).value) == NextRel
  }

  /** An entry the scan goes past: it has a `rel` part, and that part is not `rel="next"`. */
  predicate Passes(entry: string) {
    RelPart(entry).Some? && !IsNext(entry)
  }

  /** `url.trim().slice(1, -1)`: the URL without its angle brackets. */
  function Target(entry: string): string {
    SliceInner(Trim(UrlPart(entry)))
  }

  /** The scan over the comma-separated entries, in order; the first entry that does not pass decides. */
  function FirstNext(entries: seq<string>): Result<Option<string>, string>
  {
    if entries == [] then Ok(None)
    else if RelPart(entries[0]).None? then Err(MissingRelMessage)
    else if IsNext(entries[0]) then Ok(Some(Target(entries[0])))
    else FirstNext(entries[1..])
  }

  /** The meaning of `extractNextPageUrl(linkHeader)`: Err stands for the TypeError it throws. */
  function NextPageUrl(header: Option<string>): Result<Option<string>, string>
  {
    if header.None? || header.value == "" then Ok(None) else FirstNext(Split(header.value, ','))
  }

  /** `extractNextPageUrl`: the loop with early return over `linkHeader.split(',')`. */
  method ExtractNextPageUrl(header: Option<string>) returns (r: Result<Option<string>, string>)
    ensures r == NextPageUrl(header)
    ensures header.None? || header == Some("") ==> r == Ok(None)
  {
    if header.None? || header.value == "" {
      return Ok(None);
    }
    var links := Split(header.value, ',');
    var i := 0;
    while i < |links|
      invariant 0 <= i <= |links|
      invariant FirstNext(links[i..]) == FirstNext(links)
    {
      var parts := Split(links[i], ';');
      if |parts| < 2 {
        return Err(MissingRelMessage);
      }
      var url, rel := parts[0], parts[1];
      if Trim(rel) == NextRel {
        return Ok(Some(SliceInner(Trim(url))));
      }
      assert links[i..][1..] == links[i + 1..];
      i := i + 1;
    }
    return Ok(None);
  }

  /** The scan returns the target of a `next` entry that every entry before it passes. */
  lemma {:induction false} FirstNextFinds(entries: seq<string>, k: nat)
    requires k < |entries| && IsNext(entries[k])
    requires forall j :: 0 <= j < k ==> Passes(entries[j])
    ensures FirstNext(entries) == Ok(Some(Target(entries[k])))
  {
    if k > 0 {
      assert Passes(entries[0]);
      FirstNextFinds(entries[1..], k - 1);
    }
  }

  /** The scan throws at an entry without `;` that every entry before it passes. */
  lemma {:induction false} FirstNextThrowsAt(entries: seq<string>, k: nat)
    requires k < |entries| && RelPart(entries[k]).None?
    requires forall j :: 0 <= j < k ==> Passes(entries[j])
    ensures FirstNext(entries) == Err(MissingRelMessage)
  {
    if k > 0 {
      assert Passes(entries[0]);
      FirstNextThrowsAt(entries[1..], k - 1);
    }
  }

  /** When the scan throws, some entry without `;` is reached. */
  lemma {:induction false} FirstNextThrowWitness(entries: seq<string>) returns (k: nat)
    requires FirstNext(entries).Err?
    ensures k < |entries| && RelPart(entries[k]).None?
    ensures forall j :: 0 <= j < k ==> Passes(entries[j])
  {
    if RelPart(entries[0]).None? {
      k := 0;
    } else {
      var k' := FirstNextThrowWitness(entries[1..]);
      k := k' + 1;
      assert entries[k] == entries[1..][k'];
      assert forall j :: 0 < j < k ==> entries[j] == entries[1..][j - 1];
    }
  }

  /** The scan finds nothing exactly when every entry passes. */
  lemma {:induction false} FirstNextNone(entries: seq<string>)
    ensures FirstNext(entries) == Ok(None) <==> forall j :: 0 <= j < |entries| ==> Passes(entries[j])
  {
    if entries != [] {
      FirstNextNone(entries[1..]);
      assert forall j :: 0 < j < |entries| ==> entries[j] == entries[1..][j - 1];
    }
  }

  /**
   * What the scan returns: the target of the first `next` entry when every entry before it
   * passes; the TypeError when an entry without `;` comes first; null when every entry passes.
   */
  lemma FirstNextMeaning(entries: seq<string>)
    ensures forall k :: 0 <= k < |entries| && IsNext(entries[k]) && (forall j :: 0 <= j < k ==> Passes(entries[j]))
                        ==> FirstNext(entries) == Ok(Some(Target(entries[k])))
    ensures FirstNext(entries).Err? <==>
              exists k :: 0 <= k < |entries| && RelPart(entries[k]).None? && (forall j :: 0 <= j < k ==> Passes(entries[j]))
    ensures FirstNext(entries).Err? ==> FirstNext(entries).error == MissingRelMessage
    ensures FirstNext(entries) == Ok(None) <==> forall j :: 0 <= j < |entries| ==> Passes(entries[j])
  {
    forall k | 0 <= k < |entries| && IsNext(entries[k]) && (forall j :: 0 <= j < k ==> Passes(entries[j]))
      ensures FirstNext(entries) == Ok(Some(Target(entries[k])))
    {
      FirstNextFinds(entries, k);
    }
    forall k | 0 <= k < |entries| && RelPart(entries[k]).None? && (forall j :: 0 <= j < k ==> Passes(entries[j]))
      ensures FirstNext(entries) == Err(MissingRelMessage)
    {
      FirstNextThrowsAt(entries, k);
    }
    if FirstNext(entries).Err? {
      var k := FirstNextThrowWitness(entries);
      FirstNextThrowsAt(entries, k);
    }
    FirstNextNone(entries);
  }

  /** One entry of a `Link` header as the service writes it. */
  datatype Link = Link(url: string, rel: string)

  /** A link that the comma and semicolon splits leave whole. */
  predicate WellFormed(l: Link) {
    ',' !in l.url && ';' !in l.url && ',' !in l.rel && ';' !in l.rel
  }

  /** `<url>` */
  function Bracketed(url: string): string {
    "<" + url + ">"
  }

  /** ` rel="name"` */
  function RelParam(rel: string): string {
    " rel=\"" + rel + "\""
  }

  /** `<url>; rel="name"` */
  function FormatEntry(l: Link): string {
    Bracketed(l.url) + ";" + RelParam(l.rel)
  }

  /** The entries of a header, the first preceded by `lead` and the rest by the space after each comma. */
  function Pieces(links: seq<Link>, lead: string): seq<string> {
    if links == [] then [] else [lead + FormatEntry(links[0])] + Pieces(links[1..], " ")
  }

  /** A `Link` header: the entries joined by ", ". */
  function FormatLinks(links: seq<Link>): string {
    Join(Pieces(links, ""), ',')
  }

  /** The reference answer: the URL of the first link whose relation is `next`. */
  function FirstNextLink(links: seq<Link>): Option<string> {
    if links == [] then None
    else if links[0].rel == "next" then Some(links[0].url)
    else FirstNextLink(links[1..])
  }

  lemma EntrySplit(l: Link, lead: string)
    requires WellFormed(l)
    requires lead == "" || lead == " "
    ensures Split(lead + FormatEntry(l), ';') == [lead + Bracketed(l.url), RelParam(l.rel)]
  {
    var a := lead + Bracketed(l.url);
    var b := RelParam(l.rel);
    assert lead + FormatEntry(l) == a + [';'] + b;
    SplitAround(a, b, ';');
    assert ';' !in a && ';' !in b;
  }

  function RelValue(rel: string): string {
    "rel=\"" + rel + "\""
  }

  lemma RelValueIsNext(rel: string)
    ensures RelValue(rel) == NextRel <==> rel == "next"
  {
    var r := RelValue(rel);
    if r == NextRel {
      assert |rel| == 4;
      assert r[5..9] == rel;
      assert NextRel[5..9] == "next";
    }
  }

  lemma RelTrim(rel: string)
    ensures Trim(RelParam(rel)) == RelValue(rel)
  {
    var r := RelValue(rel);
    assert RelParam(rel) == " " + r;
    assert IsSpace(' ');
    TrimAfterSpaces(" ", r);
    assert r[0] == 'r' && r[|r| - 1] == '"';
    TrimOfTrimmed(r);
  }

  lemma UrlTrim(url: string, lead: string)
    requires lead == "" || lead == " "
    ensures SliceInner(Trim(lead + Bracketed(url))) == url
  {
    assert forall k :: 0 <= k < |lead| ==> lead[k] == ' ';
    TrimAfterSpaces(lead, Bracketed(url));
    BracketedTrimmed(url);
    SliceBracketed(url);
  }

  lemma SliceBracketed(url: string)
    ensures SliceInner(Bracketed(url)) == url
  {
    var inner := Bracketed(url);
    assert inner[1..|inner| - 1] == url;
  }

  lemma BracketedTrimmed(url: string)
    ensures Trim(Bracketed(url)) == Bracketed(url)
  {
    var inner := Bracketed(url);
    assert inner[0] == '<' && inner[|inner| - 1] == '>';
    TrimOfTrimmed(inner);
  }

  lemma EntryParts(l: Link, lead: string)
    requires WellFormed(l)
    requires lead == "" || lead == " "
    ensures RelPart(lead + FormatEntry(l)) == Some(RelParam(l.rel))
    ensures IsNext(lead + FormatEntry(l)) <==> l.rel == "next"
    ensures Target(lead + FormatEntry(l)) == l.url
  {
    EntrySplit(l, lead);
    RelTrim(l.rel);
    RelValueIsNext(l.rel);
    UrlTrim(l.url, lead);
  }

  lemma {:induction false} PiecesScan(links: seq<Link>, lead: string)
    requires forall k :: 0 <= k < |links| ==> WellFormed(links[k])
    requires lead == "" || lead == " "
    ensures FirstNext(Pieces(links, lead)) == Ok(FirstNextLink(links))
  {
    if links != [] {
      EntryParts(links[0], lead);
      PiecesScan(links[1..], " ");
      assert Pieces(links, lead)[1..] == Pieces(links[1..], " ");
    }
  }

  lemma {:induction false} PiecesShape(links: seq<Link>, lead: string)
    requires forall k :: 0 <= k < |links| ==> WellFormed(links[k])
    requires lead == "" || lead == " "
    ensures |Pieces(links, lead)| == |links|
    ensures forall k :: 0 <= k < |links| ==> ',' !in Pieces(links, lead)[k] && '<' in Pieces(links, lead)[k]
  {
    if links != [] {
      PiecesShape(links[1..], " ");
      var p := lead + FormatEntry(links[0]);
      assert p == lead + "<" + (links[0].url + ">" + ";" + RelParam(links[0].rel));
      assert p[|lead|] == '<';
    }
  }

  /**
   * Round trip: reading a header written from well-formed links yields the URL of the
   * first link whose relation is `next`, and null when there is none.
   */
  lemma ReadFormattedHeader(links: seq<Link>)
    requires forall k :: 0 <= k < |links| ==> WellFormed(links[k])
    ensures NextPageUrl(Some(FormatLinks(links))) == Ok(FirstNextLink(links))
  {
    if links != [] {
      var ps := Pieces(links, "");
      PiecesShape(links, "");
      SplitJoin(ps, ',');
      PiecesScan(links, "");
    }
  }
}
