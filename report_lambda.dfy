/**
 * The report lambda: the neutral citations of yesterday's judgments, and
 * an HTML fragment with one link per citation to the judgment's page on
 * the reader site.
 *
 * The database is a parameter: `rows` are what the query returns.  Which
 * rows are yesterday's is decided by the query's own `WHERE` clause.
 */
module ReportLambda {
  import opened Wrappers

  /** A row of the query's `RealDictCursor`; it selects only `neutral_citation`. */
  datatype CitationRow = CitationRow(neutralCitation: string)

  /** The lambda's result: `{"StatusCode": ..., "JudgmentData": ...}`. */
  datatype ReportResponse = ReportResponse(statusCode: int, judgmentData: string)

  /** `get_yesterdays_judgments`: each row's citation, in row order. */
  function Citations(rows: seq<CitationRow>): (r: seq<string>)
    ensures |r| == |rows|
    ensures forall i | 0 <= i < |rows| :: r[i] == rows[i].neutralCitation
  {
    seq(|rows|, i requires 0 <= i < |rows| => rows[i].neutralCitation)
  }

  /** The start of a report link, up to the query parameter that carries the citation. */
  const REPORT_HEAD: string :=
    "<a href='judgment-reader-server-552138396.eu-west-2.elb.amazonaws.com/Explore_Judgments?selected_citation="

  /** Between the citation in the URL and the citation as link text. */
  const LINK_MID: string := "#case-overview'>"

  const LINK_TAIL: string := "</a><br>"

  /** One link: the citation in the URL after `head`, then again as the link text, then a line break. */
  function Link(head: string, citation: string): string
  {
    head + citation + LINK_MID + citation + LINK_TAIL
  }

  /** The links of `judgments`, one after another, in order. */
  function Links(head: string, judgments: seq<string>): string
  {
    if judgments == [] then ""
    else Links(head, judgments[..|judgments| - 1]) + Link(head, judgments[|judgments| - 1])
  }

  /** Reading a link back: the citation, if `a` is a link with this head. */
  function ReadLink(head: string, a: string): Option<string>
  {
    var fixed := |head| + |LINK_MID| + |LINK_TAIL|;
    if |a| < fixed || (|a| - fixed) % 2 != 0 then None
    else
      var c := a[|head|..|head| + (|a| - fixed) / 2];
      if a == Link(head, c) then Some(c) else None
  }

  /** `t` occurs in `s` starting at index `k`. */
  predicate OccursAt(s: string, t: string, k: int)
  {
    0 <= k <= |s| - |t| && s[k..k + |t|] == t
  }

  /** `t` occurs in `s` (Python's `t in s` on strings). */
  predicate Contains(s: string, t: string)
  {
    exists k | 0 <= k <= |s| :: OccursAt(s, t, k)
  }

  /** `get_judgment_html_hyperlinks`: the loop that appends one link per judgment. */
  method GetJudgmentHtmlHyperlinks(judgments: seq<string>) returns (htmlStr: string)
    ensures htmlStr == Links(REPORT_HEAD, judgments)
  {
    htmlStr := "";
    for i := 0 to |judgments|
      invariant htmlStr == Links(REPORT_HEAD, judgments[..i])
    {
      assert judgments[..i + 1][..i] == judgments[..i];
      htmlStr := htmlStr + Link(REPORT_HEAD, judgments[i]);
    }
    assert judgments[..|judgments|] == judgments;
  }

  /** The lambda handler: status 200 and the links of yesterday's citations, every one of them present. */
  method Handler(rows: seq<CitationRow>) returns (response: ReportResponse)
    ensures response == ReportResponse(200, Links(REPORT_HEAD, Citations(rows)))
    ensures forall i | 0 <= i < |rows| :: Contains(response.judgmentData, rows[i].neutralCitation)
  {
    var yesterdaysJudgments := Citations(rows);
    var judgmentData := GetJudgmentHtmlHyperlinks(yesterdaysJudgments);
    EveryCitationLinked(REPORT_HEAD, yesterdaysJudgments);
    response := ReportResponse(200, judgmentData);
  }

  // ---------------------------------------------------------------------
  // Properties of the links.
  // ---------------------------------------------------------------------

  /** A link carries its citation after `head` and again as link text, and ends with `<br>`. */
  lemma LinkShape(head: string, c: string)
    ensures var a := Link(head, c);
      && a[..|head|] == head
      && a[|head|..|head| + |c|] == c
      && a[|head| + |c|..|head| + |c| + |LINK_MID|] == LINK_MID
      && a[|head| + |c| + |LINK_MID|..|head| + 2 * |c| + |LINK_MID|] == c
      && a[|a| - 4..] == "<br>"
  {
    var a := Link(head, c);
    assert a == head + c + LINK_MID + c + LINK_TAIL;
    assert a[|a| - |LINK_TAIL|..] == LINK_TAIL;
    assert LINK_TAIL[|LINK_TAIL| - 4..] == "<br>";
  }

  /** A link determines its citation: reading it back gives the citation. */
  lemma ReadLinkRoundTrip(head: string, c: string)
    ensures ReadLink(head, Link(head, c)) == Some(c)
  {
    LinkShape(head, c);
    var a := Link(head, c);
    var fixed := |head| + |LINK_MID| + |LINK_TAIL|;
    assert |a| - fixed == 2 * |c|;
    assert (|a| - fixed) / 2 == |c|;
  }

  /** Building links is concatenation: `f(a + b) == f(a) + f(b)`. */
  lemma {:induction false} LinksAppend(head: string, a: seq<string>, b: seq<string>)
    ensures Links(head, a + b) == Links(head, a) + Links(head, b)
    decreases |b|
  {
    if b == [] {
      assert a + b == a;
    } else {
      var n := |b| - 1;
      assert (a + b)[..|a + b| - 1] == a + b[..n];
      assert (a + b)[|a + b| - 1] == b[n];
      LinksAppend(head, a, b[..n]);
      calc {
        Links(head, a + b);
        Links(head, a + b[..n]) + Link(head, b[n]);
        (Links(head, a) + Links(head, b[..n])) + Link(head, b[n]);
        Links(head, a) + (Links(head, b[..n]) + Link(head, b[n]));
        Links(head, a) + Links(head, b);
      }
    }
  }

  /** The link of judgment `i` sits between the links of the earlier and of the later judgments. */
  lemma LinksSplit(head: string, judgments: seq<string>, i: nat)
    requires i < |judgments|
    ensures Links(head, judgments)
      == Links(head, judgments[..i]) + Link(head, judgments[i]) + Links(head, judgments[i + 1..])
  {
    var front := judgments[..i + 1];
    assert front[..i] == judgments[..i] && front[i] == judgments[i];
    assert front + judgments[i + 1..] == judgments;
    LinksAppend(head, front, judgments[i + 1..]);
  }

  /** No judgments, no links; and any judgment gives a non-empty fragment. */
  lemma NoLinksIffNoJudgments(head: string, judgments: seq<string>)
    ensures Links(head, judgments) == "" <==> judgments == []
  {
    if judgments != [] {
      LinksSplit(head, judgments, 0);
      assert |Link(head, judgments[0])| > 0;
    }
  }

  lemma InfixContained(pre: string, t: string, post: string)
    ensures Contains(pre + t + post, t)
  {
    var s := pre + t + post;
    assert s[|pre|..|pre| + |t|] == t;
    assert OccursAt(s, t, |pre|);
  }

  lemma LinkedAt(head: string, judgments: seq<string>, i: nat)
    requires i < |judgments|
    ensures Contains(Links(head, judgments), Link(head, judgments[i]))
    ensures Contains(Links(head, judgments), judgments[i])
  {
    var c := judgments[i];
    var before, after := Links(head, judgments[..i]), Links(head, judgments[i + 1..]);
    LinksSplit(head, judgments, i);
    InfixContained(before, Link(head, c), after);
    CitationInLink(before, head, c, after);
  }

  lemma CitationInLink(before: string, head: string, c: string, after: string)
    ensures Contains(before + Link(head, c) + after, c)
  {
    var rest := LINK_MID + c + LINK_TAIL + after;
    assert before + Link(head, c) + after == (before + head) + c + rest;
    InfixContained(before + head, c, rest);
  }

  /** Every judgment's link, and so its citation, occurs in the fragment. */
  lemma EveryCitationLinked(head: string, judgments: seq<string>)
    ensures forall i | 0 <= i < |judgments| :: Contains(Links(head, judgments), Link(head, judgments[i]))
    ensures forall i | 0 <= i < |judgments| :: Contains(Links(head, judgments), judgments[i])
  {
    forall i | 0 <= i < |judgments|
      ensures Contains(Links(head, judgments), Link(head, judgments[i]))
      ensures Contains(Links(head, judgments), judgments[i])
    {
      LinkedAt(head, judgments, i);
    }
  }
}
