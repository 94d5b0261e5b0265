/**
 * The SES lambda: yesterday's citations, the addresses on the SES contact
 * list, and the HTML fragment of links for the e-mail, in one response.
 *
 * As in the other lambdas, the database rows and the SES client's answers
 * are parameters.  Unlike the contact lambda, this one asks for pages of 50,
 * passes `NextToken=None` on the first call, and on a `ClientError` keeps
 * the addresses it already has.
 */
module SesLambda {
  import opened Wrappers
  import C = ContactLambda
  import R = ReportLambda

  /** The start of an e-mail link, up to the query parameter that carries the citation. */
  const SES_HEAD: string :=
    "<a href='http://judgment-reader-server-1125183899.eu-west-2.elb.amazonaws.com/Explore_Judgments?neutration_citation="

  const PAGE_SIZE: nat := 50

  /** The exception the hyperlink loop raises as written. */
  datatype HyperlinkError = UnboundLocalError

  /** The lambda's result: `{"StatusCode": ..., "SubscribedEmails": ..., "JudgmentData": ...}`. */
  datatype SesResponse = SesResponse(statusCode: int, subscribedEmails: seq<string>, judgmentData: string)

  /** The request of call `j`: pages of 50, `NextToken=None` first, then the previous page's token. */
  predicate SesListRequest(contactListName: string, replies: seq<C.Reply>, j: nat, request: C.Request)
    requires j < |replies|
  {
    if j == 0 then request == C.Request(contactListName, Some(PAGE_SIZE), C.PassedNone)
    else
      && replies[j - 1].Page? && replies[j - 1].nextToken.Some?
      && request == C.Request(contactListName, Some(PAGE_SIZE), C.Passed(replies[j - 1].nextToken.value))
  }

  /**
   * What `get_subscribed_emails` returns: the addresses of every page up to
   * the first final answer, that answer's own addresses included when it is
   * a page and left out when it is a swallowed `ClientError`.
   */
  function CollectedOrPartial(replies: seq<C.Reply>): seq<string>
    requires C.Ends(replies)
  {
    var n := C.FirstFinal(replies);
    C.BeforeFinalArePages(replies, n);
    if replies[n].ClientError? then C.Emails(replies[..n])
    else C.Emails(replies[..n + 1])
  }

  /** The paging loop of `get_subscribed_emails`; the error message it prints is not modelled. */
  method GetSubscribedEmails(replies: seq<C.Reply>, contactListName: string)
    returns (contacts: seq<string>, requests: seq<C.Request>)
    requires C.Ends(replies)
    ensures contacts == CollectedOrPartial(replies)
    ensures |requests| == C.FirstFinal(replies) + 1
    ensures forall j | 0 <= j < |requests| :: SesListRequest(contactListName, replies, j, requests[j])
  {
    ghost var n := C.FirstFinal(replies);
    var emails: seq<string> := [];
    var nextToken: Option<string> := None;
    var i := 0;
    requests := [];
    while true
      invariant 0 <= i <= n
      invariant C.AllPages(replies[..i])
      invariant emails == C.Emails(replies[..i])
      invariant nextToken == (if i == 0 then None else replies[i - 1].nextToken)
      invariant |requests| == i
      invariant forall j | 0 <= j < i :: SesListRequest(contactListName, replies, j, requests[j])
      decreases |replies| - i
    {
      C.BeforeFinalArePages(replies, i);
      var tokenArg := if nextToken.Some? then C.Passed(nextToken.value) else C.PassedNone;
      var request := C.Request(contactListName, Some(PAGE_SIZE), tokenArg);
      assert SesListRequest(contactListName, replies, i, request);
      requests := requests + [request];
      var response := replies[i];
      if response.ClientError? {
        C.FinalIsFirst(replies, i);
        PartialOnError(replies, i);
        return emails, requests;
      }
      var page := C.PageContacts(response);
      var k := 0;
      while k < |page|
        invariant 0 <= k <= |page|
        invariant emails == C.Emails(replies[..i]) + C.Addresses(page[..k])
      {
        assert C.Addresses(page[..k + 1]) == C.Addresses(page[..k]) + [page[k].emailAddress];
        emails := emails + [page[k].emailAddress];
        k := k + 1;
      }
      assert page[..k] == page;
      C.EmailsStep(replies, i);
      nextToken := response.nextToken;
      if !C.Truthy(nextToken) {
        C.FinalIsFirst(replies, i);
        CompleteOnLastPage(replies, i);
        return emails, requests;
      }
      i := i + 1;
    }
  }

  /** A `ClientError` as the first final answer leaves the addresses of the pages before it. */
  lemma PartialOnError(replies: seq<C.Reply>, i: nat)
    requires C.Ends(replies) && i == C.FirstFinal(replies) && replies[i].ClientError?
    requires C.AllPages(replies[..i])
    ensures CollectedOrPartial(replies) == C.Emails(replies[..i])
  {
  }

  /** A page as the first final answer adds its own addresses. */
  lemma CompleteOnLastPage(replies: seq<C.Reply>, i: nat)
    requires C.Ends(replies) && i == C.FirstFinal(replies) && replies[i].Page?
    requires C.AllPages(replies[..i + 1])
    ensures CollectedOrPartial(replies) == C.Emails(replies[..i + 1])
  {
  }

  /** What the hyperlink loop does as written: fine on no judgments, `UnboundLocalError` on the first one otherwise. */
  function HyperlinksAsWritten(judgments: seq<string>): Result<string, HyperlinkError>
  {
    if judgments == [] then Ok("") else Err(UnboundLocalError)
  }

  /**
   * `get_judgment_html_hyperlinks` as written: the loop body augments
   * `html_content`, a name it never bound, so its first iteration raises.
   */
  method GetJudgmentHtmlHyperlinksAsWritten(judgments: seq<string>) returns (r: Result<string, HyperlinkError>)
    ensures r.Ok? <==> judgments == []
    ensures r.Ok? ==> r.value == ""
    ensures r == HyperlinksAsWritten(judgments)
  {
    var htmlStr := "";
    for i := 0 to |judgments|
      invariant i == 0
    {
      return Err(UnboundLocalError);
    }
    return Ok(htmlStr);
  }

  /** `get_judgment_html_hyperlinks` as evidently intended: one link per judgment, appended to `html_str`. */
  method GetJudgmentHtmlHyperlinks(judgments: seq<string>) returns (htmlStr: string)
    ensures htmlStr == R.Links(SES_HEAD, judgments)
    ensures forall i | 0 <= i < |judgments| :: R.Contains(htmlStr, judgments[i])
  {
    htmlStr := "";
    for i := 0 to |judgments|
      invariant htmlStr == R.Links(SES_HEAD, judgments[..i])
    {
      assert judgments[..i + 1][..i] == judgments[..i];
      htmlStr := htmlStr + R.Link(SES_HEAD, judgments[i]);
    }
    assert judgments[..|judgments|] == judgments;
    R.EveryCitationLinked(SES_HEAD, judgments);
  }

  /**
   * The handler as written: the contact list is read, and then any judgment
   * makes the hyperlink loop raise, so a response comes back only on a day
   * without judgments.
   */
  method HandlerAsWritten(rows: seq<R.CitationRow>, replies: seq<C.Reply>, contactListName: string)
    returns (response: Result<SesResponse, HyperlinkError>, requests: seq<C.Request>)
    requires C.Ends(replies)
    ensures response.Ok? <==> rows == []
    ensures response.Ok? ==> response.value == SesResponse(200, CollectedOrPartial(replies), "")
    ensures response.Err? ==> response.error == UnboundLocalError
    ensures |requests| == C.FirstFinal(replies) + 1
  {
    var yesterdaysJudgments := R.Citations(rows);
    var subscribedEmails;
    subscribedEmails, requests := GetSubscribedEmails(replies, contactListName);
    var judgmentData := GetJudgmentHtmlHyperlinksAsWritten(yesterdaysJudgments);
    if judgmentData.Err? {
      return Err(judgmentData.error), requests;
    }
    response := Ok(SesResponse(200, subscribedEmails, judgmentData.value));
  }

  /** The handler with the hyperlink loop corrected: status 200, the addresses, and a link per citation. */
  method Handler(rows: seq<R.CitationRow>, replies: seq<C.Reply>, contactListName: string)
    returns (response: SesResponse, requests: seq<C.Request>)
    requires C.Ends(replies)
    ensures response == SesResponse(200, CollectedOrPartial(replies), R.Links(SES_HEAD, R.Citations(rows)))
    ensures forall i | 0 <= i < |rows| :: R.Contains(response.judgmentData, rows[i].neutralCitation)
    ensures |requests| == C.FirstFinal(replies) + 1
  {
    var yesterdaysJudgments := R.Citations(rows);
    var subscribedEmails;
    subscribedEmails, requests := GetSubscribedEmails(replies, contactListName);
    var judgmentData := GetJudgmentHtmlHyperlinks(yesterdaysJudgments);
    response := SesResponse(200, subscribedEmails, judgmentData);
  }

  // ---------------------------------------------------------------------
  // Properties.
  // ---------------------------------------------------------------------

  /**
   * Against the contact lambda: on success both return the same list; on a
   * `ClientError` this lambda returns what the contact lambda would have
   * returned had the failing call answered an empty last page.
   */
  lemma SwallowedErrorIsEmptyLastPage(replies: seq<C.Reply>)
    requires C.Ends(replies)
    ensures C.Collected(replies).Ok? ==> CollectedOrPartial(replies) == C.Collected(replies).value
    ensures var recovered := replies[C.FirstFinal(replies) := C.Page(None, None)];
      C.Collected(replies).Err? ==>
        C.Ends(recovered) && C.Collected(recovered) == Ok(CollectedOrPartial(replies))
  {
    var n := C.FirstFinal(replies);
    if replies[n].ClientError? {
      var recovered := replies[n := C.Page(None, None)];
      assert C.Final(recovered[n]);
      assert C.Ends(recovered);
      var m := C.FirstFinal(recovered);
      assert forall j | 0 <= j < n :: recovered[j] == replies[j];
      assert m == n;
      C.BeforeFinalArePages(replies, n);
      assert recovered[..n] == replies[..n];
      assert recovered[..n + 1] == replies[..n] + [C.Page(None, None)];
      C.MissingContactsAddNothing(replies[..n], None);
    }
  }

  /** The corrected loop on the handler test's citations: it links `JUDGMENT001`, where the loop as written raises. */
  lemma HyperlinksAsWrittenFail()
    ensures HyperlinksAsWritten(["JUDGMENT001", "JUDGMENT002"]) == Err(UnboundLocalError)
    ensures R.Contains(R.Links(SES_HEAD, ["JUDGMENT001", "JUDGMENT002"]), "JUDGMENT001")
  {
    var js := ["JUDGMENT001", "JUDGMENT002"];
    R.LinkedAt(SES_HEAD, js, 0);
  }
}
