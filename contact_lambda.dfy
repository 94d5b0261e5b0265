/**
 * The contact lambda: page through an SES contact list with
 * `list_contacts`, following `NextToken`, and return the addresses.
 *
 * The SES client is a parameter: `replies` are the client's answers in call
 * order, so the `i`-th call receives `replies[i]`.  The methods also return
 * the requests they sent, so the contracts can say what each call carried.
 */
module ContactLambda {
  import opened Wrappers

  /** A contact of the list; the SES API always reports its `EmailAddress`. */
  datatype Contact = Contact(emailAddress: string)

  /**
   * One answer of `list_contacts`: a page, or a `ClientError`.  `contacts`
   * is `None` when the page has no `Contacts` key.
   */
  datatype Reply = Page(contacts: Option<seq<Contact>>, nextToken: Option<string>) | ClientError

  /** How a request passes `NextToken`: not at all, explicitly as `None`, or with a token. */
  datatype TokenArg = Absent | PassedNone | Passed(token: string)

  /** The keyword arguments of one `list_contacts` call. */
  datatype Request = Request(contactListName: string, pageSize: Option<nat>, nextToken: TokenArg)

  /** The exception that leaves `get_subscribed_emails`. */
  datatype Raised = RaisedClientError

  /** The lambda's result: `{"StatusCode": ..., "SubscribedEmails": ...}`. */
  datatype ContactsResponse = ContactsResponse(statusCode: int, subscribedEmails: seq<string>)

  /** Python truthiness of a `NextToken`: present and non-empty. */
  predicate Truthy(token: Option<string>)
  {
    token.Some? && token.value != ""
  }

  /** An answer after which the loop sends no further request. */
  predicate Final(r: Reply)
  {
    r.ClientError? || !Truthy(r.nextToken)
  }

  /** The service eventually ends the listing: some answer is final. */
  predicate Ends(replies: seq<Reply>)
  {
    exists i | 0 <= i < |replies| :: Final(replies[i])
  }

  /** The index of the first final answer: the loop makes exactly this many calls plus one. */
  function FirstFinal(replies: seq<Reply>): (n: nat)
    requires Ends(replies)
    ensures n < |replies| && Final(replies[n])
    ensures forall j | 0 <= j < n :: !Final(replies[j])
    decreases |replies|
  {
    if Final(replies[0]) then 0
    else
      assert Ends(replies[1..]) by {
        var i :| 0 <= i < |replies| && Final(replies[i]);
        assert replies[1..][i - 1] == replies[i];
      }
      var m := FirstFinal(replies[1..]);
      assert forall j | 1 <= j <= m :: replies[j] == replies[1..][j - 1];
      1 + m
  }

  /** `response.get('Contacts', [])`. */
  function PageContacts(r: Reply): seq<Contact>
    requires r.Page?
  {
    if r.contacts.Some? then r.contacts.value else []
  }

  function Addresses(cs: seq<Contact>): seq<string>
  {
    seq(|cs|, k requires 0 <= k < |cs| => cs[k].emailAddress)
  }

  predicate AllPages(replies: seq<Reply>)
  {
    forall i | 0 <= i < |replies| :: replies[i].Page?
  }

  /** The addresses on a run of pages: page by page, and within a page in contact order. */
  function Emails(pages: seq<Reply>): seq<string>
    requires AllPages(pages)
  {
    if pages == [] then []
    else Emails(pages[..|pages| - 1]) + Addresses(PageContacts(pages[|pages| - 1]))
  }

  /** Every answer before the first final one is a page with a truthy token. */
  lemma BeforeFinalArePages(replies: seq<Reply>, i: nat)
    requires Ends(replies) && i <= FirstFinal(replies)
    ensures AllPages(replies[..i])
    ensures forall j | 0 <= j < i :: Truthy(replies[j].nextToken)
  {
  }

  /** A final answer the loop reaches is the first final one. */
  lemma FinalIsFirst(replies: seq<Reply>, i: nat)
    requires Ends(replies) && i <= FirstFinal(replies) && i < |replies| && Final(replies[i])
    ensures i == FirstFinal(replies)
  {
  }

  /** One more page adds its addresses at the end. */
  lemma EmailsStep(replies: seq<Reply>, i: nat)
    requires i < |replies| && AllPages(replies[..i]) && replies[i].Page?
    ensures AllPages(replies[..i + 1])
    ensures Emails(replies[..i + 1]) == Emails(replies[..i]) + Addresses(PageContacts(replies[i]))
  {
    assert replies[..i + 1][..i] == replies[..i];
  }

  /**
   * The request of call `j`: the first names only the contact list; every
   * later one adds the previous page's `NextToken`.
   */
  predicate ListRequest(contactListName: string, replies: seq<Reply>, j: nat, request: Request)
    requires j < |replies|
  {
    if j == 0 then request == Request(contactListName, None, Absent)
    else
      && replies[j - 1].Page? && replies[j - 1].nextToken.Some?
      && request == Request(contactListName, None, Passed(replies[j - 1].nextToken.value))
  }

  /**
   * What `get_subscribed_emails` returns: the addresses of every page up to
   * and including the first with a falsy token, or the re-raised
   * `ClientError` with no partial list.
   */
  function Collected(replies: seq<Reply>): Result<seq<string>, Raised>
    requires Ends(replies)
  {
    var n := FirstFinal(replies);
    BeforeFinalArePages(replies, n);
    if replies[n].ClientError? then Err(RaisedClientError)
    else Ok(Emails(replies[..n + 1]))
  }

  /** The paging loop of `get_subscribed_emails`; a `ClientError` is logged before it is re-raised. */
  method GetSubscribedEmails(replies: seq<Reply>, contactListName: string)
    returns (result: Result<seq<string>, Raised>, requests: seq<Request>, log: seq<Log>)
    requires Ends(replies)
    ensures result == Collected(replies)
    ensures log == (if result.Err? then [LogError("Error connecting to client")] else [])
    ensures |requests| == FirstFinal(replies) + 1
    ensures forall j | 0 <= j < |requests| :: ListRequest(contactListName, replies, j, requests[j])
  {
    ghost var n := FirstFinal(replies);
    var emails: seq<string> := [];
    var nextToken: Option<string> := None;
    var i := 0;
    requests, log := [], [];
    while true
      invariant 0 <= i <= n
      invariant AllPages(replies[..i])
      invariant emails == Emails(replies[..i])
      invariant nextToken == (if i == 0 then None else replies[i - 1].nextToken)
      invariant |requests| == i
      invariant forall j | 0 <= j < i :: ListRequest(contactListName, replies, j, requests[j])
      decreases |replies| - i
    {
      BeforeFinalArePages(replies, i);
      var tokenArg := if Truthy(nextToken) then Passed(nextToken.value) else Absent;
      assert ListRequest(contactListName, replies, i, Request(contactListName, None, tokenArg));
      requests := requests + [Request(contactListName, None, tokenArg)];
      var response := replies[i];
      if response.ClientError? {
        FinalIsFirst(replies, i);
        return Err(RaisedClientError), requests, [LogError("Error connecting to client")];
      }
      var contacts := PageContacts(response);
      var k := 0;
      while k < |contacts|
        invariant 0 <= k <= |contacts|
        invariant emails == Emails(replies[..i]) + Addresses(contacts[..k])
      {
        assert Addresses(contacts[..k + 1]) == Addresses(contacts[..k]) + [contacts[k].emailAddress];
        emails := emails + [contacts[k].emailAddress];
        k := k + 1;
      }
      assert contacts[..k] == contacts;
      EmailsStep(replies, i);
      nextToken := response.nextToken;
      if !Truthy(nextToken) {
        FinalIsFirst(replies, i);
        return Ok(emails), requests, [];
      }
      i := i + 1;
    }
  }

  /** The lambda handler: status 200 and the addresses; a `ClientError` propagates. */
  method Handler(replies: seq<Reply>, contactListName: string)
    returns (response: Result<ContactsResponse, Raised>, requests: seq<Request>, log: seq<Log>)
    requires Ends(replies)
    ensures Collected(replies).Ok? ==> response == Ok(ContactsResponse(200, Collected(replies).value)) && log == []
    ensures Collected(replies).Err? ==> response == Err(RaisedClientError) && log == [LogError("Error connecting to client")]
    ensures |requests| == FirstFinal(replies) + 1
    ensures forall j | 0 <= j < |requests| :: ListRequest(contactListName, replies, j, requests[j])
  {
    var emails;
    emails, requests, log := GetSubscribedEmails(replies, contactListName);
    if emails.Err? {
      return Err(emails.error), requests, log;
    }
    response := Ok(ContactsResponse(200, emails.value));
  }

  // ---------------------------------------------------------------------
  // Properties of the collected list.
  // ---------------------------------------------------------------------

  /** Collecting is concatenation: the pages of `a` then the pages of `b`. */
  lemma {:induction false} EmailsAppend(a: seq<Reply>, b: seq<Reply>)
    requires AllPages(a) && AllPages(b)
    ensures AllPages(a + b)
    ensures Emails(a + b) == Emails(a) + Emails(b)
    decreases |b|
  {
    if b == [] {
      assert a + b == a;
    } else {
      var n := |b| - 1;
      assert (a + b)[..|a + b| - 1] == a + b[..n];
      assert (a + b)[|a + b| - 1] == b[n];
      EmailsAppend(a, b[..n]);
    }
  }

  /** Any run of pages cut from pages is pages. */
  lemma PagesSlice(pages: seq<Reply>, lo: nat, hi: nat)
    requires AllPages(pages) && lo <= hi <= |pages|
    ensures AllPages(pages[lo..hi])
  {
    assert forall j | 0 <= j < hi - lo :: pages[lo..hi][j] == pages[lo + j];
  }

  /** Every contact of every page is listed, in page order: its address sits between the earlier and the later pages'. */
  lemma EmailsSplit(pages: seq<Reply>, i: nat)
    requires AllPages(pages) && i < |pages|
    ensures Emails(pages) == Emails(pages[..i]) + Addresses(PageContacts(pages[i])) + Emails(pages[i + 1..])
  {
    var head, tail := pages[..i + 1], pages[i + 1..];
    PagesSlice(pages, 0, i + 1);
    PagesSlice(pages, i + 1, |pages|);
    calc {
      Emails(pages);
      { assert head + tail == pages; }
      Emails(head + tail);
      { EmailsAppend(head, tail); }
      Emails(head) + Emails(tail);
      { EmailsStep(pages, i); }
      Emails(pages[..i]) + Addresses(PageContacts(pages[i])) + Emails(tail);
    }
  }

  /** A page without a `Contacts` key adds no address. */
  lemma MissingContactsAddNothing(pages: seq<Reply>, token: Option<string>)
    requires AllPages(pages)
    ensures AllPages(pages + [Page(None, token)])
    ensures Emails(pages + [Page(None, token)]) == Emails(pages)
  {
    assert (pages + [Page(None, token)])[..|pages|] == pages;
  }

  /** A single page whose `NextToken` is `None`: one call with only the list name, and that page's addresses. */
  lemma SinglePageOneCall(replies: seq<Reply>, contacts: seq<Contact>)
    requires |replies| >= 1 && replies[0] == Page(Some(contacts), None)
    ensures Ends(replies) && FirstFinal(replies) == 0
    ensures Collected(replies) == Ok(Addresses(contacts))
  {
    assert Final(replies[0]);
    var first := replies[..1];
    assert first[..0] == [] && first[0] == replies[0];
    assert Emails(first) == [] + Addresses(contacts);
  }

  /** A `ClientError` on the first call is re-raised: no list at all. */
  lemma FirstCallFails(replies: seq<Reply>)
    requires |replies| >= 1 && replies[0] == ClientError
    ensures Ends(replies) && Collected(replies) == Err(RaisedClientError)
  {
    assert Final(replies[0]);
  }
}
