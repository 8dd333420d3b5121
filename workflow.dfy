/** The challenge workflow: deploy creates the TXT record, clean lists the
    domain's records and deletes the first one carrying the token, and the
    entry point picks between them by stage name. Each function returns the
    requests it sends, in order, with its outcome; the provider's replies are
    inputs. */
module Workflow {
  import opened Numbers
  import opened Records
  import opened Provider

  /** How an operation ends: with a value, by returning an error, or by
      panicking with one. */
  datatype Outcome<T> = Ok(value: T) | Err(error: Error) | Panic(error: Error)

  /** The requests an operation sends, in order, and how it ends. */
  datatype Call<T> = Call(requests: seq<Request>, outcome: Outcome<T>)

  /** Whether some listed record carries exactly `content`. */
  predicate HasContent(records: seq<DNSRecord>, content: string) {
    exists i :: 0 <= i < |records| && records[i].content == content
  }

  /** Record `i` is the earliest one carrying `content`. */
  predicate IsFirstWithContent(records: seq<DNSRecord>, content: string, i: int) {
    && 0 <= i < |records|
    && records[i].content == content
    && forall j :: 0 <= j < i ==> records[j].content != content
  }

  /** Deploy: one add request for the challenge record. The provider's
      record is returned as a one-element list unless the envelope says
      "error". */
  function CreateAcmeRecord(pddToken: string, domain: string, txtChallenge: string,
                            reply: Reply<CreateResponse>): (c: Call<seq<DNSRecord>>)
    ensures c.requests == [AddRequest(pddToken, domain, txtChallenge)]
    ensures !c.outcome.Panic?
    ensures c.outcome.Ok? <==> reply.Envelope? && reply.body.success != "error"
    ensures c.outcome.Ok? ==> c.outcome.value == [reply.body.record]
    ensures reply.NoResponse? ==> c.outcome == Err(TransportError(reply.cause))
    ensures reply.Unparsable? ==> c.outcome == Err(DecodeError(reply.cause))
    ensures reply.Envelope? && reply.body.success == "error"
            ==> c.outcome == Err(ProviderError(reply.body.error))
  {
    var request := AddRequest(pddToken, domain, txtChallenge);
    match reply
    case NoResponse(cause) => Call([request], Err(TransportError(cause)))
    case Unparsable(cause) => Call([request], Err(DecodeError(cause)))
    case Envelope(container) =>
      match EnvelopeStatus(container.success, container.error)
      case Failure(e) => Call([request], Err(e))
      case Success(_) => Call([request], Ok([container.record]))
  }

  /** How the hook reads the reply to its delete request. */
  function DeleteOutcome(reply: Reply<DeleteResponse>): (o: Outcome<()>)
    ensures !o.Panic?
    ensures o.Ok? <==> reply.Envelope? && reply.body.success != "error"
    ensures reply.NoResponse? ==> o == Err(TransportError(reply.cause))
    ensures reply.Unparsable? ==> o == Err(DecodeError(reply.cause))
    ensures reply.Envelope? && reply.body.success == "error"
            ==> o == Err(ProviderError(reply.body.error))
  {
    match reply
    case NoResponse(cause) => Err(TransportError(cause))
    case Unparsable(cause) => Err(DecodeError(cause))
    case Envelope(container) =>
      match EnvelopeStatus(container.success, container.error)
      case Failure(e) => Err(e)
      case Success(_) => Ok(())
  }

  /** Clean: list the domain's records, keep those whose content is the
      token, fail with "not found" when none is left, and otherwise delete the
      first one by its record id. A failed listing panics. */
  function DeleteAcmeRecord(pddToken: string, domain: string, txtChallenge: string,
                            listReply: Reply<ListResponse>, delReply: Reply<DeleteResponse>): (c: Call<()>)
    ensures 1 <= |c.requests| <= 2 && c.requests[0] == ListRequest(pddToken, domain)
    ensures !listReply.Envelope? ==>
              c.requests == [ListRequest(pddToken, domain)] && c.outcome == Panic(ListRecords(listReply).error)
    ensures |c.requests| == 2 <==> listReply.Envelope? && HasContent(listReply.body.records, txtChallenge)
    ensures c.outcome == Err(NotFoundError(txtChallenge))
        <==> listReply.Envelope? && !HasContent(listReply.body.records, txtChallenge)
    ensures |c.requests| == 2 ==>
              exists i :: IsFirstWithContent(listReply.body.records, txtChallenge, i)
                       && c.requests[1] == DelRequest(pddToken, domain, listReply.body.records[i].recordId)
    ensures |c.requests| == 2 ==> c.outcome == DeleteOutcome(delReply)
  {
    var list := ListRequest(pddToken, domain);
    match ListRecords(listReply)
    case Failure(e) => Call([list], Panic(e))
    case Success(dnsRecords) =>
      var filteredRecords := FilterByContent(dnsRecords, [txtChallenge]);
      if |filteredRecords| < 1 then
        FilterEmptyIffNoMatch(dnsRecords, [txtChallenge]);
        Call([list], Err(NotFoundError(txtChallenge)))
      else
        FilterHeadIsFirstMatch(dnsRecords, [txtChallenge]);
        FilterEmptyIffNoMatch(dnsRecords, [txtChallenge]);
        var del := DelRequest(pddToken, domain, filteredRecords[0].recordId);
        Call([list, del], DeleteOutcome(delReply))
  }

  /** The stage names the hook acts on. */
  const AllowedHooks: seq<string> := ["deploy_challenge", "clean_challenge"]

  /** What the provider would answer to each of the three calls. */
  datatype Remote = Remote(list: Reply<ListResponse>, create: Reply<CreateResponse>, delete: Reply<DeleteResponse>)

  /** How the process ends: normally (with the records it prints for a
      deploy), by a panic, or with exit status 1 for a missing token. */
  datatype Exit = Completed(shown: seq<DNSRecord>) | Aborted(error: Error) | CredentialMissing

  datatype Run = Run(requests: seq<Request>, exit: Exit)

  /** The entry point: `pddToken` is the value of `PDD_TOKEN` ("" when unset),
      `stage`, `domain` and `txtChallenge` the first, second and fourth
      command-line arguments. */
  function Hook(pddToken: string, stage: string, domain: string, txtChallenge: string, remote: Remote): (r: Run)
    ensures r.exit.CredentialMissing? <==> pddToken == ""
    ensures pddToken == "" ==> r.requests == []
    ensures forall q :: q in r.requests ==> q.pddToken == pddToken
    ensures pddToken != "" && stage !in AllowedHooks ==> r == Run([], Completed([]))
    ensures pddToken != "" && stage == "deploy_challenge" ==>
              && r.requests == [AddRequest(pddToken, domain, txtChallenge)]
              && r.requests == CreateAcmeRecord(pddToken, domain, txtChallenge, remote.create).requests
              && (r.exit.Completed? <==> remote.create.Envelope? && remote.create.body.success != "error")
              && (r.exit.Completed? ==> r.exit.shown == [remote.create.body.record])
              && (!r.exit.Completed? ==>
                    r.exit == Aborted(CreateAcmeRecord(pddToken, domain, txtChallenge, remote.create).outcome.error))
    ensures pddToken != "" && stage == "clean_challenge" ==>
              && 1 <= |r.requests| <= 2
              && r.requests[0] == ListRequest(pddToken, domain)
              && r.requests == DeleteAcmeRecord(pddToken, domain, txtChallenge, remote.list, remote.delete).requests
              && (forall q :: q in r.requests ==> q.endpoint != AddEndpoint)
              && (r.exit.Completed? <==>
                    remote.list.Envelope? && HasContent(remote.list.body.records, txtChallenge)
                    && DeleteOutcome(remote.delete).Ok?)
              && (r.exit.Completed? ==> r.exit.shown == [])
              && (!r.exit.Completed? ==>
                    r.exit == Aborted(DeleteAcmeRecord(pddToken, domain, txtChallenge, remote.list, remote.delete).outcome.error))
    ensures pddToken != "" && stage == "clean_challenge"
            && remote.list.Envelope? && !HasContent(remote.list.body.records, txtChallenge) ==>
              && r.exit == Aborted(NotFoundError(txtChallenge))
              && Message(r.exit.error) == NotFoundPrefix + txtChallenge + NotFoundSuffix
  {
    if pddToken == "" then Run([], CredentialMissing)
    else if stage !in AllowedHooks then Run([], Completed([]))
    else if stage == "deploy_challenge" then
      var c := CreateAcmeRecord(pddToken, domain, txtChallenge, remote.create);
      match c.outcome
      case Ok(created) => Run(c.requests, Completed(created))
      case Err(e) => Run(c.requests, Aborted(e))
      case Panic(e) => Run(c.requests, Aborted(e))
    else if stage == "clean_challenge" then
      var c := DeleteAcmeRecord(pddToken, domain, txtChallenge, remote.list, remote.delete);
      match c.outcome
      case Ok(_) => Run(c.requests, Completed([]))
      case Err(e) => Run(c.requests, Aborted(e))
      case Panic(e) => Run(c.requests, Aborted(e))
    else Run([], Completed([]))
  }

  /** Clean never sends a delete unless a listed record carries the token,
      and a delete it sends names the record id of the first such record. */
  lemma CleanDeletesOnlyAMatch(pddToken: string, domain: string, txtChallenge: string, remote: Remote, q: Request)
    requires pddToken != ""
    requires q in Hook(pddToken, "clean_challenge", domain, txtChallenge, remote).requests
    requires q.endpoint == DelEndpoint
    ensures remote.list.Envelope?
    ensures exists i :: IsFirstWithContent(remote.list.body.records, txtChallenge, i)
                     && ParseDecimal(Get(q.query, RecordIdParam)) == remote.list.body.records[i].recordId
  {
  }

  /** The listing's discriminator is never consulted: a listing envelope
      marked "error" with no records makes clean report "not found" rather
      than the provider's message. */
  lemma CleanAfterListErrorReportsNotFound(pddToken: string, domain: string, txtChallenge: string,
                                           message: string, delReply: Reply<DeleteResponse>)
    ensures DeleteAcmeRecord(pddToken, domain, txtChallenge,
                             Envelope(ListResponse([], "error", message)), delReply)
         == Call([ListRequest(pddToken, domain)], Err(NotFoundError(txtChallenge)))
  {
  }

  /** Two records listed, and clean for the second one's content: the delete
      names record id 2. */
  lemma CleanPicksMatchingRecord(pddToken: string)
    requires pddToken != ""
    ensures
      var a := DNSRecord(1, "TXT", "abc", "example.com", "", 0, 3600, "_acme-challenge");
      var b := DNSRecord(2, "TXT", "xyz", "example.com", "", 0, 3600, "_acme-challenge");
      var ok := DNSRecord(0, "", "", "", "", 0, 0, "");
      var r := Hook(pddToken, "clean_challenge", "example.com", "xyz",
                    Remote(Envelope(ListResponse([a, b], "ok", "")),
                           NoResponse("unused"),
                           Envelope(DeleteResponse(ok, "ok", ""))));
      r == Run([ListRequest(pddToken, "example.com"), DelRequest(pddToken, "example.com", 2)], Completed([]))
  {
  }
}
