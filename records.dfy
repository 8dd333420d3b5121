/** The provider-side DNS record and the matcher that picks the records
    created for a challenge token. */
module Records {
  import opened Numbers

  /** One record as the provider lists it. `recordId` is the only field a
      deletion is keyed by. */
  datatype DNSRecord = DNSRecord(
    recordId: Int64,
    recordType: string,
    content: string,
    domain: string,
    fqdn: string,
    priority: Int64,
    ttl: Int64,
    subdomain: string)

  /** Whether some element of `list` equals `a`: a scan that stops at the
      first equal element. */
  method Contains(a: string, list: seq<string>) returns (found: bool)
    ensures found <==> a in list
  {
    for i := 0 to |list|
      invariant a !in list[..i]
    {
      if list[i] == a {
        return true;
      }
    }
    assert list[..|list|] == list;
    return false;
  }

  /** The records of `records` whose content is one of the `challenge`
      strings, in input order. */
  function FilterByContent(records: seq<DNSRecord>, challenge: seq<string>): (approved: seq<DNSRecord>)
    ensures |approved| <= |records|
    ensures forall r :: r in approved <==> r in records && r.content in challenge
  {
    if records == [] then []
    else (if records[0].content in challenge then [records[0]] else [])
         + FilterByContent(records[1..], challenge)
  }

  /** The loop that grows the list of approved records one input record at
      a time. */
  method FilterRecordsByTxtChallenge(records: seq<DNSRecord>, challenge: seq<string>)
    returns (approved: seq<DNSRecord>)
    ensures approved == FilterByContent(records, challenge)
  {
    approved := [];
    for i := 0 to |records|
      invariant approved == FilterByContent(records[..i], challenge)
    {
      var r := records[i];
      var matches := Contains(r.content, challenge);
      FilterConcat(records[..i], [r], challenge);
      assert records[..i + 1] == records[..i] + [r];
      if matches {
        approved := approved + [r];
      }
    }
    assert records[..|records|] == records;
  }

  lemma {:induction false} FilterConcat(a: seq<DNSRecord>, b: seq<DNSRecord>, challenge: seq<string>)
    ensures FilterByContent(a + b, challenge) == FilterByContent(a, challenge) + FilterByContent(b, challenge)
  {
    if a != [] {
      assert (a + b)[1..] == a[1..] + b;
      FilterConcat(a[1..], b, challenge);
    } else {
      assert a + b == b;
    }
  }

  /** `sub` keeps some of the elements of `s`, in the order `s` has them. */
  ghost predicate IsSubsequence<T>(sub: seq<T>, s: seq<T>)
    decreases |s|
  {
    if sub == [] then true
    else if s == [] then false
    else if sub[0] == s[0] then IsSubsequence(sub[1..], s[1..])
    else IsSubsequence(sub, s[1..])
  }

  /** The filter keeps the input order: its result is a subsequence of the
      input. */
  lemma {:induction false} FilterIsSubsequence(records: seq<DNSRecord>, challenge: seq<string>)
    ensures IsSubsequence(FilterByContent(records, challenge), records)
  {
    if records != [] {
      var rest := FilterByContent(records[1..], challenge);
      FilterIsSubsequence(records[1..], challenge);
      if records[0].content in challenge {
        assert ([records[0]] + rest)[1..] == rest;
      } else {
        assert FilterByContent(records, challenge) == rest;
        assert rest != [] ==> rest[0] in rest;
      }
    }
  }

  /** Every record whose content is a candidate is kept as many times as it
      occurs, and every other record is dropped. */
  lemma {:induction false} FilterCounts(records: seq<DNSRecord>, challenge: seq<string>, r: DNSRecord)
    ensures multiset(FilterByContent(records, challenge))[r]
         == if r.content in challenge then multiset(records)[r] else 0
  {
    if records != [] {
      FilterCounts(records[1..], challenge, r);
      assert records == [records[0]] + records[1..];
      assert multiset(records) == multiset([records[0]]) + multiset(records[1..]);
    }
  }

  /** Nothing matching gives the empty list, not a failure. */
  lemma FilterEmptyIffNoMatch(records: seq<DNSRecord>, challenge: seq<string>)
    ensures FilterByContent(records, challenge) == []
        <==> forall i :: 0 <= i < |records| ==> records[i].content !in challenge
  {
  }

  /** The first approved record is the earliest input record whose content is
      a candidate. */
  lemma {:induction false} FilterHeadIsFirstMatch(records: seq<DNSRecord>, challenge: seq<string>)
    requires FilterByContent(records, challenge) != []
    ensures exists i :: 0 <= i < |records| && records[i] == FilterByContent(records, challenge)[0]
                     && records[i].content in challenge
                     && forall j :: 0 <= j < i ==> records[j].content !in challenge
  {
    if records[0].content !in challenge {
      var rest := records[1..];
      FilterHeadIsFirstMatch(rest, challenge);
      var k :| 0 <= k < |rest| && rest[k] == FilterByContent(rest, challenge)[0]
               && rest[k].content in challenge
               && forall j :: 0 <= j < k ==> rest[j].content !in challenge;
      assert records[k + 1] == rest[k];
      forall j | 0 <= j < k + 1
        ensures records[j].content !in challenge
      {
        if j > 0 {
          assert records[j] == rest[j - 1];
        }
      }
    } else {
      assert records[0] == FilterByContent(records, challenge)[0];
    }
  }
}
