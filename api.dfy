/** The Open Library client of src/lib/api.js: the title search
    (`fetchBooksByTitle`) with its empty-query short cut, the mapping of raw
    search documents to the app's book records, and the cover-image URL
    (`coverUrl`).

    The network is a parameter: `send` answers each request the client
    issues, and a run reports the requests it issued beside its result, so
    that "no request" and "exactly one request" can be stated. */
module Api {
  import opened Basics
  import opened Strings

  /** One element of the `docs` array of an Open Library search response;
      every field may be absent. */
  datatype RawDoc = RawDoc(
    key: Option<string>,
    coverEditionKey: Option<string>,
    editionKey: Option<seq<string>>,
    title: Option<string>,
    subtitle: Option<string>,
    authorName: Option<seq<string>>,
    firstPublishYear: Option<int>,
    coverI: Option<int>,
    isbn: Option<seq<string>>,
    editionCount: Option<int>,
    subject: Option<seq<string>>)

  /** The book record the app renders. `key`, `title`, `subtitle`,
      `firstPublishYear` and `coverI` stay absent when the document lacks them. */
  datatype Book = Book(
    key: Option<string>,
    title: Option<string>,
    subtitle: Option<string>,
    authorName: seq<string>,
    firstPublishYear: Option<int>,
    coverI: Option<int>,
    isbn: seq<string>,
    editionCount: int,
    subject: seq<string>)

  /** A decoded response body: JSON `null`, or any other JSON value, of which
      only the `docs` and `numFound` members matter (a value without them, an
      array or a number say, has both absent). */
  datatype Body = Unparseable | Null | Value(docs: Option<seq<RawDoc>>, numFound: Option<int>)

  /** What `fetch` yields: a rejection (DNS, connection reset, ...) or a
      response with its status and body. */
  datatype HttpOutcome = NetworkFailure | Response(status: int, body: Body)

  /** The search request: the trimmed title and the `page` and `limit` query
      parameters. */
  datatype Request = Request(title: string, page: int, limit: int)

  datatype SearchPage = SearchPage(results: seq<Book>, numFound: int)

  /** Why `fetchBooksByTitle` rejects: `fetch` rejected, the status was not
      2xx, or the body could not be decoded (`res.json()` rejected, or it gave
      `null` and reading `numFound` from it throws). */
  datatype FetchError = Network | BadStatus(status: int) | BadBody

  /** A call of `fetchBooksByTitle`: the requests it sent and its outcome. */
  datatype FetchRun = FetchRun(sent: seq<Request>, result: Result<SearchPage, FetchError>)

  /** JavaScript truthiness of an optional string: present and non-empty. */
  predicate Truthy(s: Option<string>) {
    s.Some? && s.value != ""
  }

  /** JavaScript truthiness of an optional number: present and non-zero. */
  predicate TruthyNumber(n: Option<int>) {
    n.Some? && n.value != 0
  }

  /** `Response.ok`: the status is in the range 200-299. */
  predicate IsOk(status: int) {
    200 <= status <= 299
  }

  /** `a || b || ... || z` over optional strings: the first truthy operand,
      or the last operand when none is truthy. */
  function FirstTruthy(xs: seq<Option<string>>): (r: Option<string>)
    requires |xs| >= 1
    ensures r in xs
    ensures !Truthy(r) ==> r == xs[|xs| - 1]
    ensures forall i :: 0 <= i < |xs| && Truthy(xs[i]) ==> Truthy(r)
    ensures forall i :: 0 <= i < |xs| && Truthy(xs[i]) && (forall j :: 0 <= j < i ==> !Truthy(xs[j])) ==> r == xs[i]
  {
    if |xs| == 1 || Truthy(xs[0]) then
      xs[0]
    else
      var r := FirstTruthy(xs[1..]);
      assert forall i :: 1 <= i < |xs| ==> xs[i] == xs[1..][i - 1];
      r
  }

  /** `doc.edition_key && doc.edition_key[0]`, up to truthiness: the first
      edition key when there is one. */
  function FirstEditionKey(doc: RawDoc): Option<string> {
    if doc.editionKey.Some? && |doc.editionKey.value| > 0 then Some(doc.editionKey.value[0]) else None
  }

  /** The operands of the key fallback chain, in order. */
  function KeyCandidates(doc: RawDoc): seq<Option<string>> {
    [doc.key, doc.coverEditionKey, FirstEditionKey(doc), doc.title]
  }

  /** The record built for one document: the key is the first truthy
      candidate of the fallback chain (the title when none is), missing lists
      become empty, a missing or zero edition count becomes 0, and the other
      fields are copied. */
  function Normalize(doc: RawDoc): (b: Book)
    ensures b.key in KeyCandidates(doc)
    ensures Truthy(b.key) || b.key == doc.title
    ensures Truthy(doc.key) ==> b.key == doc.key
    ensures !Truthy(doc.key) && Truthy(doc.coverEditionKey) ==> b.key == doc.coverEditionKey
    ensures !Truthy(doc.key) && !Truthy(doc.coverEditionKey) && Truthy(FirstEditionKey(doc)) ==>
      b.key == FirstEditionKey(doc)
    ensures !Truthy(doc.key) && !Truthy(doc.coverEditionKey) && !Truthy(FirstEditionKey(doc)) ==>
      b.key == doc.title
    ensures Truthy(doc.title) ==> Truthy(b.key)
    ensures b.title == doc.title && b.subtitle == doc.subtitle
    ensures b.firstPublishYear == doc.firstPublishYear && b.coverI == doc.coverI
    ensures b.authorName == (if doc.authorName.Some? then doc.authorName.value else [])
    ensures b.isbn == (if doc.isbn.Some? then doc.isbn.value else [])
    ensures b.subject == (if doc.subject.Some? then doc.subject.value else [])
    ensures b.editionCount == (if doc.editionCount.Some? then doc.editionCount.value else 0)
  {
    var cands := KeyCandidates(doc);
    assert cands[0] == doc.key && cands[1] == doc.coverEditionKey;
    assert cands[2] == FirstEditionKey(doc) && cands[3] == doc.title;
    Book(
      key := FirstTruthy(cands),
      title := doc.title,
      subtitle := doc.subtitle,
      authorName := doc.authorName.GetOr([]),
      firstPublishYear := doc.firstPublishYear,
      coverI := doc.coverI,
      isbn := doc.isbn.GetOr([]),
      editionCount := doc.editionCount.GetOr(0),
      subject := doc.subject.GetOr([]))
  }

  /** A document without author names, ISBNs, subjects or edition count maps
      to a record with every default in place. */
  lemma NormalizeDefaults(doc: RawDoc)
    requires doc.authorName.None? && doc.isbn.None? && doc.subject.None?
    requires doc.editionCount.None? || doc.editionCount == Some(0)
    ensures var b := Normalize(doc);
      b.authorName == [] && b.isbn == [] && b.subject == [] && b.editionCount == 0
  {
  }

  /** `docs.map(...)`: one record per document, in the same order. */
  function NormalizeAll(docs: seq<RawDoc>): (bs: seq<Book>)
    ensures |bs| == |docs|
    ensures forall i :: 0 <= i < |docs| ==> bs[i] == Normalize(docs[i])
  {
    seq(|docs|, i requires 0 <= i < |docs| => Normalize(docs[i]))
  }

  /** Every document with a non-empty title gets a non-empty key. */
  lemma NormalizeAllKeysPresent(docs: seq<RawDoc>)
    ensures forall i :: 0 <= i < |docs| && Truthy(docs[i].title) ==> Truthy(NormalizeAll(docs)[i].key)
  {
  }

  /** What the client makes of the answer to its request. */
  function HandleResponse(outcome: HttpOutcome): (r: Result<SearchPage, FetchError>)
    ensures outcome.NetworkFailure? ==> r == Failure(Network)
    ensures outcome.Response? && !IsOk(outcome.status) ==> r == Failure(BadStatus(outcome.status))
    ensures r.Success? <==> outcome.Response? && IsOk(outcome.status) && outcome.body.Value?
    ensures r.Success? ==>
      var docs := if outcome.body.docs.Some? then outcome.body.docs.value else [];
      && |r.value.results| == |docs|
      && (forall i :: 0 <= i < |docs| ==> r.value.results[i] == Normalize(docs[i]))
      && r.value.numFound == (if outcome.body.numFound.Some? then outcome.body.numFound.value else 0)
  {
    match outcome
    case NetworkFailure => Failure(Network)
    case Response(status, body) =>
      if !IsOk(status) then Failure(BadStatus(status))
      else
        match body
        case Unparseable => Failure(BadBody)
        case Null => Failure(BadBody)
        case Value(docs, numFound) =>
          Success(SearchPage(NormalizeAll(docs.GetOr([])), numFound.GetOr(0)))
  }

  /** `fetchBooksByTitle(title, { page, perPage })`. A blank title resolves
      to an empty page without any request; any other title sends exactly one
      request, carrying the trimmed title, and the result is what the answer
      to that request decodes to. */
  function FetchBooksByTitle(title: string, page: int, perPage: int, send: Request -> HttpOutcome): (run: FetchRun)
    ensures run.sent == [] <==> IsBlank(title)
    ensures IsBlank(title) ==> run.result == Success(SearchPage([], 0))
    ensures !IsBlank(title) ==>
      && run.sent == [Request(Trim(title), page, perPage)]
      && Trim(title) != ""
      && run.result == HandleResponse(send(run.sent[0]))
  {
    var q := Trim(title);
    if q == "" then
      FetchRun([], Success(SearchPage([], 0)))
    else
      var req := Request(q, page, perPage);
      FetchRun([req], HandleResponse(send(req)))
  }

  /** Every record of a successful search whose document had a non-empty
      title carries a non-empty key. */
  lemma FetchKeysPresent(title: string, page: int, perPage: int, send: Request -> HttpOutcome)
    ensures var r := FetchBooksByTitle(title, page, perPage, send).result;
      r.Success? ==> forall b :: b in r.value.results && Truthy(b.title) ==> Truthy(b.key)
  {
    var r := FetchBooksByTitle(title, page, perPage, send).result;
    if r.Success? && !IsBlank(title) {
      var outcome := send(Request(Trim(title), page, perPage));
      var docs := if outcome.body.docs.Some? then outcome.body.docs.value else [];
      forall b | b in r.value.results && Truthy(b.title) ensures Truthy(b.key) {
        var i :| 0 <= i < |r.value.results| && r.value.results[i] == b;
        assert b == Normalize(docs[i]);
      }
    }
  }

  const CoverBase := "https://covers.openlibrary.org/b/id/"
  const CoverExtension := ".jpg"

  /** The size token used when none is given. */
  function SizeOrDefault(size: Option<string>): string {
    size.GetOr("M")
  }

  /** `coverUrl(cover_i, size = "M")`: no URL for a falsy id (absent or 0),
      otherwise the covers endpoint URL `<base><id>-<size>.jpg`. */
  function CoverUrl(coverI: Option<int>, size: Option<string>): (url: Option<string>)
    ensures url.None? <==> !TruthyNumber(coverI)
    ensures url.Some? ==>
      && |url.value| > |CoverBase| + |CoverExtension|
      && url.value[..|CoverBase|] == CoverBase
      && url.value[|url.value| - |CoverExtension|..] == CoverExtension
  {
    if !TruthyNumber(coverI) then None
    else Some(CoverBase + IntToString(coverI.value) + "-" + SizeOrDefault(size) + CoverExtension)
  }

  /** Reads the id and the size token back out of a covers endpoint URL. */
  function ParseCoverUrl(url: string): Option<(int, string)> {
    if |url| < |CoverBase| + |CoverExtension|
       || url[..|CoverBase|] != CoverBase
       || url[|url| - |CoverExtension|..] != CoverExtension
    then None
    else ParseIdAndSize(url[|CoverBase|..|url| - |CoverExtension|])
  }

  /** Reads `<id>-<size>`: an optional minus sign, then `ParseUnsigned`. */
  function ParseIdAndSize(middle: string): Option<(int, string)> {
    if middle != [] && middle[0] == '-' then
      match ParseUnsigned(middle[1..])
      case None => None
      case Some((n, size)) => Some((-(n as int), size))
    else
      match ParseUnsigned(middle)
      case None => None
      case Some((n, size)) => Some((n as int, size))
  }

  /** Reads `<digits>-<size>`: a non-empty run of digits, a dash, and the
      size token. */
  function ParseUnsigned(unsigned: string): Option<(nat, string)> {
    var k := LeadingDigits(unsigned);
    if k == 0 || k == |unsigned| || unsigned[k] != '-' then None
    else Some((ParseDigits(unsigned[..k]), unsigned[k + 1..]))
  }

  lemma ParseCoverUrlFraming(middle: string)
    ensures ParseCoverUrl(CoverBase + middle + CoverExtension) == ParseIdAndSize(middle)
  {
    var url := CoverBase + middle + CoverExtension;
    assert url[..|CoverBase|] == CoverBase;
    assert url[|url| - |CoverExtension|..] == CoverExtension;
    assert url[|CoverBase|..|url| - |CoverExtension|] == middle;
  }

  lemma ParseUnsignedOf(n: nat, size: string)
    ensures ParseUnsigned(NatToString(n) + "-" + size) == Some((n, size))
  {
    var digits := NatToString(n);
    var unsigned := digits + "-" + size;
    assert unsigned == digits + ("-" + size);
    LeadingDigitsOfDigitsThen(digits, "-" + size);
    assert unsigned[..|digits|] == digits;
    assert unsigned[|digits| + 1..] == size;
    ParseNatToString(n);
  }

  lemma ParseIdAndSizeOf(id: int, size: string)
    ensures ParseIdAndSize(IntToString(id) + "-" + size) == Some((id, size))
  {
    if id < 0 {
      ParseNegative(id, size);
    } else {
      ParseNonNegative(id, size);
    }
  }

  lemma ParseNegative(id: int, size: string)
    requires id < 0
    ensures ParseIdAndSize(IntToString(id) + "-" + size) == Some((id, size))
  {
    var digits := NatToString(-id);
    var unsigned := digits + "-" + size;
    ParseUnsignedOf(-id, size);
    assert IntToString(id) == "-" + digits;
    var middle := "-" + digits + "-" + size;
    assert middle == "-" + unsigned;
    assert middle[0] == '-' && middle[1..] == unsigned;
    assert ParseUnsigned(middle[1..]) == Some((-id, size));
  }

  lemma ParseNonNegative(id: int, size: string)
    requires id >= 0
    ensures ParseIdAndSize(IntToString(id) + "-" + size) == Some((id, size))
  {
    var digits := NatToString(id);
    var middle := digits + "-" + size;
    assert IntToString(id) == digits;
    assert middle[0] == digits[0] && IsDigit(middle[0]);
    ParseUnsignedOf(id, size);
  }

  /** A cover URL determines the id and the size it was built from. */
  lemma CoverUrlRoundTrip(coverI: Option<int>, size: Option<string>)
    requires TruthyNumber(coverI)
    ensures ParseCoverUrl(CoverUrl(coverI, size).value) == Some((coverI.value, SizeOrDefault(size)))
  {
    var id, sz := coverI.value, SizeOrDefault(size);
    var middle := IntToString(id) + "-" + sz;
    assert CoverUrl(coverI, size).value == CoverBase + middle + CoverExtension;
    ParseCoverUrlFraming(middle);
    ParseIdAndSizeOf(id, sz);
  }
}
